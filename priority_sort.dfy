/** Python's `sorted(chunks, key=lambda x: x["priority"], reverse=True)`:
    a stable sort on priority, highest first, where chunks of equal
    priority keep their original order. */
module PrioritySort {
  import opened LorebookDocument

  /** Places `c` before the first chunk of `sorted` whose priority is not
      higher than its own. */
  function Insert(c: Chunk, sorted: seq<Chunk>): (r: seq<Chunk>)
    ensures |r| == |sorted| + 1
  {
    if sorted == [] || c.priority >= sorted[0].priority then [c] + sorted
    else [sorted[0]] + Insert(c, sorted[1..])
  }

  /** Insertion sort: the first chunk goes into the sorted rest ahead of any
      chunk of equal priority, so chunks of equal priority keep their order. */
  function SortByPriority(chunks: seq<Chunk>): (r: seq<Chunk>)
    ensures |r| == |chunks|
  {
    if chunks == [] then [] else Insert(chunks[0], SortByPriority(chunks[1..]))
  }

  ghost predicate Descending(s: seq<Chunk>) {
    forall i, j :: 0 <= i < j < |s| ==> s[i].priority >= s[j].priority
  }

  /** The chunks of priority `p`, in their order in `s`. */
  function WithPriority(s: seq<Chunk>, p: int): seq<Chunk> {
    if s == [] then []
    else (if s[0].priority == p then [s[0]] else []) + WithPriority(s[1..], p)
  }

  lemma {:induction false} InsertPermutes(c: Chunk, sorted: seq<Chunk>)
    ensures multiset(Insert(c, sorted)) == multiset{c} + multiset(sorted)
  {
    if sorted != [] && c.priority < sorted[0].priority {
      InsertPermutes(c, sorted[1..]);
      assert sorted == [sorted[0]] + sorted[1..];
    }
  }

  lemma {:induction false} InsertDescending(c: Chunk, sorted: seq<Chunk>)
    requires Descending(sorted)
    ensures Descending(Insert(c, sorted))
    ensures |Insert(c, sorted)| == |sorted| + 1
    ensures Insert(c, sorted)[0] == c || Insert(c, sorted)[0] == sorted[0]
  {
    if sorted != [] && c.priority < sorted[0].priority {
      InsertDescending(c, sorted[1..]);
      var rest := Insert(c, sorted[1..]);
      assert forall j :: 0 < j < |rest| + 1 ==> ([sorted[0]] + rest)[j] == rest[j - 1];
    }
  }

  lemma {:induction false} InsertKeepsOrderOfEqual(c: Chunk, sorted: seq<Chunk>, p: int)
    ensures WithPriority(Insert(c, sorted), p)
         == (if c.priority == p then [c] else []) + WithPriority(sorted, p)
  {
    var mine: seq<Chunk> := if c.priority == p then [c] else [];
    if sorted == [] || c.priority >= sorted[0].priority {
      var r := [c] + sorted;
      assert r[0] == c && r[1..] == sorted;
    } else {
      var head := sorted[0];
      var rest := Insert(c, sorted[1..]);
      var theirs: seq<Chunk> := if head.priority == p then [head] else [];
      InsertKeepsOrderOfEqual(c, sorted[1..], p);
      assert ([head] + rest)[0] == head && ([head] + rest)[1..] == rest;
      calc {
        WithPriority(Insert(c, sorted), p);
        theirs + WithPriority(rest, p);
        theirs + (mine + WithPriority(sorted[1..], p));
        { assert theirs == [] || mine == []; }
        mine + (theirs + WithPriority(sorted[1..], p));
        mine + WithPriority(sorted, p);
      }
    }
  }

  /** The sort returns the same chunks, each as often as before. */
  lemma {:induction false} SortPermutes(chunks: seq<Chunk>)
    ensures multiset(SortByPriority(chunks)) == multiset(chunks)
  {
    if chunks != [] {
      SortPermutes(chunks[1..]);
      InsertPermutes(chunks[0], SortByPriority(chunks[1..]));
      assert chunks == [chunks[0]] + chunks[1..];
    }
  }

  /** The sort puts higher priorities first. */
  lemma {:induction false} SortDescending(chunks: seq<Chunk>)
    ensures Descending(SortByPriority(chunks))
    ensures |SortByPriority(chunks)| == |chunks|
  {
    if chunks != [] {
      SortDescending(chunks[1..]);
      InsertDescending(chunks[0], SortByPriority(chunks[1..]));
    }
  }

  /** The sort is stable: chunks of any one priority keep their order. */
  lemma {:induction false} SortStable(chunks: seq<Chunk>, p: int)
    ensures WithPriority(SortByPriority(chunks), p) == WithPriority(chunks, p)
  {
    if chunks != [] {
      SortStable(chunks[1..], p);
      InsertKeepsOrderOfEqual(chunks[0], SortByPriority(chunks[1..]), p);
    }
  }
}
