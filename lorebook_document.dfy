/** The shapes the lorebook generator reads and writes: templates from the
    injected template library, the category -> tags selection, chunks and the
    lorebook document, with the counting helpers that several operations share. */
module LorebookDocument {
  import opened Wrappers

  /** A chunk's or template's `triggers` dict. Only the truthiness of each
      value is ever inspected, so that is what is kept. A missing `triggers`
      key reads as `{}`, which is the empty map here. */
  type Triggers = map<string, bool>

  /** One emotion response record; each of its keys may be absent. */
  datatype Response = Response(tone: Option<string>, action: Option<string>, tokens: Option<int>) {
    /** A Python dict is falsy exactly when it has no keys. */
    predicate IsEmpty() {
      tone.None? && action.None? && tokens.None?
    }
  }

  /** An `emotion_responses` dict, in its iteration (insertion) order. */
  type EmotionTable = seq<(string, Response)>

  /** A template of the library. `triggers`, `emotion_responses` and
      `requires_selection` read as `{}`, `{}` and `False` when absent, so
      absence is the empty value; `tokens` and `ui_tag` keep their absence. */
  datatype Template = Template(
    id: string,
    category: string,
    priority: int,
    tokens: Option<int>,
    triggers: Triggers,
    emotionResponses: EmotionTable,
    uiTag: Option<string>,
    requiresSelection: bool)

  /** The read-only template library: lookup of a UI tag, optionally
      disambiguated by category, and the set of all known UI tag names. */
  datatype Library = Library(
    lookup: (string, Option<string>) -> Option<Template>,
    tagNames: set<string>)

  /** A lorebook chunk: copied from a template, or written by the user. */
  datatype Chunk =
    | TagMatched(
        id: string,
        category: string,
        priority: int,
        tokens: int,
        triggers: Triggers,
        emotionResponses: EmotionTable,
        uiTag: Option<string>,
        uiCategory: string,
        requiresSelection: bool)
    | Custom(
        id: string,
        category: string,
        priority: int,
        tokens: int,
        triggers: Triggers,
        content: string)
  {
    /** The chunk's `source` field. */
    function Source(): string {
      if TagMatched? then "tag_matched" else "custom"
    }
  }

  /** A user-written chunk as handed to the generator: every key but
      `content` is optional, and `content` may be missing too (an error). */
  datatype CustomEntry = CustomEntry(
    id: Option<string>,
    category: Option<string>,
    priority: Option<int>,
    tokens: Option<int>,
    triggers: Option<Triggers>,
    content: Option<string>)

  /** The category -> list-of-tags dict, in its iteration order. */
  type Selection = seq<(string, seq<string>)>

  datatype Metadata = Metadata(tagMatchedCount: nat, customCount: nat, totalTagsSelected: nat)

  datatype Lorebook = Lorebook(
    characterName: string,
    companionType: string,
    version: string,
    generationMethod: string,
    selectedTags: Selection,
    totalChunks: nat,
    totalTokens: int,
    chunks: seq<Chunk>,
    metadata: Metadata)

  datatype Error = KeyError(key: string)

  /** The (category, tag) pairs of one category's tag list, in list order. */
  function PairsOf(category: string, tags: seq<string>): (ps: seq<(string, string)>)
    ensures |ps| == |tags|
    ensures forall k :: 0 <= k < |tags| ==> ps[k] == (category, tags[k])
  {
    seq(|tags|, k requires 0 <= k < |tags| => (category, tags[k]))
  }

  /** Every (category, tag) pair of a selection, in the order the nested
      loops over the dict and its lists visit them. */
  function Pairs(sel: Selection): seq<(string, string)> {
    if sel == [] then []
    else Pairs(sel[..|sel| - 1]) + PairsOf(sel[|sel| - 1].0, sel[|sel| - 1].1)
  }

  /** `sum(len(tags) for tags in selected_tags.values())` */
  function TotalTagsSelected(sel: Selection): nat {
    if sel == [] then 0
    else TotalTagsSelected(sel[..|sel| - 1]) + |sel[|sel| - 1].1|
  }

  /** The sum of the chunks' flat `tokens` estimates. */
  function SumTokens(chunks: seq<Chunk>): int {
    if chunks == [] then 0 else chunks[0].tokens + SumTokens(chunks[1..])
  }

  /** The number a string of decimal digits spells, most significant first. */
  function DigitsValue(s: string): int {
    if s == [] then 0
    else DigitsValue(s[..|s| - 1]) * 10 + (s[|s| - 1] as int - '0' as int)
  }

  /** Python's `str(n)` for a non-negative integer: decimal digits that
      spell `n`, with no leading zero. */
  function NatToString(n: nat): (s: string)
    ensures |s| >= 1
    ensures forall k :: 0 <= k < |s| ==> '0' <= s[k] <= '9'
    ensures DigitsValue(s) == n
    ensures |s| > 1 ==> s[0] != '0'
  {
    var digit := ('0' as int + n % 10) as char;
    if n < 10 then [digit]
    else
      var prefix := NatToString(n / 10);
      assert (prefix + [digit])[..|prefix|] == prefix;
      prefix + [digit]
  }

  /** Every selected tag yields exactly one pair, so the pairs number as
      many as `total_tags_selected` counts. */
  lemma {:induction false} PairsCount(sel: Selection)
    ensures |Pairs(sel)| == TotalTagsSelected(sel)
  {
    if sel != [] {
      PairsCount(sel[..|sel| - 1]);
    }
  }

  /** Visiting a selection is visiting its first categories, then the rest. */
  lemma {:induction false} PairsAppend(a: Selection, b: Selection)
    ensures Pairs(a + b) == Pairs(a) + Pairs(b)
    decreases |b|
  {
    if b == [] {
      assert a + b == a;
    } else {
      assert (a + b)[..|a + b| - 1] == a + b[..|b| - 1];
      PairsAppend(a, b[..|b| - 1]);
    }
  }

  /** Token sums add up over concatenation. */
  lemma {:induction false} SumTokensAppend(a: seq<Chunk>, b: seq<Chunk>)
    ensures SumTokens(a + b) == SumTokens(a) + SumTokens(b)
  {
    if a == [] {
      assert a + b == b;
    } else {
      assert (a + b)[1..] == a[1..] + b;
      SumTokensAppend(a[1..], b);
    }
  }

  /** Chunks whose estimates are all non-negative sum to a non-negative
      total, and a prefix of them never sums to more than the whole. */
  lemma {:induction false} SumTokensPrefix(chunks: seq<Chunk>, n: nat)
    requires n <= |chunks|
    requires forall k :: 0 <= k < |chunks| ==> chunks[k].tokens >= 0
    ensures 0 <= SumTokens(chunks[..n]) <= SumTokens(chunks)
  {
    if n < |chunks| {
      assert chunks == chunks[..n] + chunks[n..];
      SumTokensAppend(chunks[..n], chunks[n..]);
      SumTokensNonNegative(chunks[..n]);
      SumTokensNonNegative(chunks[n..]);
    } else {
      assert chunks[..n] == chunks;
      SumTokensNonNegative(chunks);
    }
  }

  lemma {:induction false} SumTokensNonNegative(chunks: seq<Chunk>)
    requires forall k :: 0 <= k < |chunks| ==> chunks[k].tokens >= 0
    ensures SumTokens(chunks) >= 0
  {
    if chunks != [] {
      SumTokensNonNegative(chunks[1..]);
    }
  }
}
