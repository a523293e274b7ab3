/** The lorebook generator: turns a category -> tags selection and optional
    user-written entries into a lorebook document, regenerates a document
    for a new selection while keeping its custom chunks, validates a
    selection, previews one tag, estimates retrieval size and summarises a
    document. The template library is passed in as `lib`; the generator
    keeps no other state. */
module LorebookGenerator {
  import opened Wrappers
  import opened LorebookDocument
  import opened PrioritySort

  /** Token estimate of a template or custom entry that gives none. */
  const DefaultTokens := 100
  /** Priority of a custom entry that gives none. */
  const DefaultCustomPriority := 50

  // ---------------------------------------------------------------------
  // generate_lorebook_from_tags
  // ---------------------------------------------------------------------

  /** The chunk a resolved template contributes under a selection category. */
  function FromTemplate(t: Template, category: string): Chunk {
    TagMatched(t.id, t.category, t.priority, t.tokens.GetOr(DefaultTokens), t.triggers,
               t.emotionResponses, t.uiTag, category, t.requiresSelection)
  }

  /** What one selected tag contributes: its template's chunk, or nothing
      when the library has no template for it. */
  function ChunksFor(lib: Library, category: string, tag: string): seq<Chunk> {
    match lib.lookup(tag, Some(category))
    case Some(t) => [FromTemplate(t, category)]
    case None => []
  }

  /** The tag-matched chunks of a sequence of (category, tag) pairs. */
  function TagChunks(lib: Library, ps: seq<(string, string)>): seq<Chunk> {
    if ps == [] then []
    else TagChunks(lib, ps[..|ps| - 1]) + ChunksFor(lib, ps[|ps| - 1].0, ps[|ps| - 1].1)
  }

  predicate HasContent(entries: seq<CustomEntry>) {
    forall k :: 0 <= k < |entries| ==> entries[k].content.Some?
  }

  /** The chunk a custom entry becomes at position `index` of the chunk list. */
  function FromCustom(e: CustomEntry, index: nat): Chunk
    requires e.content.Some?
  {
    Custom(e.id.GetOr("custom_" + NatToString(index)),
           e.category.GetOr("custom"),
           e.priority.GetOr(DefaultCustomPriority),
           e.tokens.GetOr(DefaultTokens),
           e.triggers.GetOr(map[]),
           e.content.value)
  }

  /** The chunks of the custom entries, appended after `base` other chunks. */
  function CustomPart(entries: seq<CustomEntry>, base: nat): (r: seq<Chunk>)
    requires HasContent(entries)
    ensures |r| == |entries|
    ensures forall k :: 0 <= k < |r| ==> r[k].Custom?
  {
    seq(|entries|, k requires 0 <= k < |entries| => FromCustom(entries[k], base + k))
  }

  /** The document `generate_lorebook_from_tags` returns, or the KeyError it
      raises when an entry has no `content`. A missing `custom_chunks`
      argument is the empty sequence. */
  function Generate(lib: Library, characterName: string, companionType: string,
                    sel: Selection, customs: seq<CustomEntry>): (r: Result<Lorebook, Error>)
    ensures r.Err? ==> r.error == KeyError("content")
    ensures r.Ok? ==> r.value.totalChunks == |r.value.chunks| == r.value.metadata.tagMatchedCount + |customs|
    ensures r.Ok? ==> r.value.metadata.customCount == |customs|
  {
    if !HasContent(customs) then Err(KeyError("content"))
    else
      var tagChunks := TagChunks(lib, Pairs(sel));
      var chunks := tagChunks + CustomPart(customs, |tagChunks|);
      Ok(Lorebook(characterName, companionType, "3.0", "tag_based_v3", sel,
                  |chunks|, SumTokens(chunks), chunks,
                  Metadata(|tagChunks|, |customs|, TotalTagsSelected(sel))))
  }

  /** Builds the chunk list by appending: first the chunks of the selected
      tags, then one per custom entry, stopping with a KeyError at the first
      entry without `content`. */
  method GenerateLorebookFromTags(lib: Library, characterName: string, companionType: string,
                                  selectedTags: Selection, customChunks: seq<CustomEntry>)
    returns (r: Result<Lorebook, Error>)
    ensures r == Generate(lib, characterName, companionType, selectedTags, customChunks)
  {
    var chunks, tagMatchedCount := MatchTags(lib, selectedTags);

    ghost var tagPart := chunks;
    for k := 0 to |customChunks|
      invariant HasContent(customChunks[..k])
      invariant chunks == tagPart + CustomPart(customChunks[..k], |tagPart|)
    {
      var entry := customChunks[k];
      if entry.content.None? {
        assert !HasContent(customChunks);
        return Err(KeyError("content"));
      }
      CustomPartStep(customChunks, k, |tagPart|);
      chunks := chunks + [FromCustom(entry, |chunks|)];
    }
    assert customChunks[..|customChunks|] == customChunks;

    var totalTokens := SumTokens(chunks);
    r := Ok(Lorebook(characterName, companionType, "3.0", "tag_based_v3", selectedTags,
                     |chunks|, totalTokens, chunks,
                     Metadata(tagMatchedCount, |customChunks|, TotalTagsSelected(selectedTags))));
  }

  /** Converting one more entry appends its chunk at the next position. */
  lemma CustomPartStep(entries: seq<CustomEntry>, k: nat, base: nat)
    requires k < |entries| && HasContent(entries[..k + 1])
    ensures HasContent(entries[..k])
    ensures CustomPart(entries[..k + 1], base)
         == CustomPart(entries[..k], base) + [FromCustom(entries[k], base + k)]
  {
    assert entries[..k + 1][..k] == entries[..k];
  }

  /** The nested loops over categories and their tags: each tag whose
      template is found appends that template's chunk and is counted. */
  method MatchTags(lib: Library, selectedTags: Selection) returns (chunks: seq<Chunk>, tagMatchedCount: nat)
    ensures chunks == TagChunks(lib, Pairs(selectedTags))
    ensures tagMatchedCount == |chunks|
  {
    chunks, tagMatchedCount := [], 0;
    for i := 0 to |selectedTags|
      invariant chunks == TagChunks(lib, Pairs(selectedTags[..i]))
      invariant tagMatchedCount == |chunks|
    {
      var (category, tags) := selectedTags[i];
      ghost var done := Pairs(selectedTags[..i]);
      PairsStep(selectedTags, i, 0);
      for j := 0 to |tags|
        invariant chunks == TagChunks(lib, done + PairsOf(category, tags[..j]))
        invariant tagMatchedCount == |chunks|
      {
        TagChunksStep(lib, done, category, tags, j);
        var template := lib.lookup(tags[j], Some(category));
        if template.Some? {
          chunks := chunks + [FromTemplate(template.value, category)];
          tagMatchedCount := tagMatchedCount + 1;
        }
      }
      PairsStep(selectedTags, i, |tags|);
    }
    assert selectedTags[..|selectedTags|] == selectedTags;
  }

  /** The pairs visited after `j` tags of category `i`: none of that category
      yet at the start, and all of its pairs at the end. */
  lemma PairsStep(sel: Selection, i: nat, j: nat)
    requires i < |sel| && (j == 0 || j == |sel[i].1|)
    ensures j == 0 ==> Pairs(sel[..i]) + PairsOf(sel[i].0, sel[i].1[..j]) == Pairs(sel[..i])
    ensures j == |sel[i].1| ==> Pairs(sel[..i]) + PairsOf(sel[i].0, sel[i].1[..j]) == Pairs(sel[..i + 1])
  {
    assert sel[..i + 1][..i] == sel[..i];
    assert sel[i].1[..|sel[i].1|] == sel[i].1;
  }

  /** Visiting one more tag appends what that tag contributes. */
  lemma TagChunksStep(lib: Library, done: seq<(string, string)>, category: string, tags: seq<string>, j: nat)
    requires j < |tags|
    ensures TagChunks(lib, done + PairsOf(category, tags[..j + 1]))
         == TagChunks(lib, done + PairsOf(category, tags[..j]))
            + match lib.lookup(tags[j], Some(category))
              case Some(t) => [FromTemplate(t, category)]
              case None => []
  {
    assert PairsOf(category, tags[..j + 1]) == PairsOf(category, tags[..j]) + [(category, tags[j])];
    assert done + PairsOf(category, tags[..j + 1])
        == (done + PairsOf(category, tags[..j])) + [(category, tags[j])];
    TagChunksSnoc(lib, done + PairsOf(category, tags[..j]), (category, tags[j]));
  }

  lemma TagChunksSnoc(lib: Library, ps: seq<(string, string)>, p: (string, string))
    ensures TagChunks(lib, ps + [p]) == TagChunks(lib, ps) + ChunksFor(lib, p.0, p.1)
  {
    assert (ps + [p])[..|ps|] == ps;
  }

  /** The chunks of earlier pairs come before those of later pairs. */
  lemma {:induction false} TagChunksAppend(lib: Library, a: seq<(string, string)>, b: seq<(string, string)>)
    ensures TagChunks(lib, a + b) == TagChunks(lib, a) + TagChunks(lib, b)
    decreases |b|
  {
    if b == [] {
      assert a + b == a;
    } else {
      var front := b[..|b| - 1];
      var last := b[|b| - 1];
      assert a + b == (a + front) + [last];
      assert b == front + [last];
      TagChunksSnoc(lib, a + front, last);
      TagChunksSnoc(lib, front, last);
      TagChunksAppend(lib, a, front);
    }
  }

  /** Generation visits categories in selection order: the tag-matched
      chunks of a selection made of two parts are those of the first part
      followed by those of the second. */
  lemma CategoryOrder(lib: Library, a: Selection, b: Selection)
    ensures TagChunks(lib, Pairs(a + b)) == TagChunks(lib, Pairs(a)) + TagChunks(lib, Pairs(b))
  {
    PairsAppend(a, b);
    TagChunksAppend(lib, Pairs(a), Pairs(b));
  }

  /** A tag the library cannot resolve adds no chunk and leaves the chunks
      of every other tag where they were; a resolved tag adds exactly its
      template's chunk, at its own place. */
  lemma UnresolvedTagSkipped(lib: Library, before: seq<(string, string)>, p: (string, string),
                             after: seq<(string, string)>)
    ensures lib.lookup(p.1, Some(p.0)).None? ==>
      TagChunks(lib, before + [p] + after) == TagChunks(lib, before + after)
    ensures lib.lookup(p.1, Some(p.0)).Some? ==>
      TagChunks(lib, before + [p] + after)
        == TagChunks(lib, before) + [FromTemplate(lib.lookup(p.1, Some(p.0)).value, p.0)] + TagChunks(lib, after)
  {
    TagChunksAppend(lib, before + [p], after);
    TagChunksAppend(lib, before, after);
    TagChunksSnoc(lib, before, p);
  }

  /** Every tag-matched chunk comes from a selected tag, so there are never
      more of them than selected tags, and as many when all tags resolve. */
  lemma {:induction false} TagChunksCount(lib: Library, ps: seq<(string, string)>)
    ensures |TagChunks(lib, ps)| <= |ps|
    ensures (forall k :: 0 <= k < |ps| ==> lib.lookup(ps[k].1, Some(ps[k].0)).Some?)
            ==> |TagChunks(lib, ps)| == |ps|
    ensures forall k :: 0 <= k < |TagChunks(lib, ps)| ==> TagChunks(lib, ps)[k].TagMatched?
  {
    if ps != [] {
      TagChunksCount(lib, ps[..|ps| - 1]);
    }
  }

  /** Sum of the flat estimates of the templates the pairs resolve to,
      100 for a template without one. */
  function TemplateTokens(lib: Library, ps: seq<(string, string)>): int {
    if ps == [] then 0
    else
      var (category, tag) := ps[|ps| - 1];
      TemplateTokens(lib, ps[..|ps| - 1]) +
        match lib.lookup(tag, Some(category))
        case Some(t) => t.tokens.GetOr(DefaultTokens)
        case None => 0
  }

  /** Sum of the custom entries' estimates, 100 for an entry without one. */
  function EntryTokens(entries: seq<CustomEntry>): int {
    if entries == [] then 0 else entries[0].tokens.GetOr(DefaultTokens) + EntryTokens(entries[1..])
  }

  lemma {:induction false} TagChunksTokens(lib: Library, ps: seq<(string, string)>)
    ensures SumTokens(TagChunks(lib, ps)) == TemplateTokens(lib, ps)
  {
    if ps != [] {
      var front := ps[..|ps| - 1];
      TagChunksTokens(lib, front);
      SumTokensAppend(TagChunks(lib, front), ChunksFor(lib, ps[|ps| - 1].0, ps[|ps| - 1].1));
    }
  }

  lemma {:induction false} CustomPartTokens(entries: seq<CustomEntry>, base: nat)
    requires HasContent(entries)
    ensures SumTokens(CustomPart(entries, base)) == EntryTokens(entries)
  {
    if entries != [] {
      CustomPartTokens(entries[1..], base + 1);
      assert CustomPart(entries, base) == [FromCustom(entries[0], base)] + CustomPart(entries[1..], base + 1);
    }
  }

  /** Generation fails exactly when some custom entry lacks `content`, and
      then with a KeyError on "content". Otherwise the derived totals agree
      with the chunks: `total_chunks` counts them, the metadata counts split
      them into tag-matched and custom, no more tags match than were
      selected, and `total_tokens` is the templates' estimates (100 where
      absent) plus the entries' estimates (100 where absent). */
  lemma GenerateTotals(lib: Library, characterName: string, companionType: string,
                       sel: Selection, customs: seq<CustomEntry>)
    ensures Generate(lib, characterName, companionType, sel, customs).Err?
            <==> exists k :: 0 <= k < |customs| && customs[k].content.None?
    ensures Generate(lib, characterName, companionType, sel, customs).Err? ==>
              Generate(lib, characterName, companionType, sel, customs).error == KeyError("content")
    ensures Generate(lib, characterName, companionType, sel, customs).Ok? ==>
      var doc := Generate(lib, characterName, companionType, sel, customs).value;
      && doc.totalChunks == |doc.chunks|
      && doc.metadata.tagMatchedCount + doc.metadata.customCount == doc.totalChunks
      && doc.metadata.customCount == |customs|
      && doc.metadata.tagMatchedCount <= doc.metadata.totalTagsSelected
      && doc.totalTokens == TemplateTokens(lib, Pairs(sel)) + EntryTokens(customs)
  {
    if HasContent(customs) {
      var tagChunks := TagChunks(lib, Pairs(sel));
      TagChunksCount(lib, Pairs(sel));
      PairsCount(sel);
      SumTokensAppend(tagChunks, CustomPart(customs, |tagChunks|));
      TagChunksTokens(lib, Pairs(sel));
      CustomPartTokens(customs, |tagChunks|);
    }
  }

  /** The chunk list holds the tag-matched chunks first, then one chunk per
      custom entry. */
  lemma GenerateLayout(lib: Library, characterName: string, companionType: string,
                       sel: Selection, customs: seq<CustomEntry>)
    requires Generate(lib, characterName, companionType, sel, customs).Ok?
    ensures var doc := Generate(lib, characterName, companionType, sel, customs).value;
      var m := doc.metadata.tagMatchedCount;
      && |doc.chunks| == m + |customs|
      && doc.chunks[..m] == TagChunks(lib, Pairs(sel))
      && (forall k :: 0 <= k < m ==> doc.chunks[k].TagMatched?)
      && (forall k :: m <= k < |doc.chunks| ==> doc.chunks[k].Custom?)
  {
    var tagChunks := TagChunks(lib, Pairs(sel));
    var customPart := CustomPart(customs, |tagChunks|);
    TagChunksCount(lib, Pairs(sel));
    assert (tagChunks + customPart)[..|tagChunks|] == tagChunks;
  }

  /** The custom chunk of entry `k` sits at index m + k, after the m
      tag-matched chunks; it takes every field its entry gives and otherwise
      the defaults: id "custom_" followed by that index, category "custom",
      priority 50, tokens 100, no triggers. */
  lemma CustomDefaults(lib: Library, characterName: string, companionType: string,
                       sel: Selection, customs: seq<CustomEntry>, k: nat)
    requires Generate(lib, characterName, companionType, sel, customs).Ok?
    requires k < |customs|
    ensures var doc := Generate(lib, characterName, companionType, sel, customs).value;
      var m := doc.metadata.tagMatchedCount;
      var c := doc.chunks[m + k];
      && c.Custom?
      && c.id == customs[k].id.GetOr("custom_" + NatToString(m + k))
      && c.category == customs[k].category.GetOr("custom")
      && c.priority == customs[k].priority.GetOr(50)
      && c.tokens == customs[k].tokens.GetOr(100)
      && c.triggers == customs[k].triggers.GetOr(map[])
      && Some(c.content) == customs[k].content
  {
    var tagChunks := TagChunks(lib, Pairs(sel));
    var customPart := CustomPart(customs, |tagChunks|);
    assert (tagChunks + customPart)[|tagChunks| + k] == customPart[k];
  }

  // ---------------------------------------------------------------------
  // regenerate_lorebook
  // ---------------------------------------------------------------------

  /** The chunks whose `source` is "custom", in document order. */
  function CustomChunksOf(chunks: seq<Chunk>): (r: seq<Chunk>)
    ensures forall k :: 0 <= k < |r| ==> r[k].Custom?
    ensures forall c {:trigger c in r} :: c in r <==> c in chunks && c.Custom?
  {
    if chunks == [] then []
    else (if chunks[0].Source() == "custom" then [chunks[0]] else []) + CustomChunksOf(chunks[1..])
  }

  /** A stored custom chunk handed back to the generator as an entry: it
      carries every key the generator reads. */
  function AsEntry(c: Chunk): CustomEntry
    requires c.Custom?
  {
    CustomEntry(Some(c.id), Some(c.category), Some(c.priority), Some(c.tokens), Some(c.triggers), Some(c.content))
  }

  function AsEntries(cs: seq<Chunk>): (r: seq<CustomEntry>)
    requires forall k :: 0 <= k < |cs| ==> cs[k].Custom?
    ensures |r| == |cs| && HasContent(r)
  {
    seq(|cs|, k requires 0 <= k < |cs| => AsEntry(cs[k]))
  }

  /** A new document for `sel` that keeps the existing document's custom
      chunks: they come out exactly as they went in, the name and companion
      type are carried over, and every tag-matched chunk is computed afresh
      from the new selection (none of the old ones survives). */
  function Regenerate(lib: Library, existing: Lorebook, sel: Selection): (r: Result<Lorebook, Error>)
    ensures r.Ok?
    ensures r.value.chunks == TagChunks(lib, Pairs(sel)) + CustomChunksOf(existing.chunks)
    ensures CustomChunksOf(r.value.chunks) == CustomChunksOf(existing.chunks)
    ensures r.value.characterName == existing.characterName
    ensures r.value.companionType == existing.companionType
    ensures r.value.selectedTags == sel
  {
    var kept := CustomChunksOf(existing.chunks);
    var tagChunks := TagChunks(lib, Pairs(sel));
    EntriesRoundTrip(kept, |tagChunks|);
    TagChunksCount(lib, Pairs(sel));
    CustomChunksOfAppend(tagChunks, kept);
    NoCustomAmongTagChunks(tagChunks);
    AllCustomKept(kept);
    Generate(lib, existing.characterName, existing.companionType, sel, AsEntries(kept))
  }

  /** Feeding stored custom chunks back through the generator rebuilds them
      unchanged, whatever their position. */
  lemma EntriesRoundTrip(cs: seq<Chunk>, base: nat)
    requires forall k :: 0 <= k < |cs| ==> cs[k].Custom?
    ensures CustomPart(AsEntries(cs), base) == cs
  {
    var r := CustomPart(AsEntries(cs), base);
    assert forall k :: 0 <= k < |cs| ==> r[k] == cs[k];
  }

  lemma {:induction false} CustomChunksOfAppend(a: seq<Chunk>, b: seq<Chunk>)
    ensures CustomChunksOf(a + b) == CustomChunksOf(a) + CustomChunksOf(b)
  {
    if a == [] {
      assert a + b == b;
    } else {
      var c, t := a[0], a[1..];
      assert a == [c] + t;
      assert a + b == [c] + (t + b);
      var head: seq<Chunk> := if c.Source() == "custom" then [c] else [];
      calc {
        CustomChunksOf(a + b);
        { CustomChunksOfCons(c, t + b); }
        head + CustomChunksOf(t + b);
        { CustomChunksOfAppend(t, b); }
        head + (CustomChunksOf(t) + CustomChunksOf(b));
        (head + CustomChunksOf(t)) + CustomChunksOf(b);
        { CustomChunksOfCons(c, t); }
        CustomChunksOf(a) + CustomChunksOf(b);
      }
    }
  }

  lemma CustomChunksOfCons(c: Chunk, s: seq<Chunk>)
    ensures CustomChunksOf([c] + s) == (if c.Source() == "custom" then [c] else []) + CustomChunksOf(s)
  {
    assert ([c] + s)[0] == c && ([c] + s)[1..] == s;
  }

  lemma {:induction false} NoCustomAmongTagChunks(cs: seq<Chunk>)
    requires forall k :: 0 <= k < |cs| ==> cs[k].TagMatched?
    ensures CustomChunksOf(cs) == []
  {
    if cs != [] {
      NoCustomAmongTagChunks(cs[1..]);
    }
  }

  lemma {:induction false} AllCustomKept(cs: seq<Chunk>)
    requires forall k :: 0 <= k < |cs| ==> cs[k].Custom?
    ensures CustomChunksOf(cs) == cs
  {
    if cs != [] {
      AllCustomKept(cs[1..]);
      assert cs == [cs[0]] + cs[1..];
    }
  }

  /** Regenerating a generated document with its own selection gives back
      the same document. */
  lemma RegenerateOwnSelection(lib: Library, characterName: string, companionType: string,
                               sel: Selection, customs: seq<CustomEntry>)
    requires Generate(lib, characterName, companionType, sel, customs).Ok?
    ensures var doc := Generate(lib, characterName, companionType, sel, customs).value;
      Regenerate(lib, doc, doc.selectedTags) == Ok(doc)
  {
    var doc := Generate(lib, characterName, companionType, sel, customs).value;
    var tagChunks := TagChunks(lib, Pairs(sel));
    var customPart := CustomPart(customs, |tagChunks|);
    assert doc.chunks == tagChunks + customPart;
    CustomChunksOfGenerated(lib, sel, customs);
    var kept := CustomChunksOf(doc.chunks);
    EntriesRoundTrip(kept, |tagChunks|);
    SameCustomPartSameDocument(lib, characterName, companionType, sel, AsEntries(kept), customs);
  }

  /** The custom chunks of a generated chunk list are those its entries became. */
  lemma CustomChunksOfGenerated(lib: Library, sel: Selection, customs: seq<CustomEntry>)
    requires HasContent(customs)
    ensures var tagChunks := TagChunks(lib, Pairs(sel));
      CustomChunksOf(tagChunks + CustomPart(customs, |tagChunks|)) == CustomPart(customs, |tagChunks|)
  {
    var tagChunks := TagChunks(lib, Pairs(sel));
    var customPart := CustomPart(customs, |tagChunks|);
    TagChunksCount(lib, Pairs(sel));
    CustomChunksOfAppend(tagChunks, customPart);
    NoCustomAmongTagChunks(tagChunks);
    AllCustomKept(customPart);
  }

  /** Generation sees custom entries only through the chunks they become. */
  lemma SameCustomPartSameDocument(lib: Library, characterName: string, companionType: string,
                                   sel: Selection, a: seq<CustomEntry>, b: seq<CustomEntry>)
    requires HasContent(a) && HasContent(b)
    requires CustomPart(a, |TagChunks(lib, Pairs(sel))|) == CustomPart(b, |TagChunks(lib, Pairs(sel))|)
    ensures Generate(lib, characterName, companionType, sel, a) == Generate(lib, characterName, companionType, sel, b)
  {
  }

  /** Regenerating twice is regenerating once with the last selection: the
      custom chunks pass through every regeneration unchanged. */
  lemma RegenerateTwice(lib: Library, existing: Lorebook, first: Selection, second: Selection)
    ensures Regenerate(lib, Regenerate(lib, existing, first).value, second)
         == Regenerate(lib, existing, second)
  {
  }

  // ---------------------------------------------------------------------
  // validate_tags and _check_contextual_tag
  // ---------------------------------------------------------------------

  /** The tags accepted under "Platonic Touch" although they are not
      general tag names. */
  const PlatonicTouchTags: set<string> := {"No Touch", "Reserved", "Friendly", "Affectionate"}

  function CheckContextualTag(tag: string, category: string): (r: bool)
    ensures r <==> category == "Platonic Touch" && tag in PlatonicTouchTags
  {
    if tag == "No Touch" && category == "Platonic Touch" then true
    else if tag == "Reserved" && category == "Platonic Touch" then true
    else if tag == "Friendly" && category == "Platonic Touch" then true
    else if tag == "Affectionate" && category == "Platonic Touch" then true
    else false
  }

  predicate IsValidTag(lib: Library, category: string, tag: string) {
    tag in lib.tagNames || CheckContextualTag(tag, category)
  }

  function ErrorMessage(category: string, tag: string): string {
    "Invalid tag '" + tag + "' in category '" + category + "'"
  }

  /** One error per invalid pair, in pair order. */
  function TagErrors(lib: Library, ps: seq<(string, string)>): seq<string> {
    if ps == [] then []
    else
      var (category, tag) := ps[|ps| - 1];
      TagErrors(lib, ps[..|ps| - 1]) +
        (if IsValidTag(lib, category, tag) then [] else [ErrorMessage(category, tag)])
  }

  method ValidateTags(lib: Library, selectedTags: Selection) returns (valid: bool, errors: seq<string>)
    ensures errors == TagErrors(lib, Pairs(selectedTags))
    ensures valid <==> errors == []
  {
    errors := [];
    for i := 0 to |selectedTags|
      invariant errors == TagErrors(lib, Pairs(selectedTags[..i]))
    {
      var (category, tags) := selectedTags[i];
      ghost var done := Pairs(selectedTags[..i]);
      PairsStep(selectedTags, i, 0);
      for j := 0 to |tags|
        invariant errors == TagErrors(lib, done + PairsOf(category, tags[..j]))
      {
        var tag := tags[j];
        ghost var ps := done + PairsOf(category, tags[..j]);
        assert done + PairsOf(category, tags[..j + 1]) == ps + [(category, tag)];
        assert (ps + [(category, tag)])[..|ps|] == ps;
        if tag !in lib.tagNames && !CheckContextualTag(tag, category) {
          errors := errors + [ErrorMessage(category, tag)];
        }
      }
      PairsStep(selectedTags, i, |tags|);
    }
    assert selectedTags[..|selectedTags|] == selectedTags;
    valid := |errors| == 0;
  }

  lemma {:induction false} TagErrorsAppend(lib: Library, a: seq<(string, string)>, b: seq<(string, string)>)
    ensures TagErrors(lib, a + b) == TagErrors(lib, a) + TagErrors(lib, b)
    decreases |b|
  {
    if b == [] {
      assert a + b == a;
    } else {
      var front := b[..|b| - 1];
      assert (a + b)[..|a + b| - 1] == a + front;
      TagErrorsAppend(lib, a, front);
    }
  }

  /** Validation reports each tag on its own and in selection order: the
      errors of a concatenation are the errors of its parts, a valid tag
      contributes none and an invalid one exactly its message. */
  lemma ValidationPerTag(lib: Library, before: seq<(string, string)>, p: (string, string),
                         after: seq<(string, string)>)
    ensures TagErrors(lib, before + [p] + after)
         == TagErrors(lib, before)
            + (if IsValidTag(lib, p.0, p.1) then [] else [ErrorMessage(p.0, p.1)])
            + TagErrors(lib, after)
  {
    TagErrorsAppend(lib, before + [p], after);
    TagErrorsAppend(lib, before, [p]);
    assert [p][..0] == [];
  }

  /** A selection passes validation exactly when every selected tag is a
      known tag name or one of the "Platonic Touch" exceptions. */
  lemma {:induction false} ValidIffAllTagsKnown(lib: Library, ps: seq<(string, string)>)
    ensures TagErrors(lib, ps) == []
        <==> forall k :: 0 <= k < |ps| ==>
               (ps[k].1 in lib.tagNames || (ps[k].0 == "Platonic Touch" && ps[k].1 in PlatonicTouchTags))
    ensures |TagErrors(lib, ps)| <= |ps|
  {
    if ps != [] {
      var front := ps[..|ps| - 1];
      ValidIffAllTagsKnown(lib, front);
      assert forall k :: 0 <= k < |front| ==> front[k] == ps[k];
    }
  }

  // ---------------------------------------------------------------------
  // get_tag_preview
  // ---------------------------------------------------------------------

  const PreviewLimit := 150

  /** `preview[:150] + "..."` when longer than 150 characters. */
  function Truncate(s: string): (r: string)
    ensures |r| <= PreviewLimit + 3
    ensures |r| > PreviewLimit <==> |s| > PreviewLimit
    ensures |s| > PreviewLimit ==> r == s[..PreviewLimit] + "..."
    ensures |s| <= PreviewLimit ==> r == s
  {
    if |s| > PreviewLimit then s[..PreviewLimit] + "..." else s
  }

  /** The value of `key` in a response table (the first entry with it). */
  function Lookup(table: EmotionTable, key: string): Option<Response> {
    if table == [] then None
    else if table[0].0 == key then Some(table[0].1)
    else Lookup(table[1..], key)
  }

  function ToneAndAction(r: Response): string {
    "Tone: " + r.tone.GetOr("") + ". Action: " + r.action.GetOr("")
  }

  const NoResponses := "No emotion responses defined"

  /** The preview before truncation: the non-empty "default" response, or
      else the first response labelled with its emotion. */
  function PreviewText(table: EmotionTable): string
    requires table != []
  {
    var default := Lookup(table, "default").GetOr(Response(None, None, None));
    if !default.IsEmpty() then ToneAndAction(default)
    else "[" + table[0].0 + "] " + ToneAndAction(table[0].1)
  }

  function GetTagPreview(lib: Library, uiTag: string, category: Option<string>): (r: Option<string>)
    ensures r.None? <==> lib.lookup(uiTag, category).None?
    ensures r.Some? ==> |r.value| <= PreviewLimit + 3
    ensures r.Some? && lib.lookup(uiTag, category).value.emotionResponses == [] ==> r.value == NoResponses
  {
    match lib.lookup(uiTag, category)
    case None => None
    case Some(t) =>
      if t.emotionResponses == [] then Some(NoResponses)
      else Some(Truncate(PreviewText(t.emotionResponses)))
  }

  /** A template with a non-empty "default" response previews it as
      "Tone: <tone>. Action: <action>", cut to 150 characters plus "..." when
      longer, with an absent tone or action shown as empty. */
  lemma PreviewPrefersDefault(lib: Library, uiTag: string, category: Option<string>, d: Response)
    requires lib.lookup(uiTag, category).Some?
    requires Lookup(lib.lookup(uiTag, category).value.emotionResponses, "default") == Some(d)
    requires !d.IsEmpty()
    ensures var text := "Tone: " + d.tone.GetOr("") + ". Action: " + d.action.GetOr("");
      GetTagPreview(lib, uiTag, category)
        == Some(if |text| > 150 then text[..150] + "..." else text)
  {
  }

  /** Without a usable "default" response the first response is shown,
      prefixed by its emotion label in brackets. */
  lemma PreviewFallsBackToFirst(lib: Library, uiTag: string, category: Option<string>)
    requires lib.lookup(uiTag, category).Some?
    requires lib.lookup(uiTag, category).value.emotionResponses != []
    requires forall d :: Lookup(lib.lookup(uiTag, category).value.emotionResponses, "default") == Some(d) ==> d.IsEmpty()
    ensures var entry := lib.lookup(uiTag, category).value.emotionResponses[0];
      var text := "[" + entry.0 + "] Tone: " + entry.1.tone.GetOr("") + ". Action: " + entry.1.action.GetOr("");
      GetTagPreview(lib, uiTag, category)
        == Some(if |text| > 150 then text[..150] + "..." else text)
  {
    var table := lib.lookup(uiTag, category).value.emotionResponses;
    var default := Lookup(table, "default").GetOr(Response(None, None, None));
    assert default.IsEmpty() by {
      match Lookup(table, "default")
      case None =>
      case Some(d) => assert d.IsEmpty();
    }
    var first := table[0].1;
    assert PreviewText(table) == "[" + table[0].0 + "] " + ToneAndAction(first);
    assert "[" + table[0].0 + "] " + ToneAndAction(first)
        == "[" + table[0].0 + "] Tone: " + first.tone.GetOr("") + ". Action: " + first.action.GetOr("");
  }

  // ---------------------------------------------------------------------
  // estimate_retrieval_size
  // ---------------------------------------------------------------------

  /** A truthy `triggers.always_check`. */
  predicate AlwaysCheck(t: Triggers) {
    "always_check" in t && t["always_check"]
  }

  predicate IsAlwaysInclude(c: Chunk) {
    AlwaysCheck(c.triggers) || c.Source() == "universal"
  }

  /** The always-include chunks, in document order. */
  function AlwaysInclude(chunks: seq<Chunk>): (r: seq<Chunk>)
    ensures forall k :: 0 <= k < |r| ==> IsAlwaysInclude(r[k])
    ensures forall c :: c in chunks && IsAlwaysInclude(c) ==> c in r
  {
    if chunks == [] then []
    else (if IsAlwaysInclude(chunks[0]) then [chunks[0]] else []) + AlwaysInclude(chunks[1..])
  }

  /** The other chunks, in document order. */
  function NotAlwaysInclude(chunks: seq<Chunk>): (r: seq<Chunk>)
    ensures forall k :: 0 <= k < |r| ==> !IsAlwaysInclude(r[k])
  {
    if chunks == [] then []
    else (if IsAlwaysInclude(chunks[0]) then [] else [chunks[0]]) + NotAlwaysInclude(chunks[1..])
  }

  /** The source's `[c for c in sorted_chunks if c not in always_include]`,
      which compares chunks by value. */
  function NotAmong(sorted: seq<Chunk>, always: seq<Chunk>): (r: seq<Chunk>)
    ensures |r| <= |sorted|
    ensures forall c {:trigger c in r} :: c in r <==> c in sorted && c !in always
  {
    if sorted == [] then []
    else (if sorted[0] in always then [] else [sorted[0]]) + NotAmong(sorted[1..], always)
  }

  /** The ranked others: the non-always chunks by priority, highest first. */
  function Others(chunks: seq<Chunk>): seq<Chunk> {
    NotAlwaysInclude(SortByPriority(chunks))
  }

  /** Python's `s[:n]`, where a negative `n` drops that many from the end. */
  function SliceTo(s: seq<Chunk>, n: int): (r: seq<Chunk>)
    ensures |r| <= |s| && r == s[..|r|]
    ensures 0 <= n ==> |r| == if n < |s| then n else |s|
  {
    if n >= 0 then (if n < |s| then s[..n] else s)
    else if |s| + n > 0 then s[..|s| + n] else []
  }

  datatype Estimate = Estimate(minTokens: int, typicalTokens: int, maxTokens: int, alwaysIncludeCount: nat)

  /** The `max_chunks` a caller gets when it passes none. */
  const DefaultMaxChunks := 7

  /** min: the always-include chunks; typical: those plus the top 5 others;
      max: those plus the top `maxChunks` others. */
  function EstimateOf(chunks: seq<Chunk>, maxChunks: int): Estimate {
    var always := AlwaysInclude(chunks);
    var minTokens := SumTokens(always);
    Estimate(minTokens,
             minTokens + SumTokens(SliceTo(Others(chunks), 5)),
             minTokens + SumTokens(SliceTo(Others(chunks), maxChunks)),
             |always|)
  }

  method EstimateRetrievalSize(lorebook: Lorebook, maxChunks: int := DefaultMaxChunks) returns (e: Estimate)
    ensures e == EstimateOf(lorebook.chunks, maxChunks)
  {
    var chunks := lorebook.chunks;
    var alwaysInclude := AlwaysInclude(chunks);
    var minTokens := SumTokens(alwaysInclude);
    var sortedChunks := SortByPriority(chunks);

    var typicalChunks := alwaysInclude;
    var others := NotAmong(sortedChunks, alwaysInclude);
    OthersByValue(chunks);
    typicalChunks := typicalChunks + SliceTo(others, 5);
    SumTokensAppend(alwaysInclude, SliceTo(others, 5));
    var typicalTokens := SumTokens(typicalChunks);

    var maxRetrievalChunks := alwaysInclude;
    maxRetrievalChunks := maxRetrievalChunks + SliceTo(others, maxChunks);
    SumTokensAppend(alwaysInclude, SliceTo(others, maxChunks));
    var maxTokens := SumTokens(maxRetrievalChunks);

    e := Estimate(minTokens, typicalTokens, maxTokens, |alwaysInclude|);
  }

  /** Comparing by value with the always-include list removes exactly the
      always-include chunks: a chunk equal to an always-include one is one. */
  lemma OthersByValue(chunks: seq<Chunk>)
    ensures NotAmong(SortByPriority(chunks), AlwaysInclude(chunks)) == Others(chunks)
  {
    var sorted := SortByPriority(chunks);
    SortPermutes(chunks);
    assert forall c :: c in sorted ==> c in multiset(sorted);
    NotAmongIsFilter(sorted, AlwaysInclude(chunks), chunks);
  }

  lemma {:induction false} NotAmongIsFilter(sorted: seq<Chunk>, always: seq<Chunk>, chunks: seq<Chunk>)
    requires always == AlwaysInclude(chunks)
    requires forall c :: c in sorted ==> c in chunks
    ensures NotAmong(sorted, always) == NotAlwaysInclude(sorted)
  {
    if sorted != [] {
      assert sorted[0] in chunks;
      assert forall c :: c in sorted[1..] ==> c in sorted;
      NotAmongIsFilter(sorted[1..], always, chunks);
      if sorted[0] in always {
        var k :| 0 <= k < |always| && always[k] == sorted[0];
        assert IsAlwaysInclude(always[k]);
      }
    }
  }

  /** Filtering commutes with the stable sort on a sorted input. */
  lemma {:induction false} NotAlwaysInsert(c: Chunk, sorted: seq<Chunk>)
    requires Descending(sorted)
    ensures NotAlwaysInclude(Insert(c, sorted))
         == if IsAlwaysInclude(c) then NotAlwaysInclude(sorted)
            else Insert(c, NotAlwaysInclude(sorted))
  {
    if sorted == [] || c.priority >= sorted[0].priority {
      assert ([c] + sorted)[1..] == sorted;
      if !IsAlwaysInclude(c) {
        NotAlwaysHead(sorted);
      } else {
        assert [] + NotAlwaysInclude(sorted) == NotAlwaysInclude(sorted);
      }
    } else {
      var head, rest := sorted[0], sorted[1..];
      var mine: seq<Chunk> := if IsAlwaysInclude(head) then [] else [head];
      assert Descending(rest);
      NotAlwaysInsert(c, rest);
      assert ([head] + Insert(c, rest))[1..] == Insert(c, rest);
      assert sorted == [head] + rest;
      assert NotAlwaysInclude(Insert(c, sorted)) == mine + NotAlwaysInclude(Insert(c, rest));
      assert NotAlwaysInclude(sorted) == mine + NotAlwaysInclude(rest);
      if !IsAlwaysInclude(c) {
        if IsAlwaysInclude(head) {
          assert mine + Insert(c, NotAlwaysInclude(rest)) == Insert(c, NotAlwaysInclude(rest));
          assert mine + NotAlwaysInclude(rest) == NotAlwaysInclude(rest);
        } else {
          assert ([head] + NotAlwaysInclude(rest))[1..] == NotAlwaysInclude(rest);
          assert Insert(c, [head] + NotAlwaysInclude(rest)) == [head] + Insert(c, NotAlwaysInclude(rest));
        }
      }
    }
  }

  /** The first non-always chunk of a sorted list has the list's top
      priority or a lower one. */
  lemma {:induction false} NotAlwaysHead(sorted: seq<Chunk>)
    requires Descending(sorted)
    ensures NotAlwaysInclude(sorted) != [] ==> sorted != [] && NotAlwaysInclude(sorted)[0].priority <= sorted[0].priority
  {
    if sorted != [] && IsAlwaysInclude(sorted[0]) {
      assert Descending(sorted[1..]);
      NotAlwaysHead(sorted[1..]);
    }
  }

  /** The ranked others are the stable priority sort of the non-always
      chunks: so they are highest priority first, they are exactly the
      non-always chunks, and equal priorities keep document order. */
  lemma OthersRanked(chunks: seq<Chunk>)
    ensures Others(chunks) == SortByPriority(NotAlwaysInclude(chunks))
    ensures Descending(Others(chunks))
    ensures multiset(Others(chunks)) == multiset(NotAlwaysInclude(chunks))
    ensures forall p :: WithPriority(Others(chunks), p) == WithPriority(NotAlwaysInclude(chunks), p)
  {
    FilterThenSort(chunks);
    SortDescending(NotAlwaysInclude(chunks));
    SortPermutes(NotAlwaysInclude(chunks));
    forall p ensures WithPriority(Others(chunks), p) == WithPriority(NotAlwaysInclude(chunks), p) {
      SortStable(NotAlwaysInclude(chunks), p);
    }
  }

  lemma {:induction false} FilterThenSort(chunks: seq<Chunk>)
    ensures NotAlwaysInclude(SortByPriority(chunks)) == SortByPriority(NotAlwaysInclude(chunks))
  {
    if chunks != [] {
      var c, rest := chunks[0], chunks[1..];
      FilterThenSort(rest);
      SortDescending(rest);
      NotAlwaysInsert(c, SortByPriority(rest));
      assert NotAlwaysInclude(chunks)
          == (if IsAlwaysInclude(c) then [] else [c]) + NotAlwaysInclude(rest);
      if !IsAlwaysInclude(c) {
        assert ([c] + NotAlwaysInclude(rest))[1..] == NotAlwaysInclude(rest);
      } else {
        assert NotAlwaysInclude(chunks) == NotAlwaysInclude(rest);
      }
    }
  }

  /** Every chunk is either always included or among the ranked others, so
      `always_include_count` plus the number of others is the chunk count. */
  lemma {:induction false} AlwaysAndOthersPartition(chunks: seq<Chunk>)
    ensures |AlwaysInclude(chunks)| + |Others(chunks)| == |chunks|
  {
    FilterSizes(chunks);
    OthersRanked(chunks);
    SortDescending(NotAlwaysInclude(chunks));
  }

  lemma {:induction false} FilterSizes(chunks: seq<Chunk>)
    ensures |AlwaysInclude(chunks)| + |NotAlwaysInclude(chunks)| == |chunks|
  {
    if chunks != [] {
      FilterSizes(chunks[1..]);
    }
  }

  /** With non-negative estimates the three figures are ordered: min is at
      most typical and max, typical is at most max once `maxChunks` is 5 or
      more, and max is at most typical for a budget from 0 to 5. */
  lemma EstimateBounds(chunks: seq<Chunk>, maxChunks: int)
    requires forall k :: 0 <= k < |chunks| ==> chunks[k].tokens >= 0
    ensures var e := EstimateOf(chunks, maxChunks);
      && 0 <= e.minTokens <= e.typicalTokens
      && e.minTokens <= e.maxTokens
      && (maxChunks >= 5 ==> e.typicalTokens <= e.maxTokens)
      && (0 <= maxChunks <= 5 ==> e.maxTokens <= e.typicalTokens)
  {
    var always := AlwaysInclude(chunks);
    var others := Others(chunks);
    NonNegativeParts(chunks);
    SumTokensNonNegative(always);
    var five := SliceTo(others, 5);
    var budget := SliceTo(others, maxChunks);
    SumTokensPrefix(others, |five|);
    SumTokensPrefix(others, |budget|);
    if |five| <= |budget| {
      assert budget[..|five|] == five;
      SumTokensPrefix(budget, |five|);
    } else {
      assert five[..|budget|] == budget;
      SumTokensPrefix(five, |budget|);
    }
  }

  /** The always-include chunks and the ranked others are drawn from the
      document's chunks, so their estimates are non-negative when all are. */
  lemma NonNegativeParts(chunks: seq<Chunk>)
    requires forall k :: 0 <= k < |chunks| ==> chunks[k].tokens >= 0
    ensures forall k :: 0 <= k < |AlwaysInclude(chunks)| ==> AlwaysInclude(chunks)[k].tokens >= 0
    ensures forall k :: 0 <= k < |Others(chunks)| ==> Others(chunks)[k].tokens >= 0
  {
    AlwaysIsPart(chunks);
    var sorted := SortByPriority(chunks);
    SortPermutes(chunks);
    NotAlwaysIsPart(sorted);
    forall k | 0 <= k < |Others(chunks)|
      ensures Others(chunks)[k].tokens >= 0
    {
      var c := Others(chunks)[k];
      assert c in sorted;
      assert c in multiset(sorted);
      assert c in chunks;
    }
  }

  lemma {:induction false} NotAlwaysIsPart(chunks: seq<Chunk>)
    ensures forall c :: c in NotAlwaysInclude(chunks) ==> c in chunks
  {
    if chunks != [] {
      NotAlwaysIsPart(chunks[1..]);
    }
  }

  lemma {:induction false} AlwaysIsPart(chunks: seq<Chunk>)
    ensures forall c :: c in AlwaysInclude(chunks) ==> c in chunks
  {
    if chunks != [] {
      AlwaysIsPart(chunks[1..]);
    }
  }

  /** The filter keeps every always-include chunk as often as the document
      holds it, duplicates included, and no other chunk. */
  lemma {:induction false} AlwaysIncludeCounts(chunks: seq<Chunk>)
    ensures forall c :: multiset(AlwaysInclude(chunks))[c]
                     == if IsAlwaysInclude(c) then multiset(chunks)[c] else 0
  {
    if chunks != [] {
      AlwaysIncludeCounts(chunks[1..]);
      assert chunks == [chunks[0]] + chunks[1..];
    }
  }

  /** The filter keeps document order: the always-include chunks of a
      concatenation are those of its first part, then those of its second. */
  lemma {:induction false} AlwaysIncludeAppend(a: seq<Chunk>, b: seq<Chunk>)
    ensures AlwaysInclude(a + b) == AlwaysInclude(a) + AlwaysInclude(b)
  {
    if a == [] {
      assert a + b == b;
    } else {
      var c, t := a[0], a[1..];
      assert a == [c] + t;
      assert a + b == [c] + (t + b);
      var head: seq<Chunk> := if IsAlwaysInclude(c) then [c] else [];
      calc {
        AlwaysInclude(a + b);
        { AlwaysIncludeCons(c, t + b); }
        head + AlwaysInclude(t + b);
        { AlwaysIncludeAppend(t, b); }
        head + (AlwaysInclude(t) + AlwaysInclude(b));
        (head + AlwaysInclude(t)) + AlwaysInclude(b);
        { AlwaysIncludeCons(c, t); }
        AlwaysInclude(a) + AlwaysInclude(b);
      }
    }
  }

  lemma AlwaysIncludeCons(c: Chunk, s: seq<Chunk>)
    ensures AlwaysInclude([c] + s) == (if IsAlwaysInclude(c) then [c] else []) + AlwaysInclude(s)
  {
    assert ([c] + s)[0] == c && ([c] + s)[1..] == s;
  }

  // ---------------------------------------------------------------------
  // get_lorebook_summary
  // ---------------------------------------------------------------------

  /** How many chunks have category `cat`. */
  function CategoryCount(chunks: seq<Chunk>, cat: string): nat {
    if chunks == [] then 0
    else CategoryCount(chunks[..|chunks| - 1], cat) + (if chunks[|chunks| - 1].category == cat then 1 else 0)
  }

  datatype Summary = Summary(
    characterName: string,
    companionType: string,
    totalChunks: nat,
    totalTokens: int,
    totalTagsSelected: nat,
    categories: map<string, nat>,
    selectedTags: Selection,
    version: string)

  method GetLorebookSummary(lorebook: Lorebook) returns (s: Summary)
    ensures forall cat :: CategoryCount(lorebook.chunks, cat) == if cat in s.categories then s.categories[cat] else 0
    ensures forall cat :: cat in s.categories ==> s.categories[cat] > 0
    ensures s.totalChunks == |lorebook.chunks|
    ensures s.totalTokens == lorebook.totalTokens
    ensures s.totalTagsSelected == TotalTagsSelected(lorebook.selectedTags)
    ensures s.characterName == lorebook.characterName && s.companionType == lorebook.companionType
    ensures s.selectedTags == lorebook.selectedTags && s.version == lorebook.version
  {
    var chunks := lorebook.chunks;
    var categories: map<string, nat> := map[];
    for i := 0 to |chunks|
      invariant forall cat :: CategoryCount(chunks[..i], cat) == if cat in categories then categories[cat] else 0
      invariant forall cat :: cat in categories ==> categories[cat] > 0
    {
      assert chunks[..i + 1][..i] == chunks[..i];
      var cat := chunks[i].category;
      categories := categories[cat := (if cat in categories then categories[cat] else 0) + 1];
    }
    assert chunks[..|chunks|] == chunks;
    s := Summary(lorebook.characterName, lorebook.companionType, |chunks|, lorebook.totalTokens,
                 TotalTagsSelected(lorebook.selectedTags), categories, lorebook.selectedTags,
                 lorebook.version);
  }
}
