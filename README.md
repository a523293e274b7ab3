# Lorebook generator, modelled in Dafny

This project models the lorebook generator of a companion chat service. The
generator turns a user's personality-tag selection into a lorebook. The
selection is a dict mapping each category to its list of UI tags. The
generator can also take user-written custom entries. The lorebook is a list
of chunks plus derived totals and metadata. Each chunk is either copied from
a behaviour template (tag-matched) or written by the user (custom).

The model covers every operation of the generator except the JSON export and import wrappers and the `get_available_tags` stub, which are listed under "## Left out":

- generation from tags: `GenerateLorebookFromTags`, specified by the function `Generate`;
- regeneration for a new selection that keeps the custom chunks: `Regenerate`;
- pre-flight tag validation with its fixed table of "Platonic Touch" exceptions: `ValidateTags` and `CheckContextualTag`;
- the truncated preview of one tag: `GetTagPreview`;
- the retrieval-size estimate, which ranks chunks by priority: `EstimateRetrievalSize`, specified by `EstimateOf`;
- the per-category summary: `GetLorebookSummary`.

The template library is a separate component of the repository. Here it is
an injected, read-only value `Library`. It has a lookup
`(tag, optional category) -> Option<Template>` and a set of known tag names.
The generator object holds nothing else, so the model has no class. Each
operation takes the library as a parameter.

Files:

- `wrappers.dfy`: `Option` (a key that may be absent) and `Result` (a call that may raise).
- `lorebook_document.dfy`: templates, chunks, custom entries, the selection, the lorebook document, and shared counting helpers.
- `priority_sort.dfy`: Python's stable `sorted(..., key=priority, reverse=True)`, with proofs that it permutes, orders and is stable.
- `lorebook_generator.dfy`: the operations and the lemmas about them.

Conventions:

- Python dicts whose order matters are sequences of pairs in iteration order. This covers the selection and the emotion-response tables.
- A missing `custom_chunks` argument behaves exactly like an empty list, so it is the empty sequence.
- An optional dict key is an `Option`.
- A raised `KeyError('content')` is `Err(KeyError("content"))`.
- `max_chunks` defaults to `DefaultMaxChunks`, which is 7, as a default parameter of `EstimateRetrievalSize`.

Details of the code that the model follows:

- The preview falls back to the first response when "default" is absent, and also when "default" is present but maps to an empty dict (a falsy value).
- A custom chunk's default id is `custom_<i>`, where `i` is the chunk's index in the whole chunk list. It is not the entry's index among the custom entries.
- A preview is longer than 150 characters exactly when it was truncated. A short preview whose own text ends in "..." is not truncated, so "ends with ..." alone does not mean truncation.

## Model

| member | source | states |
|---|---|---|
| `LorebookGenerator.GenerateLorebookFromTags` | inference/processors/lorebook_generator.py:24-125 | The loop-built document equals `Generate`: tag-matched chunks first, then one chunk per custom entry, or `KeyError("content")` when an entry lacks content |
| `LorebookGenerator.Generate` | inference/processors/lorebook_generator.py:88-118 | A failed generation raises `KeyError("content")`. A returned document has `total_chunks` equal to its chunk count, which is `tag_matched_count` plus one chunk per entry, and `custom_count` is the number of entries |
| `LorebookGenerator.MatchTags` | inference/processors/lorebook_generator.py:58-85 | The nested loops over categories and tags append one chunk per tag whose template is found, in selection order, and the counter equals the number appended |
| `LorebookGenerator.GenerateTotals` | inference/processors/lorebook_generator.py:88-118 | Generation fails exactly when some entry lacks `content`. Otherwise `total_chunks` is the chunk count and tag-matched plus custom counts equal it. Tag-matched count is at most `total_tags_selected`. `total_tokens` is the sum of template estimates (100 if absent) plus entry estimates (100 if absent) |
| `LorebookGenerator.GenerateLayout` | inference/processors/lorebook_generator.py:59-98 | The first `tag_matched_count` chunks are the tag-matched ones and the rest are custom, one per entry |
| `LorebookDocument.NatToString` | inference/processors/lorebook_generator.py:91 | The `i` in a default id `custom_<i>` is a non-empty string of decimal digits with no leading zero whose value is `i` |
| `LorebookGenerator.CustomDefaults` | inference/processors/lorebook_generator.py:88-98 | Entry k becomes chunk m+k. It keeps every field it gives. Otherwise it gets id `custom_<m+k>`, category "custom", priority 50, tokens 100, empty triggers, and its content |
| `LorebookGenerator.CategoryOrder` | inference/processors/lorebook_generator.py:63-64 | The tag-matched chunks of earlier categories precede those of later ones |
| `LorebookGenerator.UnresolvedTagSkipped` | inference/processors/lorebook_generator.py:65-83 | A tag without a template adds no chunk and moves no other chunk. A resolved tag adds exactly its template's chunk, in place |
| `LorebookGenerator.TagChunksCount` | inference/processors/lorebook_generator.py:63-85 | There are never more tag-matched chunks than selected tags, and exactly as many when every tag resolves. All of them are tag-matched |
| `LorebookGenerator.TagChunksTokens` | inference/processors/lorebook_generator.py:73 | The tag-matched chunks' tokens sum to the templates' estimates, with 100 for a template without one |
| `LorebookDocument.PairsCount` | inference/processors/lorebook_generator.py:116 | The tags the loops visit number exactly `total_tags_selected` |
| `LorebookGenerator.CustomChunksOf` | inference/processors/lorebook_generator.py:144-147 | A chunk is extracted exactly when it is in the document and its source is "custom" |
| `LorebookGenerator.CustomChunksOfAppend` | inference/processors/lorebook_generator.py:144-147 | The extraction keeps document order and multiplicity: extracting from a concatenation is extracting from each part and concatenating |
| `LorebookGenerator.AllCustomKept` | inference/processors/lorebook_generator.py:144-147 | A list of custom chunks is extracted whole, unchanged and in order |
| `LorebookGenerator.Regenerate` | inference/processors/lorebook_generator.py:127-155 | Regeneration never fails, since the document and every stored chunk carry every key (see "## Left out"). The new chunks are the new selection's tag-matched chunks followed by exactly the old custom chunks, equal by value and in order. Name and companion type are copied, and the selection is replaced |
| `LorebookGenerator.EntriesRoundTrip` | inference/processors/lorebook_generator.py:88-98 | A stored custom chunk fed back as an entry comes out unchanged at any position, because it carries every field that is copied |
| `LorebookGenerator.RegenerateOwnSelection` | inference/processors/lorebook_generator.py:144-155 | Regenerating a generated document with its own selection returns the same document |
| `LorebookGenerator.RegenerateTwice` | inference/processors/lorebook_generator.py:144-155 | Two regenerations in a row equal one regeneration with the last selection |
| `LorebookGenerator.ValidateTags` | inference/processors/lorebook_generator.py:210-228 | The loop-built error list is one message per invalid (category, tag) in selection order, and `valid` holds exactly when the list is empty |
| `LorebookGenerator.CheckContextualTag` | inference/processors/lorebook_generator.py:230-240 | True exactly for "No Touch", "Reserved", "Friendly" and "Affectionate" under "Platonic Touch" |
| `LorebookGenerator.ValidationPerTag` | inference/processors/lorebook_generator.py:223-226 | Each tag contributes its own error, or none, at its own place in the list |
| `LorebookGenerator.ValidIffAllTagsKnown` | inference/processors/lorebook_generator.py:220-228 | No errors exactly when every tag is a known name or a "Platonic Touch" exception. There are never more errors than tags |
| `LorebookGenerator.Truncate` | inference/processors/lorebook_generator.py:184-186 | At most 153 characters. Longer than 150 exactly when the input was. Then it is the first 150 characters plus "...", and otherwise the input unchanged |
| `LorebookGenerator.GetTagPreview` | inference/processors/lorebook_generator.py:169-196 | None exactly when the lookup fails. "No emotion responses defined" for an empty table. At most 153 characters |
| `LorebookGenerator.PreviewPrefersDefault` | inference/processors/lorebook_generator.py:178-186 | A non-empty "default" response is shown as "Tone: t. Action: a", truncated |
| `LorebookGenerator.PreviewFallsBackToFirst` | inference/processors/lorebook_generator.py:188-196 | With no non-empty "default", the first response is shown, prefixed by `[label]`, truncated |
| `LorebookGenerator.AlwaysInclude` | inference/processors/lorebook_generator.py:284-287 | Every chunk it keeps has a truthy `always_check` (or source "universal"), and every such chunk of the document is kept |
| `LorebookGenerator.AlwaysIncludeCounts` | inference/processors/lorebook_generator.py:284-288 | Each always-include chunk is kept as many times as the document holds it, duplicates included, so `min_tokens` and `always_include_count` count duplicates. No other chunk is kept |
| `LorebookGenerator.AlwaysIncludeAppend` | inference/processors/lorebook_generator.py:284-287 | The filter keeps document order: filtering a concatenation is filtering each part and concatenating |
| `LorebookGenerator.SliceTo` | inference/processors/lorebook_generator.py:296 | Python's `s[:n]` is a prefix of `s`, of length `min(n, len(s))` for non-negative `n` |
| `LorebookGenerator.EstimateRetrievalSize` | inference/processors/lorebook_generator.py:266-309 | The estimate is `EstimateOf`: min sums the always-include chunks, typical adds the top 5 others, max adds the top `max_chunks` others (7 when the caller passes none), and the count is the number of always-include chunks |
| `LorebookGenerator.NotAmong` | inference/processors/lorebook_generator.py:295 | A chunk is among the others exactly when it is in the sorted list and not equal to any always-include chunk. There are never more others than sorted chunks |
| `LorebookGenerator.OthersByValue` | inference/processors/lorebook_generator.py:295 | Filtering out chunks equal by value to an always-include chunk removes exactly the always-include chunks |
| `LorebookGenerator.OthersRanked` | inference/processors/lorebook_generator.py:290-295 | The others are the stable priority sort of the non-always chunks: highest priority first, a permutation of them, and ties keep document order |
| `LorebookGenerator.AlwaysAndOthersPartition` | inference/processors/lorebook_generator.py:283-295 | `always_include_count` plus the number of others is the chunk count |
| `LorebookGenerator.EstimateBounds` | inference/processors/lorebook_generator.py:288-302 | With non-negative tokens: min is at most typical and at most max. Typical is at most max when `max_chunks >= 5`, and max is at most typical when `0 <= max_chunks <= 5` |
| `PrioritySort.SortByPriority` | inference/processors/lorebook_generator.py:291 | The sort returns as many chunks as it is given |
| `PrioritySort.SortPermutes` | inference/processors/lorebook_generator.py:291 | The sort returns the same chunks, each as often |
| `PrioritySort.SortDescending` | inference/processors/lorebook_generator.py:291 | The sort orders by priority, highest first |
| `PrioritySort.SortStable` | inference/processors/lorebook_generator.py:291 | Chunks of equal priority keep their original order |
| `LorebookGenerator.GetLorebookSummary` | inference/processors/lorebook_generator.py:311-342 | Each category maps to its number of chunks (always positive), and absent categories have none. Total chunks is the chunk count. Tokens, tags, name, type, selection and version are taken from the document |

## Left out

- Retrieval (`LorebookRetriever`, with emotion fallback, rendering and ranking): inference/processors/lorebook_retriever.py is not part of this model.
- Template catalogue content: inference/processors/lorebook_templates.py is not part of this model. The library is the abstract `Library` value.
- `export_lorebook_json` and `import_lorebook_json`: thin wrappers over Python's `json` module, with no logic of their own.
- `get_available_tags`: a stub that returns `{}`.
- Logging calls: side effects only.
- inference/config.py and the ad hoc test scripts: environment and path configuration, and prompt assembly through components not part of this model.
- Chunks with any `source` other than "tag_matched" or "custom", or with no `source` at all (for example "universal", which inference/processors/lorebook_generator.py:286 tests for): the chunk type cannot hold them, so the "universal" test in `IsAlwaysInclude` never fires in the model.
- Documents with missing top-level keys: the `Lorebook` type always has every key. `get_lorebook_summary` and `estimate_retrieval_size` read such keys with `.get` defaults: `[]` for `chunks`, `{}` for `selected_tags`, `None` for the name and type, 0 for `total_tokens` and "unknown" for `version` (inference/processors/lorebook_generator.py:281, 321-341). `regenerate_lorebook` reads `chunks` with a `[]` default (line 145) but indexes `character_name` and `companion_type` directly (lines 151-152).
- Chunks with missing keys, such as a document built by hand from raw templates: the `Chunk` type always has `id`, `category`, `priority`, `tokens`, `triggers` and, for a custom chunk, `content`. So the model does not capture these paths of the source:
  - GetLorebookSummary: a chunk with no `category` is counted under "unknown" (inference/processors/lorebook_generator.py:326).
  - EstimateRetrievalSize: a chunk with no `tokens` or `priority` raises `KeyError` (inference/processors/lorebook_generator.py:288, 291, 297, 302).
  - Regenerate: a stored custom chunk with no `content` raises `KeyError('content')` (inference/processors/lorebook_generator.py:96, reached from 150-155), which its "never fails" contract does not cover. A stored custom chunk with no `id` gets a fresh `custom_<i>` id. A document without `character_name` or `companion_type` raises `KeyError` (inference/processors/lorebook_generator.py:151-152).
- GetLorebookSummary: the `categories` dict is a map, so its insertion order is not modelled.
- Trigger values are reduced to their truthiness, which is all the core inspects.
- Response records have only the keys `tone`, `action` and `tokens`. An extra key alone, which would make a "default" response truthy, is not represented.
- Extra keys of a custom entry are dropped by the source. The entry type has none to drop.
- Python's run-time type errors (for example a non-integer `tokens` in `sum`) are not modelled.
- Category keys of the selection are not required to be distinct, as a Python dict's are. No property depends on it.
- Emotion-response tables are not required to have distinct keys either. `Lookup` reads the first entry with a key, and no property depends on it.
