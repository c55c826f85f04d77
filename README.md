# Image-link macros for Foundry VTT, modelled in Dafny

The repository holds two Foundry VTT macros that walk the documents of a game
world (actors, items, scenes, tokens and so on) and the collections embedded in
them. Each macro reads the image-path properties listed for each document type
in a shared `property` table.

- **image-updater.js** rewrites image links to a preferred file format.
  - A link is eligible when it is non-empty and is not a game-system, module
    or Foundry asset, unless the matching option allows that.
  - An eligible link is split at its last dot into a base and an extension.
    Links with an excluded extension are skipped.
  - The preferred extensions listed *before* the current one are tried in
    order. The first candidate `base.ext` that the server has becomes the new
    link.
  - Each document with a rewritten path yields one update record: the new
    links and the document's `_id`.
  - Document types and embedded classes whose checkbox is off are not visited.
  - The writes themselves are disabled in the macro; only the batches are
    logged.
- **borken-links.js** collects every listed image path whose non-empty link
  fails a HEAD request. It then builds a report:
  - The findings are split into sections by document type and path.
  - Each section is a header followed by one row per finding.
  - Tokens are grouped into folders by base-actor name and link, with
    `groupBy`, and the groups are sorted by name.

The project has six modules:
- `Documents` (documents.dfy): the document tree, the `property` table and the
  error that reading a null embedded field raises.
- `ImageLinks` (image_links.dfy): the rewrite rule for one link.
- `ImageUpdater` (image_updater.dfy): `doDocUpdate`, `doColUpdate`,
  `doRename` and `checkBoxes`.
- `BrokenLinks` (broken_links.dfy): `findDoc`, `findColl` and `Find`.
- `Grouping` (grouping.dfy): `groupBy`.
- `Report` (report.dfy): `section`, `sectionGrouped`, the partition of the
  findings into sections, and the `content` the report is built into.

Modelling choices:
- **Methods and functions.** Each loop of the macros is a method proved
  against a specification function. The properties are lemmas about those
  functions.
- **Probe.** The HEAD request is the parameter `probe: string -> bool`:
  `true` when the server answers with an `ok` response, `false` when it answers
  with any other status. A request that is rejected outright is not
  modelled; see "Left out".
- **Errors.** A thrown `TypeError` is `Result.Failure(TypeError)`. It is
  raised in two cases:
  - A null or undefined embedded field is read. In the updater this happens
    only for ticked classes.
  - In the updater only, a document type is missing from the table. The
    collector uses `?? []` there and does not throw.
- **Host data.** Host-application lookups become plain data:
  - `getDocumentClass(...).metadata.embedded` becomes the list of embedded
    entries of a `Doc`.
  - `getProperty` becomes a map from path to string.
  - The world's collections become a map from document type to its documents.
- **The property table.** The traversals take any table as a parameter.
  `Documents.PropertyTable` copies the table both macros declare, entry for
  entry. Its names are distinct (`Documents.PropertyTableNamesDistinct`), as an
  object literal's keys are. For such a table, the first entry `Lookup` finds
  is the only one (`Documents.LookupDistinct`).

## Model

| member | source | states |
|---|---|---|
| `Documents.Value` | image-updater.js:51 | a missing property reads as the empty string, which both macros treat as falsy; a present one reads as itself |
| `Documents.KeysOf` | image-updater.js:97 | the table's type names, in declaration order |
| `Documents.Lookup` | image-updater.js:50 | `property[kind]` is defined exactly for listed types and is that type's path list |
| `Documents.PropertyTableNamesDistinct` | image-updater.js:18-32 | the `property` table declares 13 document types, no name twice |
| `Documents.LookupDistinct` | image-updater.js:50 | in a table whose names are distinct, looking up a listed name gives that name's own path list |
| `Documents.Members` | image-updater.js:41 | `embCol.map ? embCol : [embCol]` throws exactly on a null field, wraps a single document as a one-element collection and passes a collection through |
| `ImageLinks.LastIndexOf` | image-updater.js:57 | `lastIndexOf` is -1 exactly when the character is absent, else the last position holding it |
| `ImageLinks.ToUint32` | image-updater.js:57 | `>>> 0` keeps a value below 2^32 and maps -1 to 2^32-1 |
| `ImageLinks.SplitAtLastDot` | image-updater.js:57-59 | base, dot and ending rebuild the link and the ending has no dot; a link without a dot is all base with the empty ending |
| `ImageLinks.SplitCandidate` | image-updater.js:57-66 | a candidate `base.e` with a dot-free `e` splits back into exactly `base` and `e` |
| `ImageLinks.IndexOf` | image-updater.js:62 | `indexOf` is -1 exactly when absent, else the first position holding the value |
| `ImageLinks.ToTry` | image-updater.js:62-63 | the number of endings tried stops at the first occurrence of the current ending, so none of the tried endings equals it; when the ending is absent, all endings are tried |
| `ImageLinks.FirstExisting` | image-updater.js:65-71 | the first index in the range whose candidate the probe finds; when there is none, no candidate in the range is found |
| `ImageLinks.TryEndings` | image-updater.js:65-71 | the candidate loop with `break` yields the first found candidate among the endings to try, or nothing, as `FirstExisting` characterises |
| `ImageLinks.RewriteLink` | image-updater.js:52-72 | the eligibility test, the split, the exclude test and the candidate loop with `break` compute exactly `NewLink` |
| `ImageLinks.ProtectedLinksKept` | image-updater.js:52-55 | `systems/`, `modules/`, `ui/` and `icons/` links are never rewritten unless the matching option is set |
| `ImageLinks.ExcludedKept` | image-updater.js:52-60 | an empty link or a link whose ending is excluded is never rewritten |
| `ImageLinks.RewriteIsFirstExisting` | image-updater.js:57-72 | a link is rewritten to `l` iff it is eligible, its ending is not excluded and `l` is the first found candidate among the endings preferred over the current one |
| `ImageLinks.RewriteOnlyImproves` | image-updater.js:62-72 | a new link passes the probe and uses an ending strictly preferred over the current one; a link already on `endings[0]` is never changed |
| `ImageLinks.RewriteKeepsBase` | image-updater.js:57-66 | a new link has the old base and one of the preferred endings |
| `ImageLinks.RewriteIdempotent` | image-updater.js:57-72 | applying the rule to its own output changes nothing |
| `ImageUpdater.DocUpdate` | image-updater.js:36-80 | `doDocUpdate` visits the ticked embedded collections in metadata order, logs their batches, then collects its own changes; the result equals the specification `DocPlan` |
| `ImageUpdater.CollectChanges` | image-updater.js:49-74 | the `update` object built by `setProperty` over the listed paths equals `Changes` |
| `ImageUpdater.ColUpdate` | image-updater.js:83-85 | `doColUpdate` concatenates the documents' updates and logs in collection order, as `ColPlan` |
| `ImageUpdater.Rename` | image-updater.js:97-107 | `doRename` visits the ticked types of the table that have a world collection, in table order, as `RunLog` |
| `ImageUpdater.ChangesExact` | image-updater.js:50-72 | the collected changes are exactly the listed paths whose link the rule rewrites |
| `ImageUpdater.ChangesAreNewLinks` | image-updater.js:65-69 | each collected path maps to the rule's new link for its value |
| `ImageUpdater.OwnUpdateExact` | image-updater.js:48-79 | the document's own result throws only for an unlisted type, is `[]` exactly when no listed path is rewritten, and otherwise is one record with the document's id and exactly the rewritten paths |
| `ImageUpdater.DocPlanProbed` | image-updater.js:36-80 | every link in a document's returned updates and logged batches passes the probe, so no broken link is produced |
| `ImageUpdater.EntriesLogProbed` | image-updater.js:38-46 | every link logged for a document's embedded collections passes the probe |
| `ImageUpdater.ColPlanProbed` | image-updater.js:83-85 | every link a collection's updates and log carry passes the probe |
| `ImageUpdater.RunProbed` | image-updater.js:97-107 | every link a whole run logs passes the probe |
| `ImageUpdater.ColUpdatesFromDocs` | image-updater.js:75-85 | after `flat()` a collection yields no more updates than it has documents, each with a non-empty set of changes and the id of one of its documents |
| `ImageUpdater.UntickedClassesIgnored` | image-updater.js:38-39 | what unticked embedded classes hold, even null, does not change the outcome |
| `ImageUpdater.UntickedTypesIgnored` | image-updater.js:97-98 | the world collections of unticked types do not change the outcome |
| `ImageUpdater.CheckBoxes` | image-updater.js:112-119 | ceil(n/2) rows; row k pairs items 2k and 2k+1, and the last row of an odd list has no right cell |
| `ImageUpdater.CheckBoxesCoverNames` | image-updater.js:113-117 | read left to right and top to bottom, the rows hold every name exactly once, in order |
| `BrokenLinks.ListedPaths` | borken-links.js:35 | `property[kind] ?? []`: no paths for an unlisted type, the listed paths otherwise |
| `BrokenLinks.FindDoc` | borken-links.js:27-42 | `findDoc` searches the embedded collections in metadata order, then pushes its own findings, as `DocFindings` |
| `BrokenLinks.ProbeOwn` | borken-links.js:35-40 | the path loop appends exactly `OwnFindings` to `broken` |
| `BrokenLinks.FindColl` | borken-links.js:45-47 | `findColl` concatenates the documents' findings in collection order, as `CollFindings` |
| `BrokenLinks.Find` | borken-links.js:49-58 | `Find` concatenates the findings of the table's types that have a world collection, in table order, as `RunFindings` |
| `BrokenLinks.OwnFindingsExact` | borken-links.js:35-39 | a document's own findings are exactly its listed paths holding a non-empty link the probe rejects, each with that link |
| `BrokenLinks.OwnAllExact` | borken-links.js:35-39 | the same over a list of documents: a finding is reported iff its document is in the list and its path is listed for the document's type and broken |
| `BrokenLinks.DocFindingsByTree` | borken-links.js:27-47 | the search of a document is the own findings of its documents in post-order: the embedded documents before their owner, collections in order; it throws exactly on a tree with a null field |
| `BrokenLinks.EntriesFindingsByTree` | borken-links.js:29-32 | the same for a document's embedded collections |
| `BrokenLinks.CollFindingsByTree` | borken-links.js:45-47 | the same for a collection |
| `BrokenLinks.RunFindingsByTree` | borken-links.js:49-58 | the same for a whole run |
| `BrokenLinks.FindDocExact` | borken-links.js:27-47 | `findDoc` succeeds iff no visited embedded field is null; it then reports a finding iff its document is in the tree, its path is listed for its type, its link is non-empty and the probe rejects it |
| `BrokenLinks.RunExact` | borken-links.js:49-58 | the same for `Find` over the world collections |
| `BrokenLinks.UnlistedTypeSearchesEmbedded` | borken-links.js:29-35 | a document of an unlisted type reports nothing of its own, yet its embedded collections are searched |
| `BrokenLinks.TreeEndsWithRoot` | borken-links.js:29-41 | a document is visited after every document embedded in it |
| `Grouping.GroupBy` | borken-links.js:153-160 | the keys come in first-seen order, the map holds exactly those keys, and each group is the input's elements with that key, in input order |
| `Grouping.FilterExact` | borken-links.js:155-157 | an element is in the group of `k` iff it is an input element with key `k` |
| `Grouping.FirstSeenCovers` | borken-links.js:155-157 | a key is in the map iff some element has it |
| `Grouping.FilterAbsent` | borken-links.js:157 | a key no element has has an empty group |
| `Grouping.FilterNonEmpty` | borken-links.js:157 | every key in the map has a non-empty group |
| `Grouping.FirstSeenDistinct` | borken-links.js:154-158 | each key appears once |
| `Grouping.FirstSeenOrder` | borken-links.js:154-159 | keys appear in the order of their first elements |
| `Grouping.GroupsPartition` | borken-links.js:153-160 | the groups, read in key order, are a permutation of the input: every element is in exactly one group |
| `Grouping.SameGroupIffSameKey` | borken-links.js:156-157 | two elements share a group iff their keys are equal |
| `Grouping.ConcatPermutation` | borken-links.js:172 | reading the groups in any order of the same keys, such as after sorting, gives the same elements |
| `Report.ExactlyOneSection` | borken-links.js:186-201 | the seven section filters are disjoint and cover every finding |
| `Report.SelectExact` | borken-links.js:186-201 | a section holds exactly the findings its filter accepts |
| `Report.SelectCount` | borken-links.js:186-201 | a section holds each finding of its own as often as `broken` and no other finding |
| `Report.SectionsPartition` | borken-links.js:186-201 | together the sections are a permutation of `broken` |
| `Report.DocRows` | borken-links.js:149 | one `docLink` row per finding, in order |
| `Report.TokenRows` | borken-links.js:182 | one `tokenLink` row per token, in order, each with the same nested flag |
| `Report.OtherRows` | borken-links.js:205 | one leftover row per finding, in order |
| `Report.SectionRows` | borken-links.js:146-151 | `section` emits nothing for no findings, otherwise a header and one row per finding |
| `Report.SectionReportsAll` | borken-links.js:146-151 | a section's rows show exactly its findings, in order |
| `Report.LeftoverRows` | borken-links.js:201-208 | the leftover block is empty exactly when there is no leftover |
| `Report.LeftoverReportsAll` | borken-links.js:201-208 | the leftover rows show exactly the leftover findings, in order |
| `Report.TokenIds` | borken-links.js:177 | the folder lists the ids of its tokens, in order |
| `Report.GroupRows` | borken-links.js:173-182 | a folder row is emitted only for a group of more than one token, and its tokens are marked nested exactly then |
| `Report.GroupRowsReport` | borken-links.js:173-182 | a group's rows show exactly its tokens, in order |
| `Report.GroupsRowsReport` | borken-links.js:172-183 | the groups' rows show the groups' tokens in key order |
| `Report.Insert` | borken-links.js:172 | insertion adds exactly the one key |
| `Report.SortByName` | borken-links.js:172 | sorting permutes the keys |
| `Report.InsertSorted` | borken-links.js:172 | under a total order, insertion keeps the keys sorted by name |
| `Report.SortSorted` | borken-links.js:172 | under a total order, the sorted keys are in name order |
| `Report.GroupedRows` | borken-links.js:166-184 | `sectionGrouped` emits nothing for no tokens, otherwise starts with the header |
| `Report.GroupedReportsAll` | borken-links.js:166-184 | the grouped section shows every token finding exactly once |
| `Report.ReportShowsEachFindingOnce` | borken-links.js:186-208 | across all sections, the report shows each finding exactly as often as `broken` holds it |
| `Report.ReportBuilder.constructor` | borken-links.js:63-137 | `content` starts with the preamble |
| `Report.ReportBuilder.Section` | borken-links.js:146-151 | `section` appends exactly `SectionRows` to `content` |
| `Report.ReportBuilder.SectionGrouped` | borken-links.js:166-184 | `sectionGrouped` appends exactly `GroupedRows` to `content` |
| `Report.ReportBuilder.AppendGroup` | borken-links.js:173-182 | one loop step of `sectionGrouped` appends one group's rows |
| `Report.ReportBuilder.Render` | borken-links.js:186-208 | the section calls and the leftover block append exactly `ReportRows` to `content` |

## Left out

- The HEAD request, `fetch(..., {method: 'HEAD'})`. It is the parameter `probe`. Its asynchrony and the time it takes are not modelled.
- A rejected HEAD request, such as a network error. `(await fetch(...))?.ok` only guards against a null response, so a rejection propagates. It aborts `findDoc`, `Find` and the whole report (borken-links.js:37, 60), or `doDocUpdate` and `doRename` (image-updater.js:67). The total `probe` cannot express this: the model reads every request as answered.
- Batches logged before a run throws. When a run fails (`Failure`), the model keeps no log. In the macro, the batches of earlier types have already gone to the console (image-updater.js:103). Under `Promise.all`, sibling documents also keep running and logging after one of them rejects (image-updater.js:84).
- `Promise.all` parallelism. Results are joined in order, so the model is sequential. The order in which the updater's console batches would interleave under parallel runs is not modelled: the log is kept in depth-first order.
- The writes `updateEmbeddedDocuments` and `updateDocuments`. They are commented out in the updater; the model keeps the batches that the updater logs instead.
- The host lookups `getDocumentClass(...).metadata`, `game[...]`, `getProperty` and `setProperty`. They are replaced by document values, a map from type to world collection, and a path-to-string map.
  - The mapping from a type to its collection name is host data.
  - Nested paths are keys of the map: the object structure `setProperty` builds is not modelled.
- Dialogs, the `FilePicker`, the in-page script and CSS, and the dialog's `render` call. The HTML markup of rows is also left out: rows are records.
- Reading the form in `doRename`: `#endings` and `#exclude` are parsed with `match(/\S+/g)`, and the checkboxes are read. The options arrive as a `Params` value. A blank `#endings` field gives `null` and the macro would throw; the model takes a list.
- `JSON.stringify` and `JSON.parse` of group keys. Keys are compared structurally, which is what the encoding achieves for `{name, value}` records with defined fields.
- The base actor's name is the parameter `baseActorName`; the `baseActor.name` lookup is not modelled. In the macro, a token without `baseActor` makes `sectionGrouped` throw. A missing `baseActor.name` is dropped by `JSON.stringify`. The sort comparator then throws only if it is called with that key as `a`. With a single group the comparator is never called, and the folder shows "undefined".
- Which name a row shows (`doc.name`, `doc.parent.name`, or `name ?? id`) is recorded as an enumeration. The names are not looked up.
- `findColl`'s `?.map?.(...) ?? []` fallback. `findDoc` always passes an array, and `Find` passes only defined collections, so the fallback is never taken.
- Report.SortByName: only proves that the result is a permutation of the keys and that it is sorted under an abstract total order standing in for the locale-dependent `localeCompare`. The stability of `Array.prototype.sort` is not stated.
- ImageLinks.SplitAtLastDot: requires the link to be shorter than 2^32 characters. JavaScript strings are far shorter, and `>>> 0` only wraps -1 for them.
- ImageLinks.RewriteKeepsBase: requires dot-free endings. An ending such as `tar.gz` passes `\S+` but would split differently.
- ImageLinks.RewriteIdempotent: requires dot-free endings, for the same reason.
- The report's `</table>` is appended only together with the leftover section. With no leftover the table is left unclosed. The model keeps this as it is (`TableEnd`).
