# Recce core logic in Dafny

This project models the deterministic logic of recce, a data-change review
tool for dbt projects, and of its predecessor command line `piti`:

- the lineage view's interactive session (select modes `detail`, `action`
  and `action_result`, view modes `all` and `changed_models`, the context
  menu, the node filter and the "No change detected" screen);
- the query-result grid (pinned columns first, column keys, row numbers
  stamped in place, the pin and unpin handlers);
- the schema summary's filter of modified nodes with schema changes;
- the schema view's missing-catalog and missing-schema warnings;
- the profile-diff view's primary key and pinned-column options;
- `piti analyze`'s five-way impact status and the `inspect` and `diff`
  defaults;
- the state file's version gate, the state loader, the export dispatch and
  the S3 bucket and key strings;
- `find_resource_by_name` over a dbt manifest;
- the home page's tab index and URL hash.

Helpers whose source is not part of this model are function-valued
parameters. Nothing is assumed of them beyond giving the same result for
the same arguments; where their results can be absent (a `piti`
inspector that returns `None`, a lookup that finds nothing), the model
carries that absence. These are:

- the lineage library's selection, traversal, highlight and conversion
  functions;
- `mergeKeysWithStatus`;
- the schema grid's `mergeColumns`/`toDataGrid`;
- `toDataDiffGrid`;
- `piti.dbt`'s lookup and `get_inspector`;
- the state-file reader.

Modules, one per source file plus shared helpers:

- `Wrappers` (`Option`, `Result`);
- `Seqs` (an order-keeping filter and its multiset lemmas);
- `Text` (decimal rendering, `startswith`, Python `str.replace`, `split(".")[0]`, ASCII lower case, `str()` of an optional value);
- `LineageTypes`;
- `LineageView`;
- `QueryResultView`;
- `SchemaSummary`;
- `SchemaView`;
- `ProfileDiffResultView`;
- `PitiCli`;
- `RecceState`;
- `RecceDbt`;
- `AppPage`.

Where the source changes state step by step, the model is imperative:

- The lineage session, the state loader and the home page are classes
  whose methods state their whole new state.
- `toDataGrid` is a method over an array of rows.
- `listChangedNodes`, `analyze` and `find_resource_by_name` are loops
  proved against specification functions.

## Model

| member | source | states |
|---|---|---|
| LineageTypes.Lookup | js/src/components/summary/SchemaSummary.tsx:67 | `nodes[id]` finds a node exactly when some entry has that key, and the node found is stored under it |
| LineageView.ScreenFor | js/src/components/lineage/LineageView.tsx:343-426 | spinner iff loading; error screen iff not loading and the error is truthy; "No change detected" iff neither and the view mode is changed-models with an undefined or empty modified set |
| LineageView.ReplaceNodeData | js/src/components/lineage/LineageView.tsx:327-336 | same length and order; every entry keeps id and type; only the entry whose id matches gets the new data |
| LineageView.ReplaceNodeDataIdempotent | js/src/components/lineage/LineageView.tsx:324-341 | reporting the same node twice equals reporting it once |
| LineageView.ReplaceNodeDataAbsent | js/src/components/lineage/LineageView.tsx:324-341 | a report about an id not displayed leaves the nodes unchanged |
| LineageView.FilterGraph | js/src/components/lineage/LineageView.tsx:242-249 | with a filter function, the nodes are the order-keeping filter of the entries by the predicate, so an entry stays iff it was there and is accepted; edges untouched; without one the graph is unchanged |
| LineageView.FilterGraphIdempotent | js/src/components/lineage/LineageView.tsx:242-249 | filtering twice equals filtering once |
| LineageView.Session.constructor | js/src/components/lineage/LineageView.tsx:214-229 | starts in detail mode with nothing selected or loaded, view mode defaulting to changed models, interactive unless explicitly false; the session invariant holds |
| LineageView.Session.Rebuild | js/src/components/lineage/LineageView.tsx:231-261 | no graph sets: nothing changes; otherwise the changed or full graph (by view mode), filtered, converted and stored with the modified set; invariant kept |
| LineageView.Session.CloseContextMenu | js/src/components/lineage/LineageView.tsx:386-389 | hides the menu and forgets its node and position; nothing else changes |
| LineageView.Session.OnNodeClick | js/src/components/lineage/LineageView.tsx:302-322 | non-interactive: no change; detail or action-result mode: closes the menu, shows the node in the detail view and single-selects it; action mode: closes the menu and toggles the node only |
| LineageView.Session.OnNodeContextMenu | js/src/components/lineage/LineageView.tsx:391-404 | outside action mode nothing changes; in action mode the menu opens at the pointer on that node |
| LineageView.Session.SelectParentNodes | js/src/components/lineage/LineageView.tsx:356-369 | no-op unless action mode, a menu node and a loaded graph; then selects the upstream ids of that node and changes nothing else |
| LineageView.Session.SelectChildNodes | js/src/components/lineage/LineageView.tsx:371-384 | the downstream counterpart, under the same guard |
| LineageView.Session.OnNodeMouseEnter | js/src/components/lineage/LineageView.tsx:263-276 | with a graph and a modified set, nodes and edges become the highlight for the hovered id; otherwise no change |
| LineageView.Session.OnNodeMouseLeave | js/src/components/lineage/LineageView.tsx:278-290 | the same with no focused node |
| LineageView.Session.HandleActionNodeUpdated | js/src/components/lineage/LineageView.tsx:324-341 | only the node list changes, by the data replacement |
| LineageView.Session.SelectModels | js/src/components/lineage/LineageView.tsx:496-514 | enabled only in detail mode: enters action mode, clears and hides the detail selection, cleans the nodes for selection |
| LineageView.Session.CloseSelector | js/src/components/lineage/LineageView.tsx:542-549 | returns to detail mode, clears the detail selection and the node selection |
| LineageView.Session.ActionStarted | js/src/components/lineage/LineageView.tsx:550-552 | moves to action-result mode and changes nothing else |
| LineageView.Session.AddCheckFinished | js/src/components/lineage/LineageView.tsx:516-520 | returns to detail mode and changes nothing else |
| LineageView.Session.SwitchViewMode | js/src/components/lineage/LineageView.tsx:458-468 | flips all and changed models and cleans the node selection; the re-layout the view-mode change triggers is the separate `Rebuild` |
| LineageView.Session.ShowAllNodes | js/src/components/lineage/LineageView.tsx:410-426 | from the no-change screen, switches to all nodes, which leaves that screen |
| LineageView.Session.CloseNodeView | js/src/components/lineage/LineageView.tsx:561-569 | clears the detail selection and cleans the node selection |
| LineageView.Session.CloseNodeRunView | js/src/components/lineage/LineageView.tsx:573-580 | clears the detail selection; node selection kept |
| Text.DecimalString | js/src/components/query/QueryResultView.tsx:66 | `String(key)` of a natural is a non-empty string of digits |
| Text.DecimalStringInjective | js/src/components/query/QueryResultView.tsx:66 | distinct indices give distinct keys |
| QueryResultView.FindIndex | js/src/components/query/QueryResultView.tsx:80 | the first position holding the name, or -1 when no column has it |
| QueryResultView.FindIndexFound | js/src/components/query/QueryResultView.tsx:80-83 | a pinned name is found iff it is a column name |
| QueryResultView.PinnedColumns | js/src/components/query/QueryResultView.tsx:79-86 | every pinned-pass column is a pinned name keyed by its first position in the frame |
| QueryResultView.PinnedColumnsNames | js/src/components/query/QueryResultView.tsx:79-86 | the pinned pass emits exactly the pinned names present in the frame, in pin order |
| QueryResultView.UnpinnedColumns | js/src/components/query/QueryResultView.tsx:88-94 | every second-pass column is an unpinned column keyed by its own position, positions increasing |
| QueryResultView.UnpinnedColumnsNames | js/src/components/query/QueryResultView.tsx:88-94 | the second pass emits every unpinned column name once, in frame order |
| QueryResultView.GridColumnsLayout | js/src/components/query/QueryResultView.tsx:72-94 | `_index` first, then the present pins in pin order, then the unpinned columns in frame order |
| QueryResultView.PinnedPresentCount | js/src/components/query/QueryResultView.tsx:79-94 | with distinct names and pins, the present pins are the pinned frame columns as a multiset |
| QueryResultView.GridColumnsPermutation | js/src/components/query/QueryResultView.tsx:79-94 | with distinct names and pins, the columns after `_index` are a permutation of the frame's columns |
| QueryResultView.GridKeysDistinct | js/src/components/query/QueryResultView.tsx:65-94 | with distinct pins, no two grid columns share a key |
| QueryResultView.ToDataGrid | js/src/components/query/QueryResultView.tsx:62-102 | the columns are the layout above; the rows are the frame's own array, row i stamped `_index = i + 1` and otherwise unchanged |
| QueryResultView.NumberRows | js/src/components/query/QueryResultView.tsx:96-99 | each row is stamped with its 1-based number in place |
| QueryResultView.GridData | js/src/components/query/QueryResultView.tsx:116-138 | no columns ("No data") iff the data frame is missing; otherwise the grid of `toDataGrid` |
| QueryResultView.Pin | js/src/components/query/QueryResultView.tsx:41-45 | the name is appended after the unchanged pins |
| QueryResultView.Unpin | js/src/components/query/QueryResultView.tsx:35-39 | every occurrence of the name is gone; every other name keeps its count |
| QueryResultView.UnpinKeepsOrder | js/src/components/query/QueryResultView.tsx:35-39 | unpinning distributes over concatenation, so the rest keeps its order |
| QueryResultView.UnpinAfterPin | js/src/components/query/QueryResultView.tsx:35-45 | pinning then unpinning a name equals unpinning it |
| QueryResultView.HeaderClick | js/src/components/query/QueryResultView.tsx:33-56 | a click toggles whether the column is pinned and keeps every other column's pins as they were |
| QueryResultView.HeaderClickTwice | js/src/components/query/QueryResultView.tsx:33-56 | two clicks on an unpinned column's icon restore the pin list |
| QueryResultView.HeaderClickDistinct | js/src/components/query/QueryResultView.tsx:33-56 | the pin and unpin handlers keep a pin list free of repeats |
| Seqs.FilterMembership | js/src/components/query/QueryResultView.tsx:36 | an element survives a filter iff it was present and passes the test |
| SchemaSummary.ColumnKeys | js/src/components/summary/SchemaSummary.tsx:68 | an absent side or schema gives no keys; otherwise the column names in order |
| SchemaSummary.ListChangedNodes | js/src/components/summary/SchemaSummary.tsx:63-76 | raises iff some modified id has no node; otherwise the nodes of the modified ids, in order, whose merged keys carry a status |
| SchemaSummary.ChangedNodesMembership | js/src/components/summary/SchemaSummary.tsx:66-73 | a node is listed iff it is the node of some modified id and its schema changed |
| SchemaSummary.ChangedNodesConcat | js/src/components/summary/SchemaSummary.tsx:63-76 | listing a modified set split in two lists the first part's nodes, then the second's |
| SchemaSummary.ChangedNodesLength | js/src/components/summary/SchemaSummary.tsx:63-76 | at most one listed node per modified id |
| SchemaSummary.NoSchemaChanges | js/src/components/summary/SchemaSummary.tsx:94-96 | the empty-state text shows iff no modified node has a schema change |
| SchemaSummary.NoColumnsNoChange | js/src/components/summary/SchemaSummary.tsx:68-69 | a node without columns on either side is not listed when merging two empty key lists reports nothing |
| SchemaSummary.SummaryBodyFor | js/src/components/summary/SchemaSummary.tsx:94-111 | the empty-state text iff no node; otherwise one card per node keyed by id and titled by name |
| SchemaView.Choose | js/src/components/schema/SchemaView.tsx:28-49 | no message iff neither side misses; the both, base or current text by which sides miss |
| SchemaView.CatalogMessageReportsSides | js/src/components/schema/SchemaView.tsx:26-36 | the catalog warning names exactly the environments whose catalog flag is `false` |
| SchemaView.SchemaMessageReportsSides | js/src/components/schema/SchemaView.tsx:38-49 | the schema warning names exactly the present sides without columns |
| SchemaView.View | js/src/components/schema/SchemaView.tsx:51-84 | a catalog warning wins over a schema warning; the grid shows iff the merged grid has rows |
| SchemaView.NoWarning | js/src/components/schema/SchemaView.tsx:26-65 | no alert iff no catalog flag is `false` and no present side lacks columns |
| SchemaView.CatalogWarningFirst | js/src/components/schema/SchemaView.tsx:53-65 | a missing catalog always shows a catalog warning |
| ProfileDiffResultView.PinnedColumnsOf | js/src/components/profile/ProfileDiffResultView.tsx:20-23 | the pinned columns of the options, `[]` when options or the field are absent |
| ProfileDiffResultView.FindField | js/src/components/profile/ProfileDiffResultView.tsx:25-27 | the first field whose lower-cased name is "column_name", or none |
| ProfileDiffResultView.PrimaryKey | js/src/components/profile/ProfileDiffResultView.tsx:25-28 | the key always lower-cases to "column_name", and is exactly "column_name" when the result or its current side is absent |
| ProfileDiffResultView.PrimaryKeyChoice | js/src/components/profile/ProfileDiffResultView.tsx:25-28 | the key is the first matching current field's name, or "column_name" when none matches |
| ProfileDiffResultView.WithPinnedColumns | js/src/components/profile/ProfileDiffResultView.tsx:31-37 | the update sets the pinned columns and keeps every other option |
| ProfileDiffResultView.WritebackStable | js/src/components/profile/ProfileDiffResultView.tsx:20-37 | writing back the pins read leaves the options unchanged |
| ProfileDiffResultView.View | js/src/components/profile/ProfileDiffResultView.tsx:40-49 | "No data" iff the diff grid has no columns; the grid gets `[primaryKey]` and the pins |
| ProfileDiffResultView.GridKeyedByColumnName | js/src/components/profile/ProfileDiffResultView.tsx:40-44 | exactly one primary key, lower-casing to "column_name" |
| Text.AsciiLower | js/src/components/profile/ProfileDiffResultView.tsx:26 | lower case, letter by letter, length kept |
| PitiCli.Classify | piti/cli.py:90-99 | `?` iff both absent, `+` iff only before absent, `-` iff only after absent, `=` iff both present and equal, `!` iff both present and different |
| PitiCli.ClassifyMirror | piti/cli.py:90-99 | swapping the states swaps added and removed and keeps the rest |
| PitiCli.SymbolInjective | piti/cli.py:90-99 | distinct statuses print distinct symbols |
| PitiCli.Inspect | piti/cli.py:87-88 | an absent resource has no text |
| PitiCli.ImpactLineAsWritten | piti/cli.py:83-99 | as written, raises iff the resource is missing from the current manifest |
| PitiCli.AsWrittenNeverUnknownOrRemoved | piti/cli.py:83-95 | as written, when the inspector returns text for the current resource, no printed line starts with `?` or `-` |
| PitiCli.AsWrittenRemovedResourceRaises | piti/cli.py:83-95 | a resource only in base raises as written; when its inspector returns text, the corrected line is `- name` |
| PitiCli.ImpactLine | piti/cli.py:79-99 | `? name` when neither side exists; with only the current side, `+ name` if its inspector returns text and `? name` if not; with only the base side, `- name` or `? name` alike |
| PitiCli.ImpactLineAgrees | piti/cli.py:83-99 | wherever the written code prints, the corrected line is the same |
| PitiCli.ImpactLineUnchanged | piti/cli.py:96-97 | with both sides present the status is `=` iff the inspector returns text for both and the texts agree |
| PitiCli.AnalyzeAsWritten | piti/cli.py:77-99 | the loop as written: raises iff some impact's resource is missing from the current manifest, at the first such impact; the lines before it are the written lines, which equal the corrected ones |
| PitiCli.Analyze | piti/cli.py:77-99 | the corrected loop: one line per impact in file order, no `impacts` key prints nothing; where every resource is in the current manifest, the lines are those the written loop prints |
| PitiCli.InspectCommand | piti/cli.py:30-38 | not found iff the lookup fails, with "resource not found: <name>" and 0; otherwise the `str()` of the inspector's output, "None" when it returns nothing |
| PitiCli.DiffTextsAsWritten | piti/cli.py:58-63 | as written, raises iff the resource is missing from the current manifest |
| PitiCli.AsWrittenDiffRemovedRaises | piti/cli.py:58-63 | a resource only in base raises as written; corrected, it compares its base text with `''` |
| PitiCli.DiffTexts | piti/cli.py:58-64 | an absent side's text is `''`; a present side's is what the inspector returns, chosen by the type of the current resource, or of the base one when there is no current one |
| PitiCli.DiffTextsAgree | piti/cli.py:58-64 | wherever the written code compares, the corrected texts are the same |
| PitiCli.DiffMatchesAnalyze | piti/cli.py:58-99 | with both sides present, `diff` compares the same texts whose equality, with text present, `analyze` reports as `=` |
| RecceState.FromJson | recce/state.py:96-107 | accepted iff there is no metadata or its version is "v0", unchanged; otherwise "Unsupported state file version: <version>" |
| RecceState.FromJsonIdempotent | recce/state.py:99-107 | an accepted state is accepted again unchanged |
| RecceState.PydanticMajor | recce/state.py:24-25 | a dot-free prefix of the version |
| Text.BeforeFirstDot | recce/state.py:25 | the longest dot-free prefix |
| Text.BeforeFirstDotOfDotted | recce/state.py:25 | the head of a dotted version is the part before the dot |
| RecceState.UsesV1ApiIff | recce/state.py:24-30 | the 1.x API iff the version is "1" or starts "1." |
| Text.RemoveAllAbsent | recce/state.py:248 | `replace` of a pattern that does not occur changes nothing |
| RecceState.S3BucketName | recce/state.py:248 | never longer than the host; a host without "s3://" is kept as it is |
| RecceState.S3BucketNameOfUrl | recce/state.py:248 | the host "s3://" + bucket gives the bucket |
| RecceState.S3BucketKey | recce/state.py:249 | the key starts "github/" and ends "/recce-state.json" |
| Text.IntString | recce/state.py:249 | an integer id renders without a `/` |
| RecceState.S3BucketKeyInjective | recce/state.py:249 | two ids of one repository with the same key render alike |
| RecceState.ExportTargetFor | recce/state.py:196-215 | the state file iff not in cloud mode; S3 iff cloud mode and the host starts "s3://", with the bucket and key strings |
| RecceState.NoHostMeansRecceCloud | recce/state.py:212-215 | a missing host counts as `''` and goes to Recce Cloud |
| RecceState.ExportMessage | recce/state.py:253-269 | a modelled message iff the target is S3 or a state file with a non-empty path; "The state file is stored at [<path>]" for the file, a message starting "The state file is uploaded to ' s3://" for S3; none for a missing or empty path, where `open` raises |
| RecceState.S3MessageNamesHost | recce/state.py:246-253 | for a host "s3://" + bucket, the S3 message names that host, then "/" and the key |
| RecceState.LoadedState | recce/state.py:185-194 | a loaded state exists only outside cloud mode and with a state file, is what the reader parsed from that file and passes the version gate |
| RecceState.RecceStateLoader.constructor | recce/state.py:145-160 | stores the options (`cloud_options or {}`), no messages, and the loaded state |
| RecceState.RecceStateLoader.Verify | recce/state.py:164-173 | false iff not cloud mode, review mode and no state file; then both messages are set, otherwise untouched |
| RecceState.RecceStateLoader.IsLoaded | recce/state.py:179-180 | the loader is truthy exactly when it holds a state |
| RecceState.RecceStateLoader.Update | recce/state.py:182-183 | replaces the state, making the loader truthy, and nothing else |
| RecceState.RecceStateLoader.Export | recce/state.py:196-203 | a given state replaces the current one first, making the loader truthy; the target is the dispatch above and the message is that target's |
| RecceDbt.FindResourceByName | recce/dbt.py:65-73 | `base is False` searches the current manifest, anything else the base one; none iff no node has the name, so always none for an absent name; otherwise the first such node |
| RecceDbt.FirstNamedUnique | recce/dbt.py:69-71 | the first node with a name is unique |
| RecceDbt.FirstNamedStable | recce/dbt.py:69-71 | nodes after the first match do not change the result |
| AppPage.HashForTab | js/app/page.tsx:63-70 | a hash exactly for tabs 0, 1 and 2 |
| AppPage.TabForHash | js/app/page.tsx:80-88 | always one of the three tabs |
| AppPage.TabHashRoundTrip | js/app/page.tsx:63-88 | the hash of tab i leads back to tab i |
| AppPage.HashTabRoundTrip | js/app/page.tsx:63-88 | a hash leads back to itself iff it is lineage, query or checks |
| AppPage.TabsChanged | js/app/page.tsx:63-72 | the tab index is set; the location hash only for a known tab |
| AppPage.EffectRan | js/app/page.tsx:74-89 | the location hash is stored; the tab follows it only when it equals the stored one |
| AppPage.TabChangeSettles | js/app/page.tsx:63-89 | after a change to a known tab, if the effect then runs twice, that tab and its hash stay, and further runs change nothing |
| AppPage.Home.constructor | js/app/page.tsx:46-47 | the first tab, with the stored hash equal to the location hash |
| AppPage.Home.HandleTabsChange | js/app/page.tsx:63-72 | the new state is the tab change above |
| AppPage.Home.SyncFromLocation | js/app/page.tsx:74-89 | the new state is one effect run |

## Left out

- Rendering and layout: the dagre layout, centring and zoom, Chakra and ReactFlow markup, legends and colours. They draw the state and do not change it.
- Screenshot, clipboard, toast and image-modal plumbing, and the `refetchRunsAggregated` call on closing the selector. These are browser side effects with no modelled state.
- React Query fetches: the row count on the schema-diff card, including its enable flag for `model` resources, and the lineage graph loading. Loading state and errors enter the model only as inputs to `LineageView.ScreenFor`.
- Amplitude initialisation and the cookie regex on the home page. These are analytics side effects.
- The lineage library's selection, traversal, highlight and conversion functions. Also `mergeKeysWithStatus`, the schema grid helpers and `toDataDiffGrid`. Their source is not part of this model, so they are parameters.
- File, network and cloud I/O in the state module: reading and writing files, `requests`, `boto3`, temporary files, logging, timing. JSON and pydantic parsing are taken as given, as a reader parameter and a parsed `State`.
- RecceState.RecceStateLoader.Export: returns where the state goes and the file or S3 message, not Recce Cloud's message. A file export without a usable path, which raises in the source, gives no message. The model does not tell that raise apart from a Recce Cloud export, whose message is not modelled. It does not model the exception raised when there is no state to write. It does not model Recce Cloud's HTTP failure paths.
- `DBTContext.load`: dbt invocation and manifest and catalog reads.
- `piti inspect --sql` and `piti diff --sql`. They call `inspect_sql` and the data-frame differ, which are not part of this model. The text differ's output is also left out: `diff` is modelled up to the two texts it compares.
- The YAML load in `piti analyze`. Impacts arrive already parsed, and a file without an `impacts` key is `None`.
- `recce/apis/run_api.py`: an asynchronous request handler over an executor that is not part of this model.
- `js/src/lib/api/profile.ts`: type declarations and a network call. It declares `pinned_columns`, while the profile view reads and writes `pinnedColumns`. The model follows the view.
- ProfileDiffResultView.PrimaryKey: `toLowerCase` is modelled for ASCII letters only, without Unicode case mapping.
- The query-result view's own pin-change callback to the view options is not modelled. `toDataGrid` receives the pins.
- QueryResultView.ToDataGrid: the rows are map values in the array's slots. Aliasing of row objects shared between slots is not modelled.
- SchemaSummary.ListChangedNodes: a modified id without a node is the `None` result, standing for the exception the source raises. The source itself does not check this.

## Findings

| source | as written | input that shows it | evidently intended | confidence | as-written member | corrected member |
|---|---|---|---|---|---|---|
| piti/cli.py:83-95 | `analyze` picks the inspector by `node.resource_type` before checking whether `node` is `None` | an impact whose `resource_name` exists only in the base manifest, or in neither | print `- name` (or `? name`) | not executed | PitiCli.AsWrittenRemovedResourceRaises | PitiCli.ImpactLine |
| piti/cli.py:58-63 | `diff` picks the inspector by `node.resource_type` before the `node is not None` check | a `resource_name` that exists only in the base manifest | diff the base text against `''` | not executed | PitiCli.AsWrittenDiffRemovedRaises | PitiCli.DiffTexts |
