# Decision rules of the LLM graph builder's front end

This project models, in Dafny, the decision rules and list operations of three front-end
components of the LLM graph builder. The graph-inspection dialog, the file table and the
graph-settings dialog are all React components. The model leaves out the rendering and keeps
the logic that decides what the user sees.

- **GraphView** (`graph_view_modal.dfy`) covers the graph-type checkboxes (Document, Entities,
  Chunks). The selection starts as `[Entities]`. Toggling a type copies the array, then pushes
  the type or splices it out. A checkbox is disabled while its type is the only one ticked. A
  chain of conditionals picks one of seven query keys from the selection. The dialog's status
  becomes `danger` on an empty result or an error, and `unknown` again when the dialog or the
  banner is closed. A nested loop builds the colour scheme from the label lists of the returned
  nodes. A label list is an array, and as an object key it becomes its comma-joined text. Its
  colour is computed from its first label, and the first occurrence of a key wins.
- **FileTable** (`file_table.dfy`) covers the backend's source nodes and how they become table
  rows. Items without a name are skipped. Missing fields get defaults through `??`. Placeholder
  URLs are cleared. A nested conditional decides whether the real status is shown or replaced by
  `N/A`. The fetch has a success path and an error path, and the table keeps state for both. The
  file also covers the column rules: the status filter, the row id, the page size, the
  upload-progress cell and the name tooltip.
- **Settings** (`setting_modal.dfy`) covers the dropdown options. The first twenty node labels
  and the first twenty relationship types become options whose value and label are the same
  string. The file also covers the "Use Existing Schema" checkbox and the two dropdown handlers.
- **Types** (`types.dfy`) holds the row and option records. It also holds `Nullable`, which
  keeps JavaScript's `null` and `undefined` apart. `===` tells them apart, while `==` and `??`
  treat them alike.

Each rule that the source writes as a nested conditional is modelled as written. A second,
independent definition states what the rule means, and a lemma proves the two agree:

- `QueryFor` is checked against the table `QueryForTicked`.
- `DisplayedStatus` is checked against the four reasons in `StatusVisible`.
- The `indexOf`/`splice` toggle is checked against `RemoveFirst`.
- The row loop is checked against the positions of the named items.

Each loop is a method that is proved against a function over its inputs.

Several inputs are parameters of the model because they come from outside the components. These
are the responses of the backend and the database, the access key from local storage, the
selected LLM model, the word-colour function and whether a database driver exists. When no
driver exists, the dialog still marks itself as loading and runs no query, so it stays loading.

## Model

| member | source | states |
|---|---|---|
| `GraphView.IndexOf` | frontend/src/components/GraphViewModal.tsx:44 | `indexOf`: -1 exactly when the type is absent; otherwise a position holding it with no earlier occurrence |
| `GraphView.SpliceIsRemoveFirst` | frontend/src/components/GraphViewModal.tsx:44-49 | splicing one element out at `indexOf` removes the first occurrence |
| `GraphView.ToggleSpec` | frontend/src/components/GraphViewModal.tsx:43-50 | an absent type is appended with the rest unchanged; a present one loses exactly its first occurrence, the others keep their order, and the multiset loses one copy |
| `GraphView.ToggleKeepsNoDuplicates` | frontend/src/components/GraphViewModal.tsx:43-52 | toggling keeps the selection duplicate-free and flips the membership of exactly the toggled type |
| `GraphView.ToggleTwiceRestores` | frontend/src/components/GraphViewModal.tsx:43-50 | ticking an unticked type and then unticking it restores the selection |
| `GraphView.GraphViewModal.HandleCheckboxChange` | frontend/src/components/GraphViewModal.tsx:43-52 | copy, then push or splice: the new selection is the toggled old one |
| `GraphView.CheckboxDisabled` | frontend/src/components/GraphViewModal.tsx:169-181 | a checkbox is disabled exactly when its type is ticked and is the only type ticked |
| `GraphView.Click` | frontend/src/components/GraphViewModal.tsx:166-183 | a click on a disabled checkbox leaves the selection as it is; a click on an enabled one toggles its type |
| `GraphView.ClickKeepsValid` | frontend/src/components/GraphViewModal.tsx:166-183 | with the checkbox of a lone ticked type disabled, a click keeps the selection non-empty and duplicate-free |
| `GraphView.GraphViewModal.ClickCheckbox` | frontend/src/components/GraphViewModal.tsx:166-183 | a click toggles unless the checkbox is disabled, and keeps the dialog's invariant (non-empty, no duplicates) |
| `GraphView.ReachableSelectionValid` | frontend/src/components/GraphViewModal.tsx:166-183 | starting from `['Entities']`, every series of clicks leaves the selection non-empty and duplicate-free |
| `GraphView.GraphViewModal.constructor` | frontend/src/components/GraphViewModal.tsx:35-39 | starts with `['Entities']`, document number '3', not loading, status unknown, empty message |
| `GraphView.SelectionSize` | frontend/src/components/GraphViewModal.tsx:76-88 | a duplicate-free selection has at most three entries, exactly three iff all types are ticked, and one when a single type is ticked |
| `GraphView.QueryFor` | frontend/src/components/GraphViewModal.tsx:75-88 | the chain in its own order of tests: three entries give DocChunkEntities; then Entities with Chunks, Entities with Document, Document with Chunks, Entities alone and Chunks alone; Document otherwise. `QueryForMatchesTable` checks it against the table |
| `GraphView.QueryForMatchesTable` | frontend/src/components/GraphViewModal.tsx:75-88 | on duplicate-free selections the conditional chain gives: all three, DocChunkEntities; Entities+Chunks, ChunksEntities; Entities+Document, DocEntities; Document+Chunks, DocChunks; Entities alone, Entities; Chunks alone, Chunks; otherwise Document |
| `GraphView.SchemeKey` | frontend/src/components/GraphViewModal.tsx:112 | a label list used as an object key is its labels joined by commas, so the empty list is the key '' |
| `GraphView.FoldAppend` | frontend/src/components/GraphViewModal.tsx:109-116 | visiting the label lists of two records in turn is the same as visiting their concatenation |
| `GraphView.FoldKeys` | frontend/src/components/GraphViewModal.tsx:111-116 | visiting label lists adds exactly their keys to the scheme |
| `GraphView.FoldKeeps` | frontend/src/components/GraphViewModal.tsx:112-113 | a key already in the scheme keeps its colour: the test `== undefined` skips it |
| `GraphView.VisitLabelList` | frontend/src/components/GraphViewModal.tsx:111-115 | one inner step: an unseen key gets the colour of the list's first label and the counter goes up by one; a seen key changes nothing; the counter stays the number of keys |
| `GraphView.AddLabelLists` | frontend/src/components/GraphViewModal.tsx:110-116 | the inner `forEach` visits one record's label lists in order, and the counter stays the number of keys |
| `GraphView.SchemeKeys` | frontend/src/components/GraphViewModal.tsx:106-117 | the scheme has one key per distinct label list seen, and no other key |
| `GraphView.SchemeFirstOccurrence` | frontend/src/components/GraphViewModal.tsx:109-116 | a key's colour is the colour of the first label list that has that key |
| `GraphView.BuildColorScheme` | frontend/src/components/GraphViewModal.tsx:106-117 | the nested loop yields the first-occurrence scheme over all records' label lists, its keys are exactly the distinct keys, and the counter equals the number of keys |
| `GraphView.GraphViewModal.StartQuery` | frontend/src/components/GraphViewModal.tsx:72-97 | when open: loading is set, and with a driver the query for the selection is run (graph query with the document number in the graph view, document query otherwise); when closed nothing happens |
| `GraphView.GraphViewModal.QuerySettled` | frontend/src/components/GraphViewModal.tsx:98-130 | loading ends; records build the colour scheme and keep the status; no records give danger with 'Unable to retrieve document graph for ' + name; a query error, or an exception thrown while the records are read, gives danger with its message |
| `GraphView.GraphViewModal.Close` | frontend/src/components/GraphViewModal.tsx:143-147 | closing sets status unknown, the message to '' and hides the dialog |
| `GraphView.GraphViewModal.DismissBanner` | frontend/src/components/GraphViewModal.tsx:214 | closing the banner sets status unknown |
| `FileTable.HasName` | frontend/src/components/FileTable.tsx:221 | an item becomes a row only when its file name is neither null nor undefined and is non-empty |
| `FileTable.DisplayedStatus` | frontend/src/components/FileTable.tsx:229-240 | the status chain, test by test: an S3 file whose access key equals the stored one (`===`), a local file, Completed or Failed, then Wikipedia, YouTube or a GCS bucket show the status; anything else shows 'N/A'. `ToRow` checks it against the order-free reasons |
| `FileTable.SourceUrl` | frontend/src/components/FileTable.tsx:243 | the url is kept unless it is 'None' or '', which both become '' |
| `FileTable.ToRow` | frontend/src/components/FileTable.tsx:222-249 | name from the item; size, node count, relationship count and upload progress default to 0; processing, file source and type default to 'None' (type is otherwise upper-cased); model defaults to the chosen model; url 'None' or '' becomes ''; the status is shown iff the file is local, an S3 file with the stored access key, Completed or Failed, or from Wikipedia, YouTube or a GCS bucket, and is 'N/A' otherwise |
| `FileTable.NamedIndicesExact` | frontend/src/components/FileTable.tsx:220-221 | the reference positions are increasing and are exactly the positions of items with a defined, non-empty name |
| `FileTable.RowsFollowNamedItems` | frontend/src/components/FileTable.tsx:218-251 | one row per named item, in input order: row k is the row of the k-th named item |
| `FileTable.BuildRows` | frontend/src/components/FileTable.tsx:218-252 | the `forEach` loop yields exactly the rows of the named items, in order |
| `FileTable.ErrorText` | frontend/src/components/FileTable.tsx:256 | the message of `new Error(e)`: the text itself, 'null' for null and '' for undefined |
| `FileTable.MissingListMessage` | frontend/src/components/FileTable.tsx:219 | the TypeError message when the response's list is null or undefined and its `length` is read |
| `FileTable.FetchFails` | frontend/src/components/FileTable.tsx:214-256 | the fetch throws when the request is rejected, the response has no data, its status is 'Failed', or its list is null or undefined |
| `FileTable.FailureMessage` | frontend/src/components/FileTable.tsx:214-260 | the alert text: the rejection's message, 'Please check backend connection' without data, the error field's text for status 'Failed', and the TypeError message for a missing list |
| `FileTable.FileTableState.constructor` | frontend/src/components/FileTable.tsx:37-41 | not loading, no error message, no alert; files and connection status as given |
| `FileTable.FileTableState.FetchFiles` | frontend/src/components/FileTable.tsx:209-267 | loading ends; on success the file list is the rows of the response and the connection is kept; a rejected request, missing data, status 'Failed' or a null or undefined list empties the list, drops the connection and raises an alert with the failure's message |
| `FileTable.FileTableState.ConnectionChanged` | frontend/src/components/FileTable.tsx:268-273 | disconnected: the list is emptied and nothing else changes; connected: the whole new state the fetch gives, on success and on failure |
| `FileTable.StatusFilter` | frontend/src/components/FileTable.tsx:295-297 | with the filter on, a row passes iff its status is 'New'; with it off, iff its status is truthy (non-empty) |
| `FileTable.StatusFilterNarrows` | frontend/src/components/FileTable.tsx:295-297 | turning the filter on only hides rows: every row that passes with it on also passes with it off |
| `FileTable.RowId` | frontend/src/components/FileTable.tsx:303 | a row's id is its name and file source joined by a comma |
| `FileTable.RowIdRoundTrip` | frontend/src/components/FileTable.tsx:303 | for a comma-free name, the row id `name,fileSource` splits back into name and source |
| `FileTable.RowIdInjective` | frontend/src/components/FileTable.tsx:303 | rows with comma-free names share an id iff they share name and source |
| `FileTable.PageSize` | frontend/src/components/FileTable.tsx:275 | the page size is floor((outerHeight - 402) / 45): the largest r with 45r <= outerHeight - 402 |
| `FileTable.UploadCell` | frontend/src/components/FileTable.tsx:108-131 | progress bar iff progress is not 100 and status is Uploading (showing the progress); NA iff progress is not 100 and status is Failed; Uploaded otherwise |
| `FileTable.NameTooltip` | frontend/src/components/FileTable.tsx:73-80 | the tooltip is the source URL for S3 and YouTube files, the name otherwise |
| `Settings.Options` | frontend/src/components/SettingModal.tsx:22-23 | the first min(20, n) names in order, each as an option whose value and label are that name |
| `Settings.OptionsRoundTrip` | frontend/src/components/SettingModal.tsx:22-23 | the options' values are the leading names; options are well formed; rebuilding from the values gives the same options |
| `Settings.SettingsModal.constructor` | frontend/src/components/SettingModal.tsx:10-15 | no options yet; the selections as held by the application |
| `Settings.SettingsModal.LoadOptions` | frontend/src/components/SettingModal.tsx:17-32 | with credentials and a first row, both option lists are rebuilt from it; on any failure they keep their previous value |
| `Settings.SettingsModal.ClickHandler` | frontend/src/components/SettingModal.tsx:34-45 | ticking selects exactly the current option lists, so both selections are well-formed option lists; unticking clears both selections |
| `Settings.SettingsModal.ChangeNodes` | frontend/src/components/SettingModal.tsx:12 | the node dropdown replaces the node selection and leaves the relationship selection alone |
| `Settings.SettingsModal.ChangeRels` | frontend/src/components/SettingModal.tsx:13 | the relationship dropdown replaces the relationship selection and leaves the node selection alone |

## Left out

- Rendering is not modelled: JSX, CSS classes, the design-system widgets, the header title and
  the status-cell tooltip are presentation only.
- The table library's own pagination, row selection and filter plumbing are not modelled. Only
  the status filter predicate is.
- The file list request, the labels request and the database session are asynchronous I/O. Each
  response is an input, and each promise chain is one step. The order in which overlapping
  effects interleave is not modelled.
- `utils/Utils` is not part of this model. `constructQuery` and `constructDocQuery` are kept as
  the symbolic `Query` values. `statusCheck` feeds only the status icon and the inspect button.
- `utils/Constants` is not part of this model. Its seven query strings are the seven
  `QueryKey` values.
- `calcWordColor` is a foreign function. It is the parameter `wordColor`, a total function, so
  it also gives a colour for the first label of an empty label list (`undefined`). An exception
  thrown inside the records callback is the outcome `CallbackThrew`. The model does not derive
  such an exception from the records or from `calcWordColor`; it takes it as given.
- `uuidv4` is nondeterministic, so the row's `id` field is not modelled.
- The access key in local storage is the parameter `storedKey`.
- The window resize listener is not modelled. `PageSize` is the value that it and the initial
  state compute.
- The file-size display is not modelled because it is floating-point formatting.
- `parseInt` is not modelled: the upload progress is taken as an integer.
- Console logging and the alert's close handler are not modelled.
- The document-limit text input and its refresh button are not modelled. `documentNo` keeps its
  initial value '3'.
- The node-label dropdown's default value is not modelled because it is presentational.
- The status `success` is never set by the code, so no transition leads to it.
- A source node's `status` is taken as always present.
- `FileTable.MissingListMessage`: the TypeError's text is written as V8 words it. Other
  JavaScript engines word it differently, and the model does not cover their wording.
- `GraphView.BuildColorScheme`: keys that a plain JavaScript object inherits from its prototype
  are not modelled. For example, a label list whose text is `constructor` already reads as
  defined, so the source skips it; the model treats every key as absent until it is added.
- `FileTable.ToRow`: the file type is upper-cased for ASCII letters only, while JavaScript's
  `toUpperCase` maps all of Unicode.
- `FileTable.RowIdRoundTrip`: holds only for names without a comma. A name that contains a comma
  can share its row id with a different name and source, for example ("a,b", "c") and
  ("a", "b,c").
