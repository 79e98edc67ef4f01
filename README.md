# Procurement workflow editor — verified model

This project models the core of a browser editor for procurement workflows.
Users drag steps from a palette onto a canvas, connect them, edit each step's
properties, and save or load the graph as a JSON file. The editor also keeps
an automatic copy in browser storage. The model covers:

- **Schema** (`schema.dfy`). The closed registry of the eight procurement step
  types with their label, description and category. It also has validators that
  turn a parsed JSON value (`json.dfy`) into typed node data, nodes, edges and
  workflows, or reject it. `slaDays >= 0` is the only value rule. The encoders
  write a typed workflow back as a JSON value.
- **Editor** (`workflow_builder.dfy`). A class holding the workflow name, the
  nodes, the edges, the node-id counter, the selection, the properties drawer
  flag and the storage slot. The class has:
  - one method per handler of the builder page: drop, node click, pane click,
    node update, connect, save, load, reset and rename;
  - the autosave rule;
  - the mount-time restore from storage, as the constructor.
  The invariant `Valid()` says two things. Every node's id suffix is below the
  counter, so a new id is fresh as long as the counter stays below 2^53 (see
  "Left out"). The storage slot holds exactly what the autosave rule demands.
- **Id-suffix recovery**. `parseInt(id.replace('node-', '')) || 0` is modelled
  character by character (`text.dfy`):
  - only the first `node-` is removed, wherever it is;
  - leading JavaScript white space is skipped;
  - an optional sign is read;
  - a `0x`/`0X` prefix switches to hexadecimal;
  - the longest digit run is read;
  - "no number" gives 0.
- **Save dialog** (`save_workflow_dialog.dfy`). The proposed filename
  (lower case, each white-space run becomes one `-`, `workflow` when empty) and
  the filename field. The dialog is mounted with the page's first render,
  before the storage restore runs, so it proposes the filename for
  `Untitled Workflow` even when a stored workflow is restored.
- **Step palette** (`node_sidebar.dfy`). The case-insensitive search filter,
  the icon per step type, and the drag payload.
- **Load dialog** (`load_workflow_dialog.dfy`). The selected file and error
  message, changed by picking, dropping, loading, cancelling and closing.

`wrappers.dfy` holds the `Option` and `Result` types. The module `Scenarios`
(`scenarios.dfy`) is a client of all the others. Its methods `Walkthrough`,
`ResetTwice`, `RenameAfterMount`, `SaveThenRead` and `LoadSavedFile` follow
typical editing sessions through the contracts.

Some behaviour of the code is easy to miss, and the model keeps it:

- With no nodes loaded, the counter becomes `max(0) + 1 = 1`, not 0.
- Recovery does not only read ids of the form `node-<integer>`. It cuts out
  the first `node-`, wherever it stands, and parses what is left: `1node-2`
  gives 12, `xnode-5` gives 0 (`x5` is not a number) and `node-12abc` gives 12.
- Adding a node does not always succeed:
  - a drop with an empty payload is ignored;
  - a payload that names no step type advances the counter, then fails on the
    metadata lookup.
- The counter can decrease: reset sets it to 0, and a load sets it from the
  loaded ids.

## Model

| member | source | states |
|---|---|---|
| Text.Lower | client/src/components/workflow/NodeSidebar.tsx:46-47 | ASCII lower-casing keeps the length, turns each upper-case letter into its lower-case letter, keeps every other character, leaves no upper-case letter, and keeps exactly the white space |
| Text.LowerIdempotent | client/src/components/workflow/NodeSidebar.tsx:46-47 | lower-casing twice is lower-casing once |
| Text.IncludesEmpty | client/src/components/workflow/NodeSidebar.tsx:46-47 | every string contains the empty string |
| Text.IncludesTransitive | client/src/components/workflow/NodeSidebar.tsx:45-48 | containment is transitive: if `a` contains `b` and `b` contains `c`, then `a` contains `c` |
| Text.LowerPreservesIncludes | client/src/components/workflow/NodeSidebar.tsx:46-47 | if `s` contains `p`, lower-cased `s` contains lower-cased `p` |
| Text.IndexOf | client/src/pages/WorkflowBuilder.tsx:65 | the position found is the first occurrence of the pattern; nothing is found iff the pattern does not occur |
| Text.ReplaceFirst | client/src/pages/WorkflowBuilder.tsx:65 | `replace` with a string pattern leaves a string without the pattern unchanged, and otherwise substitutes exactly the first occurrence and keeps everything around it |
| Text.TrimStartFacts | client/src/pages/WorkflowBuilder.tsx:65 | skipping leading white space leaves a suffix that does not start with white space, and removes only white space |
| Text.TrimSpacesBefore | client/src/components/workflow/SaveWorkflowDialog.tsx:29 | skipping white space in front of text that does not start with white space gives that text |
| Text.TrimStartAppend | client/src/components/workflow/SaveWorkflowDialog.tsx:29 | once the first part has a non-space character, skipping leading white space never reaches the second part |
| Text.TrimStartKeepsLast | client/src/components/workflow/SaveWorkflowDialog.tsx:29 | skipping leading white space of text ending in a non-space character keeps that character and stops inside the text |
| Text.ParseIntOrZero | client/src/pages/WorkflowBuilder.tsx:65 | `parseInt` with the fallback to 0 gives a non-zero value only for text with a decimal digit, and a negative value only for text with a minus sign |
| Text.ParseMagnitude | client/src/pages/WorkflowBuilder.tsx:65 | a non-zero magnitude is read only from text that starts with a digit |
| Text.DecimalStringDigits | client/src/pages/WorkflowBuilder.tsx:119 | a counter rendered in decimal is non-empty, made of digits, reads back as its value, and has no leading zero |
| Text.ParseDecimalPrefix | client/src/pages/WorkflowBuilder.tsx:65 | `parseInt` of a rendered number followed by a non-digit reads back the number |
| Schema.RegistryFacts | shared/schema.ts:4-59 | there are exactly eight distinct step types, every type is in the registry in the tag order, and every category is one of the five |
| Schema.ParseNodeType | shared/schema.ts:4-13 | a string names a step type iff it is one of the eight tags, and then the type is exactly the one whose tag it is |
| Schema.TagsDeclared | shared/schema.ts:4-13 | every step type's tag is declared in the registry and no two types share a tag |
| Schema.LookupTagFinds | shared/schema.ts:4-13 | looking up a registry tag from any earlier position finds its step type |
| Schema.ValidateNodeData | shared/schema.ts:62-70 | node data is accepted iff it has a known `type`, a string `label` and correctly typed optional fields; the result has `slaDays >= 0`, and its type, label, description, department, approver, conditions and SLA are the input's fields |
| Schema.ValidateNode | shared/schema.ts:75-83 | a node is accepted iff `id` is a string, `type` is `workflowNode`, `position` has numeric `x`/`y` and `data` is valid; the id and position are the input's, and the data is what the data validator makes of `data` |
| Schema.ValidateEdge | shared/schema.ts:88-95 | an edge is accepted iff `id`, `source`, `target` are strings and `type`, `label`, `animated` have the right types when present; id, endpoints, type, label and `animated` are the input's fields |
| Schema.ValidateAll | shared/schema.ts:102-103 | an array is accepted iff every element is, and then the results are the elements' results in order |
| Schema.ValidateWorkflow | shared/schema.ts:100-104 | a document is accepted iff it has a string `name` and arrays `nodes` and `edges` whose every element validates; the result has no negative SLA, keeps the name, and its i-th node and edge are what the validators make of the i-th array elements |
| Schema.NodeDataRoundTrip | shared/schema.ts:62-70 | node data with no negative SLA, written as JSON, validates back to itself |
| Schema.NodeRoundTrip | shared/schema.ts:75-83 | a node with no negative SLA, written as JSON, validates back to itself |
| Schema.EdgeRoundTrip | shared/schema.ts:88-95 | every edge, written as JSON, validates back to itself |
| Schema.ValidateAllEncoded | shared/schema.ts:102-103 | an array of written elements that each validate back validates back as a whole |
| Schema.EncodeWorkflow | client/src/pages/WorkflowBuilder.tsx:169-175 | the JSON written for a workflow validates iff none of its SLAs is negative, and then validates back to the same workflow |
| Schema.EncodedElementsValidate | shared/schema.ts:100-106 | written node arrays validate back iff no SLA is negative; written edge arrays always validate back |
| Schema.SlaDaysRule | shared/schema.ts:68 | changing only `slaDays` of valid node data: it is accepted iff the new value is a number >= 0 (so 0 is accepted and negatives are not) |
| Schema.UnknownTypeRejected | shared/schema.ts:63 | node data whose `type` is not one of the eight tags is rejected, whatever the other fields are |
| Schema.OneBadNodeRejects | shared/schema.ts:102 | one node that fails validation rejects the whole document |
| Schema.DanglingEdgesAccepted | shared/schema.ts:88-95 | edges are accepted whatever their endpoints, even in a document with no nodes |
| WorkflowBuilder.SuffixValue | client/src/pages/WorkflowBuilder.tsx:65 | an id without `node-` is parsed whole |
| WorkflowBuilder.SuffixCutsFirst | client/src/pages/WorkflowBuilder.tsx:65 | the first `node-`, wherever it stands, is cut out and the rest is parsed |
| WorkflowBuilder.PrefixAtOne | client/src/pages/WorkflowBuilder.tsx:65 | a `node-` after a first character other than `n` is the first occurrence |
| WorkflowBuilder.ParseNoDigitFirst | client/src/pages/WorkflowBuilder.tsx:65 | text starting with a character that is neither white space, a sign nor a digit parses as 0 |
| WorkflowBuilder.SuffixAfterDigit | client/src/pages/WorkflowBuilder.tsx:65 | `1node-2` recovers the suffix 12 |
| WorkflowBuilder.SuffixAfterLetter | client/src/pages/WorkflowBuilder.tsx:65 | `xnode-5` recovers the suffix 0 |
| WorkflowBuilder.SuffixOfNodeId | client/src/pages/WorkflowBuilder.tsx:65 | the suffix recovered from `node-<n>` is `n` |
| WorkflowBuilder.NodeIdsDistinct | client/src/pages/WorkflowBuilder.tsx:119 | ids made from different counter values differ, and a larger counter value gives a larger suffix |
| WorkflowBuilder.MaxWithZero | client/src/pages/WorkflowBuilder.tsx:63-66 | `Math.max(0, ...values)` is at least 0, bounds every value, and is 0 or one of the values |
| WorkflowBuilder.MaxSuffix | client/src/pages/WorkflowBuilder.tsx:63-66 | the maximum is at least 0, bounds every node's suffix, and is 0 or some node's suffix |
| WorkflowBuilder.RecoveredCounter | client/src/pages/WorkflowBuilder.tsx:63-67 | the recovered counter is at least 1, above every node's suffix, and either 1 or one past some node's suffix |
| WorkflowBuilder.RecoveredFromLargest | client/src/pages/WorkflowBuilder.tsx:197-201 | when one node's suffix is the largest and not negative, the counter recovers to one past it |
| WorkflowBuilder.RecoveredFromThree | client/src/pages/WorkflowBuilder.tsx:197-201 | loading `node-0`, `node-7` and `node-3` sets the counter to 8 |
| WorkflowBuilder.BelowCounterExtend | client/src/pages/WorkflowBuilder.tsx:118-119 | appending the node made from the counter keeps every suffix below the advanced counter |
| WorkflowBuilder.BelowCounterFresh | client/src/pages/WorkflowBuilder.tsx:119 | while every suffix is below the counter, no node has the id the counter or any later value will produce |
| WorkflowBuilder.RecoveredCounterFresh | client/src/pages/WorkflowBuilder.tsx:197-201 | after recovery every loaded suffix is below the counter, so no loaded id equals `node-n` for any `n` at or past it |
| WorkflowBuilder.DragThenDrop | client/src/pages/WorkflowBuilder.tsx:110-111 | the drop reads back the palette card's tag under `application/reactflow`; the tag is non-empty and names the card's step type |
| WorkflowBuilder.NewNode | client/src/pages/WorkflowBuilder.tsx:117-127 | the dropped node has the given id and position, the dropped step type, the step's label and description from the registry, and no department, approver, SLA or conditions; its data is valid |
| WorkflowBuilder.NewNodeValidates | client/src/pages/WorkflowBuilder.tsx:117-127 | a dropped node, written as JSON, validates back to itself |
| WorkflowBuilder.UpdateData | client/src/pages/WorkflowBuilder.tsx:154-157 | every node with the id gets the new data and keeps its id and position; other nodes and the length are unchanged |
| WorkflowBuilder.UpdateMissingIsIdentity | client/src/pages/WorkflowBuilder.tsx:154-157 | updating an id no node has leaves the nodes unchanged |
| WorkflowBuilder.ConnectParams | client/src/pages/WorkflowBuilder.tsx:94-99 | the edge handed to `addEdge` is the connection with type `smoothstep` and `animated` set |
| WorkflowBuilder.Mounted | client/src/pages/WorkflowBuilder.tsx:53-77 | the state after mount has every suffix below the counter, storage as the autosave rule demands, no selection and a closed drawer |
| WorkflowBuilder.ReloadRestores | client/src/pages/WorkflowBuilder.tsx:53-92 | mounting on what autosave stored restores the nodes and edges, and the name and recovered counter when the graph is not empty; an empty graph mounts the initial state |
| WorkflowBuilder.Editor.Valid | client/src/pages/WorkflowBuilder.tsx:119 | while the invariant holds, no node carries the id the counter or any later value will produce |
| WorkflowBuilder.Editor.constructor | client/src/pages/WorkflowBuilder.tsx:53-77 | the editor's state after construction is the mounted state for the stored entry: a stored workflow is restored with its counter recovered, a missing or unparsable entry leaves the initial state |
| WorkflowBuilder.Editor.Autosave | client/src/pages/WorkflowBuilder.tsx:80-92 | the storage slot becomes what the autosave rule demands for the current graph |
| WorkflowBuilder.Editor.Rename | client/src/pages/WorkflowBuilder.tsx:230 | only the name changes, and the storage follows, including removal for an empty graph |
| WorkflowBuilder.Editor.Drop | client/src/pages/WorkflowBuilder.tsx:106-137 | an empty payload changes nothing; an unknown payload only advances the counter; a step tag appends one node `node-<counter>` with the step's metadata, advances the counter and changes nothing else; the new id is fresh |
| WorkflowBuilder.Editor.NodeClick | client/src/pages/WorkflowBuilder.tsx:139-145 | the node is selected and the drawer opens; nothing else changes |
| WorkflowBuilder.Editor.PaneClick | client/src/pages/WorkflowBuilder.tsx:147-150 | the selection is cleared and the drawer closes; nothing else changes |
| WorkflowBuilder.Editor.SetPropertiesOpen | client/src/pages/WorkflowBuilder.tsx:296 | only the drawer flag changes |
| WorkflowBuilder.Editor.UpdateNode | client/src/pages/WorkflowBuilder.tsx:152-166 | the nodes become the mapped update; name, edges, counter and selection are unchanged; the freshness invariant is kept |
| WorkflowBuilder.Editor.Connect | client/src/pages/WorkflowBuilder.tsx:94-99 | `addEdge` receives the connection with type `smoothstep` and `animated` set; nodes, name and counter are unchanged |
| WorkflowBuilder.Editor.SaveWorkflow | client/src/pages/WorkflowBuilder.tsx:168-189 | the download is named `<filename>.json`; its content validates iff no SLA is negative, and then reads back as the current name, nodes and edges |
| WorkflowBuilder.Editor.LoadWorkflow | client/src/pages/WorkflowBuilder.tsx:191-209 | name, nodes and edges are replaced, the counter is recovered, the selection is kept, and no loaded id collides with a future one |
| WorkflowBuilder.Editor.Reset | client/src/pages/WorkflowBuilder.tsx:211-224 | from any state, the editor returns to the initial state with the storage entry removed (so a second reset changes nothing) |
| NodeSidebar.DragStart | client/src/components/workflow/NodeSidebar.tsx:40-42 | the drag carries one entry, under `application/reactflow`, which parses back as the card's step type |
| NodeSidebar.IconOf | client/src/components/workflow/NodeSidebar.tsx:24-33 | the icon determines the step type it was chosen for |
| NodeSidebar.IconsDistinct | client/src/components/workflow/NodeSidebar.tsx:24-33 | every step type has an icon, and no two types share one |
| NodeSidebar.FilteredNodes | client/src/components/workflow/NodeSidebar.tsx:45-48 | a step is listed iff its lowered label or lowered description contains the lowered query; the list keeps registry order and names no step twice |
| NodeSidebar.Render | client/src/components/workflow/NodeSidebar.tsx:73-111 | "No steps found" shows iff no step matches; otherwise a card shows for each matching step and no other, in registry order, each once |
| NodeSidebar.FilterMembership | client/src/components/workflow/NodeSidebar.tsx:45-48 | a type is kept iff it is in the input and matches the lowered query |
| NodeSidebar.FilterOrder | client/src/components/workflow/NodeSidebar.tsx:45-48 | the result is a subsequence of the input, and has no duplicates when the input has none |
| NodeSidebar.FilterAllMatch | client/src/components/workflow/NodeSidebar.tsx:45-48 | when every entry matches, the filter keeps all of them |
| NodeSidebar.EmptyQueryListsAll | client/src/components/workflow/NodeSidebar.tsx:45-48 | the empty query lists all eight steps in registry order |
| NodeSidebar.CaseInsensitive | client/src/components/workflow/NodeSidebar.tsx:46-47 | queries that differ only in letter case list the same steps |
| NodeSidebar.LoweredQuerySame | client/src/components/workflow/NodeSidebar.tsx:46-47 | lower-casing the query first lists the same steps |
| NodeSidebar.Monotonic | client/src/components/workflow/NodeSidebar.tsx:45-48 | a step listed for a longer query that contains `q` is also listed for `q` |
| SaveWorkflowDialog.CollapseSpaceFacts | client/src/components/workflow/SaveWorkflowDialog.tsx:29 | replacing white-space runs leaves no white space, adds no upper case, and gives the empty string only for the empty string |
| SaveWorkflowDialog.CollapseSpaceIdentity | client/src/components/workflow/SaveWorkflowDialog.tsx:29 | a string without white space is left unchanged |
| SaveWorkflowDialog.CollapseSpaceLeading | client/src/components/workflow/SaveWorkflowDialog.tsx:29 | a string starting with white space becomes `-` followed by the result for what comes after the whole leading run |
| SaveWorkflowDialog.CollapseSpaceRunFront | client/src/components/workflow/SaveWorkflowDialog.tsx:29 | a leading white-space run of any length becomes one `-` |
| SaveWorkflowDialog.CollapseSpaceRun | client/src/components/workflow/SaveWorkflowDialog.tsx:29 | a maximal white-space run of any length becomes exactly one `-` |
| SaveWorkflowDialog.DefaultFilename | client/src/components/workflow/SaveWorkflowDialog.tsx:29 | the proposed filename is never empty and has no white space and no upper case |
| SaveWorkflowDialog.DefaultFilenameEdges | client/src/components/workflow/SaveWorkflowDialog.tsx:29 | an empty name gives `workflow`; a name of white space only gives `-` |
| SaveWorkflowDialog.DefaultFilenameIdempotent | client/src/components/workflow/SaveWorkflowDialog.tsx:29 | proposing a filename for a proposed filename gives it back |
| SaveWorkflowDialog.SaveDialog.constructor | client/src/components/workflow/SaveWorkflowDialog.tsx:28-30 | the field starts as the filename proposed for the name at mount, and the dialog is closed |
| SaveWorkflowDialog.SaveDialog.SetOpen | client/src/components/workflow/SaveWorkflowDialog.tsx:38 | opening or closing never changes the filename field |
| SaveWorkflowDialog.SaveDialog.Edit | client/src/components/workflow/SaveWorkflowDialog.tsx:54 | typing sets the field to the text and nothing else |
| SaveWorkflowDialog.SaveDialog.Save | client/src/components/workflow/SaveWorkflowDialog.tsx:32-35 | the current filename is handed over and the dialog closes |
| LoadWorkflowDialog.ReadWorkflow | client/src/components/workflow/LoadWorkflowDialog.tsx:44-47 | a file yields a workflow iff it parses and has the workflow shape; a parsed file yields exactly what the workflow validator makes of it, with no negative SLA; a parse failure passes its message on |
| LoadWorkflowDialog.SavedFileReadsBack | client/src/components/workflow/LoadWorkflowDialog.tsx:44-47 | a saved file reads back iff no SLA in it is negative, and then as the workflow that was saved |
| LoadWorkflowDialog.InvalidMessageDistinct | client/src/components/workflow/LoadWorkflowDialog.tsx:53-56 | no "Invalid workflow file: " message equals the missing-file message |
| LoadWorkflowDialog.LoadDialog.constructor | client/src/components/workflow/LoadWorkflowDialog.tsx:26-27 | closed, with no file and no error |
| LoadWorkflowDialog.LoadDialog.Open | client/src/pages/WorkflowBuilder.tsx:232 | the dialog opens; selection and error are kept |
| LoadWorkflowDialog.LoadDialog.PickFile | client/src/components/workflow/LoadWorkflowDialog.tsx:30-36 | the first chosen file is selected and the error cleared; choosing none changes nothing |
| LoadWorkflowDialog.LoadDialog.DropFiles | client/src/components/workflow/LoadWorkflowDialog.tsx:66-77 | a first file of type `application/json` is selected and the error cleared; otherwise the drop error is shown and the selection kept |
| LoadWorkflowDialog.LoadDialog.Load | client/src/components/workflow/LoadWorkflowDialog.tsx:38-59 | without a file: the missing-file error, nothing loaded; on failure: the prefixed error, selection kept, nothing loaded; on success: the validated workflow, dialog closed, selection and error cleared; while the button is enabled the missing-file error never appears |
| LoadWorkflowDialog.LoadDialog.Cancel | client/src/components/workflow/LoadWorkflowDialog.tsx:153-159 | the dialog closes; selection and error are kept |
| LoadWorkflowDialog.LoadDialog.SetOpen | client/src/components/workflow/LoadWorkflowDialog.tsx:80-88 | closing through the dialog clears selection and error; opening keeps them |

## Left out

- Canvas library internals are not modelled: node dragging, Delete-key removal of nodes and edges, and the edge cascade. Their code is not part of this model.
- WorkflowBuilder.Editor.Connect: the model does not fix how `addEdge` assigns edge ids or treats duplicate connections. It takes `addEdge` as a parameter, because that library code is not part of this model.
- The schema's error-message text is not modelled, and neither is the removal of unknown keys. Validators report a message of their own, and a validated value holds only the declared fields.
- The `Failed to load workflow` branch of the load handler is not modelled. It runs only for a thrown non-`Error` value, which neither `JSON.parse` nor the validator throws.
- JSON text is not modelled, so files are abstract. A file is its name, its MIME type, and either the value `JSON.parse` returned or the parse error's message. The async `File.text()`, `Blob` and the download link are not modelled. A saved file is taken to parse back to the value that was written.
- Storage holds either a workflow this editor wrote or unreadable text. Hand-edited entries of another shape are left out: the page casts them without validation.
- Positions and SLA values are opaque reals, and screen-to-canvas conversion is left out.
- `toLowerCase` is ASCII-only; other scripts' case mappings are not modelled.
- Ids and the counter are modelled with unbounded integers. In the page, `parseInt`'s result, `maxId + 1` and the counter are JavaScript doubles. From 2^53 on, `maxId + 1` and `++` no longer increase the counter. Loading a single node `node-9007199254740992` sets the counter to 2^53, so the next drop creates that same id and every later drop repeats it. A suffix of more than about 309 digits parses to `Infinity`, and every drop then creates `node-Infinity`. The freshness and distinctness results below describe the page only while the counter stays below 2^53:
- WorkflowBuilder.Editor.Valid: its freshness consequence holds in the page only for counters below 2^53.
- WorkflowBuilder.Editor.Drop: the new id is fresh in the page only for counters below 2^53.
- WorkflowBuilder.Editor.LoadWorkflow: no loaded id collides with a future one only when every loaded suffix is below 2^53.
- WorkflowBuilder.RecoveredCounterFresh: holds in the page only when every loaded suffix is below 2^53.
- WorkflowBuilder.NodeIdsDistinct: holds in the page only for counter values below 2^53.
- A drop payload naming an inherited object member (such as `toString` or `constructor`) is treated like any other unknown tag: only the counter advances. The page does more. `nodeMetadata[type]` is then a function or object, so reading `.label` gives `undefined` and nothing throws. The page appends a node `node-<counter>` of type `toString`, with label and description `undefined`, and autosaves it. Its type is not one of the eight tags, so a file saved with it fails validation on load. The model never creates such a node.
- The mount-time effects run in a fixed order. The model has only their net effect: restore, then autosave.
- Toasts, `setTimeout(fitView)`, zooming, the MiniMap colours, node rendering and the theme are presentation only.
- The properties drawer's form is not modelled. `UpdateNode` takes any node data, as the page's handler does.
- The reset confirmation dialog is not modelled. `Reset` is what its confirm button triggers.
