# VibeData Studio: schema diff, proposal workflow and shell state

VibeData Studio is a single-page console for data engineering. All of its data is mock
state held in the browser. This project models and proves the parts of it that carry
logic:

- **Architect view** (`views/Architect.tsx`). The schema diff engine `calculateDiff`
  compares the live schema with a proposed full replacement. It sorts fields into added,
  modified, unchanged and removed. The workspace owns the live schema, a newest-first
  version history and the chat messages. A message may carry a schema proposal that is
  pending, accepted or rejected. Its operations are: the per-project reset, sending a
  message, receiving a reply or a crawler result as a pending proposal, accepting,
  rejecting, reverting to a version, and the diff card's pending-only buttons.
- **Application shell** (`App.tsx`). The notification queue (add in front, remove by id,
  clear, first three shown as toasts), the project list (create, delayed activation,
  active-project lookup) and the sidebar toggle.
- **Dashboard** (`views/Dashboard.tsx`). The log console filter and the colour mappings
  for log types, trends and pipeline statuses.

Files:

- `wrappers.dfy`: `Option`.
- `seqs.dfy`: an order-preserving `Filter` that keeps each kept value as often as it occurs, and the subsequence relation.
- `schema_diff.dfy`: the diff specification, its properties, and the loops that compute it.
- `ids.dfy`: the default project's id, decimal ids from the clock, and the `v<n>.0` history labels.
- `architect.dfy`: the `Workspace` class.
- `app_shell.dfy`: the `AppState` class.
- `dashboard.dfy`: the filter and the mappings.

Some names differ from the source. `type`, `old`, `new` and `unchanged` are Dafny
keywords, so they become `fieldType`, `before`, `after` and `kept`. A project's `type`
becomes `template`. A notification's `type` becomes `kind`.

A clock reading (`Date.now()`) is a parameter `now`. A formatted clock string is a
parameter `time`. The screen width is a parameter. The reply of the text-generation
service is a `Reply` value. Notification ids, which the source makes from the clock and
`Math.random()`, are a parameter.

Behaviour of the code worth knowing:

- `applyProposal` and `discardProposal` check no status themselves. The only guard is
  the diff card: it draws Accept and Reject only while the proposal is pending. The
  model has the unguarded `ApplyProposal`/`DiscardProposal` and the guarded
  `Accept`/`Reject`.
- The per-project reset replaces the whole history: with `[v1.0 Initial Import]` for the
  default project and with `[]` for any other. Between resets, entries are only prepended.
- The default project starts with one history entry, `v1.0 Initial Import`, dated
  1000000 ms before the clock reading.
- An accepted or rejected status is written to every message with the given id that
  carries a proposal, whatever that message's current status.
- A reply whose `proposed_schema` is present but empty still becomes a proposal, because
  an empty array is truthy in JavaScript.

## Model

| member | source | states |
|---|---|---|
| `SchemaDiff.Lookup` | views/Architect.tsx:79-80 | a name lookup finds a field of the schema with that name, and finds nothing exactly when no field has that name |
| `SchemaDiff.LookupFindsLast` | views/Architect.tsx:79-80 | on repeated names the map keeps the last field: a field that no later field shadows is the one found |
| `SchemaDiff.LookupUnique` | views/Architect.tsx:79-80 | in a schema with unique names, every field is found under its own name |
| `SchemaDiff.Classify` | views/Architect.tsx:84-91 | a proposed field is fresh iff no current field has its name; a retyped verdict names a current field of the same name and another type; a kept field has a current field of the same name and type |
| `SchemaDiff.Added` | views/Architect.tsx:83-86 | every added field is a proposed field whose name no current field has |
| `SchemaDiff.Unchanged` | views/Architect.tsx:83-91 | every unchanged field is a proposed field whose verdict is kept |
| `SchemaDiff.Modified` | views/Architect.tsx:83-89 | there are no more changes than proposed fields; each change pairs a current and a proposed field of the same name and different types |
| `SchemaDiff.Removed` | views/Architect.tsx:95-99 | every removed field is a current field whose name no proposed field has |
| `SchemaDiff.Diff` | views/Architect.tsx:73-102 | added, modified and unchanged together are as many as the proposed fields; removed is no longer than the current schema |
| `SchemaDiff.ModifiedIsRetyped` | views/Architect.tsx:83-92 | `modified` lists, in proposed order, exactly the retyped proposed fields, one change per retyped field, each paired with the current field its name maps to |
| `SchemaDiff.ProposedFieldClassified` | views/Architect.tsx:83-91 | a proposed field is added iff no current field has its name; it is modified with `before` = b iff b is the last current field with its name and b's type differs; otherwise it is unchanged, whatever `active` says |
| `SchemaDiff.PartitionCount` | views/Architect.tsx:83-92 | the sizes of added, modified and unchanged sum to the size of proposed: no proposed field is dropped or counted twice |
| `SchemaDiff.RemovedFields` | views/Architect.tsx:95-99 | a field is removed iff it is a current field and no proposed field has its name |
| `SchemaDiff.DiffPreservesOrder` | views/Architect.tsx:83-99 | added, modified and unchanged follow proposed order; removed follows current order |
| `SchemaDiff.AddedIsReverseRemoved` | views/Architect.tsx:83-99 | `diff(A, B).added == diff(B, A).removed` for all schemas A and B |
| `SchemaDiff.SelfDiff` | views/Architect.tsx:73-102 | a schema with unique names compared with itself has nothing added, removed or modified, and everything unchanged |
| `SchemaDiff.NoStructuralChangesIff` | views/Architect.tsx:834-836 | "No structural changes" shows iff both sides use the same names and every proposed field keeps the type of its current counterpart |
| `SchemaDiff.AppendNewField` | views/Architect.tsx:73-102 | appending a field under a name the current schema lacks adds exactly that field at the end of `added` and changes no other group |
| `SchemaDiff.AppendToSelf` | views/Architect.tsx:73-102 | a schema with unique names, compared with itself plus one field under a new name, shows only that field as added and everything else unchanged |
| `SchemaDiff.AppendedFieldExample` | views/Architect.tsx:73-102 | appending `score: FLOAT` to `[user_id, consent_status]` gives added = `[score]`, nothing removed or modified, and unchanged = the two old fields |
| `SchemaDiff.RetypedFieldExample` | views/Architect.tsx:73-102 | retyping `a` from STRING to INT gives exactly one modification, old and new |
| `SchemaDiff.RepeatedNameExample` | views/Architect.tsx:79-91 | with a repeated name, a schema compared with itself reports the shadowed field as modified |
| `SchemaDiff.IndexByName` | views/Architect.tsx:79-80 | the loop-built map holds a key iff the schema has that name, and maps it to the last field with that name |
| `SchemaDiff.ProposedStep` | views/Architect.tsx:83-92 | one more proposed field extends exactly the group its verdict names |
| `SchemaDiff.DiffProposed` | views/Architect.tsx:83-92 | the loop over proposed fields, reading the current map, pushes exactly the added, modified and unchanged lists of the specification |
| `SchemaDiff.DiffCurrent` | views/Architect.tsx:95-99 | the loop over current fields, testing the proposed map, pushes exactly the removed list of the specification |
| `SchemaDiff.CalculateDiff` | views/Architect.tsx:73-102 | indexing both schemas and running the two loops computes exactly the specified diff |
| `Ids.NatToString` | views/Architect.tsx:158 | the decimal rendering of a clock reading is a non-empty string of digits |
| `Ids.ParseNatToString` | views/Architect.tsx:158 | reading the decimal rendering back gives the number |
| `Ids.VersionId` | views/Architect.tsx:332 | a label is `v`, then decimal digits, then `.0` |
| `Ids.VersionIdRoundTrip` | views/Architect.tsx:332 | the label `v<n>.0` reads back as n |
| `Ids.VersionIdInjective` | views/Architect.tsx:332 | different history lengths give different labels |
| `Architect.PreUpdateVersion` | views/Architect.tsx:331-336 | the snapshot saved on accept reads back as version `count + 1`, carries the clock reading and holds the schema it was given |
| `Architect.BackupVersion` | views/Architect.tsx:362-367 | the revert backup never reads as a version label, carries the clock reading and holds the schema it was given |
| `Architect.TrimStart` | views/Architect.tsx:155 | the leading-white-space trim removes only white space, from the front, and what is left is empty or starts with a non-space |
| `Architect.TrimEnd` | views/Architect.tsx:155 | the trailing-white-space trim removes only white space, from the back, and what is left is empty or ends with a non-space |
| `Architect.BlankIffAllSpace` | views/Architect.tsx:155 | `trim` leaves nothing exactly when every character is white space in the sense of `trim` |
| `Architect.MarkStatus` | views/Architect.tsx:343-348 | the marked list has the same length, and every message is either as it was or carries a proposal with the decision |
| `Architect.SetStatus` | views/Architect.tsx:343-348 | the mapping loop produces the status-marked message list |
| `Architect.MarkStatusOnlyStatus` | views/Architect.tsx:352-357 | marking keeps the length and every message's id, role, text, timestamp, steps and proposal content; a message with another id, or without a proposal, is untouched; a marked proposal carries the decision |
| `Architect.MarkStatusIdempotent` | views/Architect.tsx:351-358 | marking twice with the same decision equals marking once |
| `Architect.InitialHistoryNumbered` | views/Architect.tsx:116-118 | the seeded history `[v1.0]` is numbered from the newest end |
| `Architect.VersionLabelsDistinct` | views/Architect.tsx:332 | in a history numbered from the newest end, no two entries share a `v<n>.0` label |
| `Architect.PrependKeepsNumbering` | views/Architect.tsx:337 | prepending a backup, or the label for length + 1, keeps the history numbered |
| `Architect.Workspace.constructor` | views/Architect.tsx:108-122 | initial messages, empty input, initial schema, history `[v1.0 Initial Import]`, crawler closed |
| `Architect.Workspace.ResetForProject` | views/Architect.tsx:125-141 | the default project restores the initial messages, schema and history; any other project gets one welcome message, an empty schema and an empty history |
| `Architect.Workspace.Submit` | views/Architect.tsx:154-166 | blank input (as `trim` sees it) changes nothing; otherwise the user message is appended, the input cleared and the typing indicator set |
| `Architect.Workspace.ReceiveReply` | views/Architect.tsx:232-293 | a reply becomes one appended message with its defaults ("Done.", "Processing..."); a proposed schema becomes a pending proposal `prop-<id>` whose steps are expanded; a failure becomes an error message; schema and history untouched |
| `Architect.Workspace.CompleteScout` | views/Architect.tsx:297-327 | the crawler closes and its fixed five-field schema arrives as a pending proposal in one appended message, expanded; the message id and the `prop-` id come from two separate clock readings |
| `Architect.Workspace.ApplyProposal` | views/Architect.tsx:329-349 | exactly one version is prepended, labelled `v<len+1>.0` with "Pre-update: " + description and holding the pre-accept schema; the schema becomes the proposal's; only messages with that id carrying a proposal become accepted; the numbering invariant holds |
| `Architect.Workspace.DiscardProposal` | views/Architect.tsx:351-358 | only messages with that id carrying a proposal become rejected; schema and history untouched |
| `Architect.Workspace.RevertToVersion` | views/Architect.tsx:360-378 | one backup holding the pre-revert schema is prepended and all earlier entries, the target included, are kept in order; the schema becomes the target's; one system message is appended |
| `Architect.Workspace.DiffCard` | views/Architect.tsx:809-836 | the card diffs the live schema against the proposal, shows the notice iff nothing structural changed, and shows the buttons iff the proposal is pending |
| `Architect.Workspace.Accept` | views/Architect.tsx:868-883 | a pending proposal is applied as in `ApplyProposal`; a decided one changes nothing; afterwards the proposal is decided, so a second click is a no-op |
| `Architect.Workspace.Reject` | views/Architect.tsx:868-883 | a pending proposal becomes rejected; a decided one changes nothing; schema and history never change |
| `AppShell.Toasts` | App.tsx:207 | at most three toasts, and they are the first (newest) notifications |
| `AppShell.WithoutId` | App.tsx:132-134 | exactly the notifications with another id are kept, each as often as it occurred, in their original order |
| `AppShell.WithoutAbsentId` | App.tsx:132-134 | removing an id that is not present leaves the list as it was |
| `AppShell.FindIndex` | App.tsx:93 | the index found is the first project with the id, and nothing is found only when no project has it |
| `AppShell.ActiveProject` | App.tsx:93 | the active project is in the list; it is the first project with the active id when some project has it; otherwise it is the first project |
| `AppShell.MarkActive` | App.tsx:167 | the list keeps its length, and every project is either as it was or active |
| `AppShell.MarkActiveOnlyTarget` | App.tsx:166-169 | the delayed completion changes only the status of the project with that id, to active |
| `AppShell.AppState.constructor` | App.tsx:54-90 | one active default project, selected; no notifications; the form holds `''`, `'empty'`, `''` |
| `AppShell.AppState.Current` | App.tsx:93 | the shell's active project is one of its projects |
| `AppShell.AppState.ToggleSidebar` | App.tsx:108-114 | below 768 px only the mobile menu flips, otherwise only the collapsed flag flips |
| `AppShell.AppState.Navigate` | App.tsx:116-119 | the view changes, and the mobile menu closes iff the view actually changed |
| `AppShell.AppState.SelectProject` | App.tsx:405 | the chosen id becomes the active id (so that project is current when it is in the list), the dashboard opens and the mobile menu closes iff the view changed; nothing else changes |
| `AppShell.AppState.AddNotification` | App.tsx:121-130 | the new notification is in front, followed by the old list unchanged |
| `AppShell.AppState.RemoveNotification` | App.tsx:132-134 | the list becomes the old list without that id |
| `AppShell.AppState.ClearAllNotifications` | App.tsx:136-138 | the list is empty |
| `AppShell.ActiveAppended` | App.tsx:93 | a project appended under an id no other project has is the one the active-project lookup finds for that id |
| `AppShell.AppState.CreateProject` | App.tsx:140-163 | the project is appended as initializing and made active (so it is the current project when its id is new); the modal closes; the form resets to `''`, `'empty'`, `''`; the dashboard opens; one success notification is prepended |
| `AppShell.AppState.AppendActive` | App.tsx:152-153 | the project is appended and its id becomes the active id; when the id is new, the active project is that project |
| `AppShell.AppState.CloseNewProjectForm` | App.tsx:154-159 | the modal closes and the form fields become `''`, `'empty'`, `''` |
| `AppShell.AppState.FinishInitialization` | App.tsx:165-169 | only the created project's status becomes active, and one info notification is prepended |
| `Dashboard.LowerString` | views/Dashboard.tsx:39-40 | lower-casing keeps the length, turns each upper-case ASCII letter into its lower-case letter and keeps every other character |
| `Dashboard.ContainsIffOccurs` | views/Dashboard.tsx:39-40 | `includes` holds exactly when the needle occurs at some position of the haystack |
| `Dashboard.MatchesSearch` | views/Dashboard.tsx:38-40 | a log matches iff the lower-cased query occurs in its lower-cased message or in its lower-cased agent |
| `Dashboard.FilteredLogs` | views/Dashboard.tsx:35-44 | other projects list nothing; every listed log matches the search (message or agent, ignoring case) and the type filter; every matching log is listed as often as it occurs; the list keeps the logs' order |
| `Dashboard.SearchIgnoresQueryCase` | views/Dashboard.tsx:38-40 | lower-casing the query does not change the result |
| `Dashboard.EmptySearchKeepsAll` | views/Dashboard.tsx:37-43 | with an empty query and `ALL`, the default project lists every log |
| `Dashboard.TypeColor` | views/Dashboard.tsx:46-53 | every log type gets one of the five colour sets |
| `Dashboard.TypeColorKnownTypes` | views/Dashboard.tsx:46-53 | INFO, WARN, ERROR and EXEC each have distinct classes; every other string gets the slate default |
| `Dashboard.TrendColor` | views/Dashboard.tsx:305-309 | a trend is shown emerald, rose or slate |
| `Dashboard.TrendColorCases` | views/Dashboard.tsx:305-309 | inverting a trend swaps the colours of `up` and `down`; an inverse trend is never neutral; a normal trend is neutral exactly when it is neither `up` nor `down` |
| `Dashboard.PipelineStyle` | views/Dashboard.tsx:336-343 | the dot is emerald iff the status is `Running`, rose iff it is `Error`, and slate for every other status |
| `Dashboard.PipelineStyleFallback` | views/Dashboard.tsx:336-343 | an unknown status is styled as `Idle`; Running and Error have styles of their own |

## Left out

- The text-generation call is not modelled: the API-key check, the prompt, JSON fence stripping and parsing, and the classification of HTTP and parse errors into friendly texts (views/Architect.tsx:168-231, 258-282). These are network I/O and a foreign library. `ReceiveReply` takes their outcome as a `Reply`.
- The crawler modal's timed log simulation (views/Architect.tsx:684-716) is not modelled: it is timers only. `CompleteScout` models its completion.
- Timers and randomness are not modelled: the 3-second `setTimeout` before a project is activated, the toast auto-close after 5 seconds, and the random system notifications (App.tsx:166, 173-192; components/Shared.tsx:130-135). The delayed activation is the explicit `FinishInitialization`. The auto-close is a call of `RemoveNotification`.
- `Date.now()`, `toLocaleTimeString` and `Math.random()` are not modelled; they are parameters.
- `AppShell.AppState.CreateProject`: the project id and its `createdAt` are two separate clock readings in the source (App.tsx:144, 149). The model uses one reading `now` for both.
- `Architect.Workspace.ApplyProposal`: in the source it reads `history.length` and `currentSchema` as they were when the card was last drawn. The model reads the live state, which is the same when the view is up to date.
- `Architect.Workspace.RevertToVersion`: in the source the backup holds `currentSchema` as it was when the history panel was last drawn (views/Architect.tsx:365). The model backs up the live schema, which is the same when the view is up to date.
- `Architect.Workspace.RevertToVersion`: the backup id, the backup timestamp and the system message id are three separate clock readings in the source (views/Architect.tsx:363, 364, 372). The model uses one reading `now` for all three, as if they fell in the same millisecond.
- Typing into the chat input, the suggestion chips and the button that opens the crawler (views/Architect.tsx:522, 539, 554) are not modelled: each is a single state assignment. As a result no method of the model makes `inputValue` non-blank or `scoutOpen` true; `Submit` and `CompleteScout` take those states as they come.
- The Architect view is mounted only while the current view is `architect` (App.tsx:680). Leaving the view discards its messages, schema and history, and the next visit starts again from `Architect.Workspace.constructor`. The model does not tie the workspace's lifetime to `AppShell.AppState.Navigate`.
- Message ids come from the clock, so two messages can share an id. `MarkStatus` then marks both. The guarantee that a decided proposal stays decided is stated only for the message whose button was clicked.
- `Ids.VersionIdRoundTrip`: `toFixed` switches to exponent notation from 10^21 on. The model always writes plain decimal digits.
- `Dashboard.SearchIgnoresQueryCase`: lower-casing is ASCII only. Unicode `toLowerCase` is not modelled.
- `Dashboard.PipelineStyle`: the same holds for its contract; an inherited property name is treated as any other unknown status.
- `Dashboard.PipelineStyleFallback`: a status that names an inherited JavaScript object property (such as `constructor`) would find that property instead of the `Idle` fallback. The model treats every unknown string as `Idle`.
- The pulse terrain, the zoom clamp and the tooltip geometry are not modelled: they are floating point and DOM layout (views/Pulse.tsx, components/Shared.tsx:17-41).
- The pipeline metric simulation is not modelled: it uses `Math.random` and floats inside a third-party widget (views/Pipeline.tsx).
- Forge, Scout, Help, Profile and Settings views are not modelled: they are static or mock screens whose form setters only wrap state.
- Rendering and pure UI toggles are not modelled: theme switching, the sidebar's schema/history tab, expanding processing steps by hand (`toggleProcessing`), and the open flags of the notification panel and of the project menu (the menu's flag is also cleared when a project is chosen, App.tsx:405). Each is a single state assignment with nothing to prove.
- Processing steps are kept as their labels only, because every step the code creates is `done`.
