# Scene director (Extension-Scripter) in Dafny

Extension-Scripter is a chat-front-end plugin that lets the user direct a
story scene by scene. Each chat keeps a small record: the writing phase
(READY at the start of a scene, ACTION while it unfolds), a montage switch,
an auto-action switch, a caution note, the current scene, the next scene, a
core principle, a queue of upcoming scenes and a one-level rollback
snapshot. Before each generation the plugin turns the record and its global
settings into a system prompt.

This project models that core of `index.js`:

- `Text` (text.dfy): JavaScript's `trim`, `split` with a string separator
  and `join`, with the facts about them the rest of the model needs.
- `FixedTexts` (fixed_texts.dfy): the fixed instruction texts and the fixed parts of
  the prompt template, verbatim.
- `QueueCodec` (queue_codec.dfy): the queue's plain-text export
  (`join('\n---\n')`) and import (`split`, `trim`, drop empty), and when an
  import of an export gives the queue back.
- `Scene` (scene.dfy): the record as a value and each change the plugin
  makes to it as a pure transition (CUT!, rollback, the status and montage
  buttons, the auto-action on a received reply, the queue editor, import),
  the notice CUT! shows (as written and as intended), and the lemmas about them.
- `Prompt` (prompt.dfy): `generatePrompt`, written as `Compose` over a
  `Template` holding the fixed texts; `GeneratePrompt` is `Compose` over the
  plugin's own texts (`Standard`). The lemmas about the prompt hold for any
  template (the phase and strategy choices for any template whose texts are
  distinct), so they hold for `Standard`, which `Prompt.StandardDistinct` proves
  distinct.
- `Store` (store.dfy): the record as a mutable object (`class ChatData`)
  whose methods change its fields in place; every method is proved to reach
  the state the matching `Scene` transition describes.

The global settings are a parameter (`Scene.Settings`); the handlers that
change them are not modelled. The prompt is gated only by the global
`enabled` setting; there is no per-chat prompt switch. The auto-action on a
received reply also does nothing while the plugin is disabled.

## Model

| member | source | states |
|---|---|---|
| Text.Trim | index.js:144-150 | `trim` gives a string with no whitespace at either end, never longer |
| Text.TrimOfTrimmed | index.js:144-150 | `trim` leaves a string without whitespace at either end unchanged |
| Text.TrimIsInfix | index.js:144-150 | what `trim` keeps is the middle of the string, and what it cuts on each side is whitespace |
| Text.TrimEmptyIffBlank | index.js:144-150 | `s.trim()` is empty (falsy) exactly when every character of `s` is whitespace |
| Text.TrimIgnoresPadding | index.js:172-178 | whitespace added before a string and (possibly different) whitespace added after it do not change its trim |
| Text.Join | index.js:518 | `join`: the joined text starts with the first part (`Text.SplitJoin` states when `split` takes it apart again) |
| Text.Split | index.js:544 | `split` yields at least one piece, and joining the pieces with the separator gives the input back |
| Text.SplitPiecesHaveNoSep | index.js:544 | no piece of a split contains the separator |
| Text.SplitJoin | index.js:516-547 | splitting a join gives the parts back when no separator starts inside a part, including across its end |
| QueueCodec.Export | index.js:516-518 | an empty queue exports as the empty text, and splitting the export of a separable queue at the separator gives its scenes back |
| QueueCodec.TrimEach | index.js:544 | `map(s => s.trim())`: same length, each entry the trim of the piece at the same position |
| QueueCodec.DropEmpty | index.js:544 | `filter(s => s)`: no empty entry remains, and a list without empty entries is kept whole |
| QueueCodec.DropEmptyAppend | index.js:544 | the filter works entry by entry and keeps order: filtering a concatenation is the concatenation of the filtered parts, and a single entry is kept exactly when it is non-empty |
| QueueCodec.DropEmptyKeepsNonEmpty | index.js:544 | every non-empty entry is kept as often as it occurs, and no empty one |
| QueueCodec.Import | index.js:544 | every imported scene is non-empty and trimmed |
| QueueCodec.ImportExportNormalizes | index.js:516-547 | importing an export gives the queue trimmed and without blank entries, when no separator starts inside an entry or across the end of any entry but the last |
| QueueCodec.TrimEachOfTrimmed | index.js:544 | trimming entries that are already trimmed changes none of them |
| QueueCodec.ImportExport | index.js:516-547 | a queue of trimmed, non-empty scenes with no separator starting inside any of them (nor across the end of any but the last) survives export and import unchanged |
| QueueCodec.LastSceneEndingInDashesSurvives | index.js:516-547 | the last scene may end in `\n---`: `["y", "x\n---"]` survives the round trip |
| QueueCodec.SceneEndingInDashesSplits | index.js:516-547 | the round trip fails for `["x\n---", "y"]`, which comes back as `["x", "---\ny"]` |
| QueueCodec.BlankFileImportsEmpty | index.js:544 | a file of whitespace only imports as an empty queue |
| Scene.CutPromotes | index.js:332-361 | an enabled CUT! saves the old scenes and queue, makes the old next scene current, moves the queue head into the next scene (or empties it), sets READY, and leaves montage, auto-action, caution and core principle alone |
| Scene.CutWhileDisabled | index.js:332-340 | a disabled CUT! changes nothing |
| Scene.RollbackRestores | index.js:416-426 | rollback puts back exactly the saved scenes and queue, clears the snapshot and keeps phase and montage; without a snapshot it changes nothing |
| Scene.RollbackUndoesCut | index.js:332-426 | rollback after CUT! restores the scenes and the queue of before the cut |
| Scene.RollbackOnce | index.js:416-426 | a second rollback changes nothing: the undo has one level |
| Scene.SingleLevelUndo | index.js:342-346 | after two cuts, rollback returns to the state after the first, not before it |
| Scene.CutsPlayInOrder | index.js:351-358 | n cuts in a row make the n-th upcoming scene current and keep the rest upcoming in order (first in, first out) |
| Scene.First20 | index.js:349 | `substring(0, 20)`: a prefix of at most 20 characters, the whole string when it is short, exactly 20 characters otherwise |
| Scene.PreviewShowsStart | index.js:349 | the intended preview is the trimmed next scene, or its first 20 characters and an ellipsis when it is longer |
| Scene.PreviewAsWritten | index.js:349 | as written, a next scene of at most 20 characters previews as its trim, and a longer one always ends in the ellipsis, at most 23 characters in all |
| Scene.PreviewsDiffer | index.js:349 | the code's preview is the intended one except when the untrimmed next scene is longer than 20 characters and its trim is not; then it is the whole trimmed scene followed by the ellipsis |
| Scene.PreviewAsWrittenOnTrimmed | index.js:349 | on a next scene without surrounding whitespace the code's preview is the intended one |
| Scene.NoticeAsWritten | index.js:334-372 | as written, CUT! reports "disabled" exactly when the plugin is off; once enabled, a next scene longer than 20 characters is always announced, and a shorter one is reported missing exactly when it is blank; the announced text is the code's preview |
| Scene.NoticesDiffer | index.js:334-372 | the code's CUT! notice differs from the intended one exactly when the plugin is enabled and the next scene is longer than 20 characters with a trim of at most 20 |
| Scene.NoticeReportsBlankNextScene | index.js:334-372 | the intended CUT! notice reports "disabled" exactly when the plugin is off, and "no next scene" exactly when the next scene is blank |
| Scene.BlankNextSceneAnnouncedAsWritten | index.js:349-372 | as written, a blank next scene longer than 20 characters is announced as the scene `"..."` |
| Scene.StatusButtons | index.js:787-801 | READY and ACTION are ignored during montage; otherwise they set the phase and nothing else |
| Scene.MontageToggle | index.js:803-808 | MONTAGE flips montage only, keeps the phase, and pressed twice changes nothing |
| Scene.AutoActionTrigger | index.js:926-938 | a received reply changes the record exactly when the plugin is enabled, auto-action is on, the phase is READY and montage is off; then it sets ACTION and nothing else, and a second reply changes nothing |
| Scene.AddAppendsEmpty | index.js:468-474 | "Add" keeps the queue and appends one empty scene |
| Scene.UpdateReplacesOne | index.js:476-482 | an edit replaces only the scene at an index inside the queue; outside it changes nothing |
| Scene.DeleteRemovesOne | index.js:484-492 | a delete inside the queue removes that scene only and keeps the others in order; outside it changes nothing |
| Scene.MoveKeepsScenes | index.js:494-505 | a move is a permutation: it exchanges the scene with its neighbour when that position exists and otherwise changes nothing |
| Scene.SwapKeepsScenes | index.js:499-501 | the swap through a temporary keeps the multiset of scenes |
| Scene.MoveBack | index.js:494-505 | moving a scene and moving it back restores the queue |
| Scene.ImportReplacesQueue | index.js:532-557 | import replaces only the queue, with trimmed non-empty scenes, and re-importing the export of an exportable queue changes nothing |
| Prompt.CautionBlock | index.js:144-146 | the caution block is empty exactly when the trimmed caution is empty |
| Prompt.CorePrincipleBlock | index.js:149-151 | the core-principle block is empty exactly when the trimmed principle is empty |
| Prompt.Render | index.js:154-195 | the filled template is longer than its fixed head and tail |
| Prompt.Compose | index.js:122-128 | for a template whose head is not empty, the prompt is empty exactly when the plugin is disabled |
| FixedTexts.PhaseTextsDiffer | index.js:19-29 | the three phase texts differ from one another |
| FixedTexts.StrategyTextsDiffer | index.js:31-65 | the two strategy texts differ |
| FixedTexts.HeadNotEmpty | index.js:154 | the prompt template opens with text |
| Prompt.StandardHeadNotEmpty | index.js:154 | the plugin's template opens with text |
| Prompt.StandardDistinct | index.js:19-65 | the plugin's own template has distinct phase texts, distinct strategy texts and a head, so the `Compose` lemmas hold for `generatePrompt` |
| Prompt.GeneratePrompt | index.js:122-198 | `generatePrompt` returns the empty string exactly when the plugin is disabled |
| Prompt.DefaultSettingsPrompt | index.js:85-90 | with the default settings every record gets a non-empty prompt |
| Prompt.PhaseBlock | index.js:130-138 | for distinct texts, the phase block is MONTAGE exactly when montage is on, READY exactly when montage is off and the phase is READY, ACTION exactly when montage is off and the phase is ACTION |
| Prompt.StrategyBlock | index.js:141 | for distinct texts, the montage strategy is used exactly when montage is on and the default one exactly when it is off |
| Prompt.OptionalBlocks | index.js:143-151 | a non-blank caution appears trimmed between the caution tags and a blank one not at all; the same for the core principle with its heading |
| Prompt.PromptLayout | index.js:154-195 | an enabled prompt starts with the fixed head, the phase block and the caution block, shows the trimmed current scene right after, and ends with the final-check text verbatim and the fixed warning |
| Prompt.PromptMiddle | index.js:172-186 | an enabled prompt shows the trimmed next scene, the chosen strategy block and the core-principle block, each at its place after the current scene and the fixed text that precedes it |
| Prompt.PromptDependsOnTrimmedFields | index.js:122-197 | two records that agree on the phase, montage and the trimmed texts give the same prompt |
| Prompt.PaddingIgnored | index.js:172-178 | whitespace added before and (possibly different) whitespace added after the current scene or the next scene never changes the prompt |
| Store.ChatData.constructor | index.js:73-83 | a new record has the default contents |
| Store.ChatData.Reset | index.js:769-777 | "clear data" restores the default contents |
| Store.ChatData.ExecuteCut | index.js:332-372 | the record reaches `Scene.Cut` of its old state; the returned notice is the intended one (`Scene.Notice`), which is the code's notice unless the next scene is longer than 20 characters and its trim is not |
| Store.ChatData.PromoteScenes | index.js:341-361 | the enabled part of CUT!, in place: the record reaches `Scene.Cut` of its old state |
| Store.ChatData.ExecuteRollback | index.js:416-432 | the record reaches `Scene.Rollback` of its old state; the result says whether a snapshot was restored |
| Store.ChatData.SelectStatus | index.js:787-801 | the record reaches `Scene.SelectStatus` of its old state |
| Store.ChatData.ToggleMontage | index.js:803-808 | the record reaches `Scene.ToggleMontage` of its old state |
| Store.ChatData.SetAutoAction | index.js:839-851 | only the auto-action flag changes, to the checkbox value |
| Store.ChatData.OnMessageReceived | index.js:926-939 | the record reaches `Scene.ReplyReceived` of its old state; the result says whether it moved to ACTION |
| Store.ChatData.AddQueueItem | index.js:468-474 | only the queue changes, by `Scene.AddItem` |
| Store.ChatData.UpdateQueueItem | index.js:476-482 | only the queue changes, by `Scene.UpdateItem` |
| Store.ChatData.DeleteQueueItem | index.js:484-492 | only the queue changes, by `Scene.DeleteItem` |
| Store.ChatData.MoveQueueItem | index.js:494-505 | only the queue changes, by `Scene.MoveItem` (the swap through a temporary) |
| Store.ChatData.ClearQueue | index.js:507-514 | only the queue changes, to empty |
| Store.ChatData.ImportQueue | index.js:532-557 | only the queue changes, to the imported scenes; the result is their number |

## Left out

- DOM rendering and widget sync (`syncUIFromData`, `updateStatusButtons`, `updateQueueCount`, `updateQuickButtonVisibility`, `renderQueueList`, `escapeHtml`): they copy fields into the page and hold no logic of their own.
- Text-area sync (`setupTextAreaSync`): each handler assigns the typed text to one field; the model treats the fields as free inputs.
- Popups, sidebar, wand menu, quick button, collapsible blocks and the keyboard shortcut: user-interface wiring; only the record changes they trigger are modelled. The rollback confirmation popup is not modelled: `ExecuteRollback` is the confirmed action.
- Settings-panel handlers (enabled, quick button, shortcut, saving and resetting the final-check text): they change the global settings, which the model takes as a parameter.
- Persistence (`saveMetadataDebounced`, `saveSettingsDebounced`), `injectPrompt`'s call into the host with its depth and order, event registration, chat switching, `currentChatId` and the asynchronous start-up: calls into code that is not part of this model.
- Notifications and logging: the model keeps only what they report, as return values (`CutNotice`, `restored`, `switched`, `count`).
- File handling in export and import (blob download, file picker, file reading, the no-file branch): browser I/O; only the text produced and parsed is modelled.
- Store.ChatData.Reset: the code's `{ ...defaultChatData }` (index.js:773, and the fresh record of a new chat) is a shallow copy that shares the single array `defaultChatData.queue`. The queue edits change that array in place: push (index.js:470), the item edit (index.js:479), splice (index.js:487), the swap (index.js:499-501) and shift at CUT! (index.js:355). Once a fresh record's queue has been edited this way, "clear data" and every later fresh chat start with those scenes. `Reset` and the constructor always give an empty queue, because the model gives each record its own queue value and does not capture this aliasing.
- Field types: the record's text fields are strings and `status` is READY or ACTION; the code treats any `status` other than `'ready'` as ACTION and would fail on a missing text field.
- Lengths: JavaScript's `length` and `substring` count UTF-16 code units; the model counts characters, which differ only for characters outside the Basic Multilingual Plane.
- Scene.MoveItem: requires the index to be inside the queue; the code checks only the target position and, with an index outside the queue, writes `undefined` into it. That case is reachable: CUT! by keyboard shortcut (index.js:716-718) shifts the queue (index.js:355) without redrawing an open queue list, so "move up" on its stale last item passes an index equal to the queue's length; the `undefined` entry later becomes the next scene and `trim` then fails on it (index.js:178, 349). The model does not capture that path.
- Store.ChatData.MoveQueueItem: the same requirement on the index, for the same reason, leaving out the same reachable stale-index path.
- QueueCodec.ImportExport: the round trip holds only for exportable queues (scenes trimmed and non-empty, no separator starting inside a scene, nor across the end of any scene but the last); without that condition the import normalises instead (`QueueCodec.ImportExportNormalizes`, `QueueCodec.SceneEndingInDashesSplits`).
- Store.ChatData.ExecuteCut: returns the corrected notice of the finding below. It differs from the code's notice exactly when the next scene is longer than 20 characters and its trim is not (`Scene.NoticesDiffer`); the method's contract says it equals the code's notice in every other case.

## Findings

| source | as written | input that shows it | evidently intended | confidence | as-written member | corrected member |
|---|---|---|---|---|---|---|
| index.js:349 | the ellipsis is added when the untrimmed next scene is longer than 20 characters, so a blank next scene of that length gives the preview `"..."` and CUT! announces the scene `"..."` | next scene of 21 spaces | the ellipsis marks a shortened trimmed scene, and a blank next scene gives "No next scene defined." | medium, not executed | Scene.BlankNextSceneAnnouncedAsWritten | Scene.NoticeReportsBlankNextScene |
