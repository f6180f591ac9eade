# A verified model of the playground's editor core

This is a Dafny model of three sequential parts of a browser code playground.

- **The file-explorer store.** It holds the project's template tree: folders with a `folderName` and ordered `items`, and files with a `filename`, a `fileExtension` and `content`. It also holds the open editor sessions, the active session id and the editor-content mirror.
  - Each tree action (add, delete, rename, for a file or a folder) walks a slash-separated parent path leniently, edits a copy of the tree at the folder it reached, stores the copy and hands it to the persistence callback.
  - Deleting and renaming files also close or re-key the affected sessions.
- **The container-preview setup state machine.** It has two guard flags, a progress step, five loading flags, the preview url and the setup error. There are four events:
  - a forced reset;
  - a template change;
  - a setup invocation, which either reattaches to a running container or goes through transform, mount, `npm install` and `npm run start`;
  - the runtime's `server-ready` event.
- **The chat endpoint's message assembly.** It checks the message, keeps the well-formed `user`/`assistant` history entries, keeps the last ten of them, appends the new message, renders the prompt and reads the reply.

The files and their modules:

- `wrappers.dfy` (`Wrappers`): `Option`, and `Outcome` for the result of an awaited external call.
- `seqs.dfy` (`Seqs`): `filter` and `join` on sequences.
- `template_tree.dfy` (`TemplateTree`):
  - the tree types;
  - index-path cursors into a tree;
  - `ReplaceAt`, which is "copy the tree, then change the folder at this cursor in place".
- `path_walk.dfy` (`PathWalk`): `split("/")`, the lenient walk as a specification (`Resolve`) and as the store's loop (`ResolveFolder`), and the write-through path.
- `tree_edits.dfy` (`TreeEdits`): the item-level edits at the resolved folder.
- `sessions.dfy` (`Sessions`): the session registry as a value, one function per store operation, and the lemmas about them.
- `file_explorer.dfy` (`FileExplorerStore`): the store as a class whose methods update its fields and are proved against the functions above.
- `webcontainer_preview.dfy` (`ContainerSetup`): the setup state machine as functions, its lemmas, the step display, and the component as a class proved against them.
- `chat_route.dfy` (`ChatRoute`): JSON values, the request checks, history filtering and truncation, prompt rendering, trimming and the response.

External calls become inputs:

- `saveTemplateData` and `writeFileSync` each resolve or reject, as an `Outcome`. Every call is appended to a log field of the store (`saved`, `written`).
- The container runtime is a `Runtime` value with five fields:
  - what the `package.json` probe returns;
  - whether the mount, the install spawn and the start spawn each reject (three fields);
  - the install exit code.

  Mounts and spawns are appended to a `calls` log.
- The text generation service is a function from the prompt to the JSON it answers with.
- `generateFileId` is not part of this model. It is a constant function field of the store, left unconstrained, and every call site passes the same tree the code passes.

## Model

| member | source | states |
|---|---|---|
| TemplateTree.ReplaceAt | modules/playground/hooks/useFileExplorer.tsx:155-169 | Editing the copied tree at a cursor puts the new folder exactly there, with the cursor still valid. The folders on the way keep their names and item counts. |
| TemplateTree.ReplaceAtFrame | modules/playground/hooks/useFileExplorer.tsx:155-169 | A folder off the edited path is unchanged by the edit and is still at the same cursor. |
| TemplateTree.ReplaceAtAncestor | modules/playground/hooks/useFileExplorer.tsx:155-169 | A folder above the edited one keeps its name and every item except the one the path goes through, which stays a folder at the same index. |
| TemplateTree.FilesIn | modules/playground/hooks/useFileExplorer.tsx:289-305 | Every file item of the folder, and every file under each of its sub-folder items, is among the collected files. The contract states membership only; the depth-first, item-by-item order is the body's. |
| TemplateTree.FilesUpTo | modules/playground/hooks/useFileExplorer.tsx:293-304 | The files collected over the first `n` items include every file under each of those items. The contract states membership only. |
| TemplateTree.CursorExtend | modules/playground/hooks/useFileExplorer.tsx:166 | Stepping into a sub-folder item of the folder at a cursor gives a cursor, and it addresses that sub-folder. |
| TemplateTree.FilesInMembers | modules/playground/hooks/useFileExplorer.tsx:289-305 | A file is among those nested under a folder exactly when it is a direct file item or nested under a sub-folder item. |
| Seqs.Filter | modules/playground/hooks/useFileExplorer.tsx:117 | The filtered list is no longer than the list. Every kept element was in the list and passes the test, and every element that passes the test is kept. |
| Seqs.FilterConcat | modules/playground/hooks/useFileExplorer.tsx:244-249 | Filtering keeps the original order: filtering a concatenation is concatenating the filtered parts. |
| Seqs.FilterKeepsAll | app/api/chat/route.ts:73-82 | A filter that keeps every element returns the list unchanged. |
| Seqs.FilterFilter | modules/playground/hooks/useFileExplorer.tsx:117 | Filtering twice is filtering once by the conjunction of the two tests. |
| Seqs.FilterKeepsLast | modules/playground/hooks/useFileExplorer.tsx:121-124 | A kept last element is still the last element after filtering. |
| Seqs.JoinLast | app/api/chat/route.ts:26-28 | Joining a list with one more part appends the separator and that part. |
| Seqs.Join | app/api/chat/route.ts:26-28 | The joined string is as long as the parts together plus one separator per gap, and a single part is returned as it is. Its contents are fixed by `Seqs.JoinLast` and `PathWalk.SplitJoin`. |
| PathWalk.Split | modules/playground/hooks/useFileExplorer.tsx:158 | `split` always returns at least one piece, and no piece contains the separator. |
| PathWalk.SplitJoin | modules/playground/hooks/useFileExplorer.tsx:158 | Splitting loses nothing: joining the pieces with the separator gives back the path. |
| PathWalk.SplitNoSeparator | modules/playground/hooks/useFileExplorer.tsx:158 | A path without a slash is a single segment. |
| PathWalk.SplitConcat | modules/playground/hooks/useFileExplorer.tsx:177-179 | Splitting `a/b` gives the pieces of `a` followed by the pieces of `b`. |
| PathWalk.SplitCons | modules/playground/hooks/useFileExplorer.tsx:158 | One character of `split`: a separator closes an empty piece before the rest, any other character is prepended to the first piece of the rest. |
| PathWalk.FindFolder | modules/playground/hooks/useFileExplorer.tsx:163-165 | `find` returns the first item that is a folder of that name, and returns none exactly when there is no such item. |
| PathWalk.Step | modules/playground/hooks/useFileExplorer.tsx:161-168 | The walk stays put exactly when the segment is empty or no item is a folder of that name. Otherwise it goes one level down, into the first folder of that name. |
| PathWalk.Resolve | modules/playground/hooks/useFileExplorer.tsx:158-168 | The lenient walk always ends at an existing folder, never deeper than the number of segments. |
| PathWalk.NonEmpty | modules/playground/hooks/useFileExplorer.tsx:162 | The segments the walk steps on are exactly the non-empty ones, in order: the `filter(Boolean)` of the pieces. |
| PathWalk.ResolveSkipsEmptySegments | modules/playground/hooks/useFileExplorer.tsx:161-162 | Empty segments play no part: a path resolves like the same path with its empty segments removed. |
| PathWalk.EmptyPathIsRoot | modules/playground/hooks/useFileExplorer.tsx:158-168 | The empty parent path resolves to the root folder. |
| PathWalk.WritePath | modules/playground/hooks/useFileExplorer.tsx:176-180 | The write-through path ends with `filename.ext`. For an empty parent path it is just that name; otherwise it is the parent path, a slash, and the name. |
| PathWalk.WritePathResolves | modules/playground/hooks/useFileExplorer.tsx:176-180 | The write-through path `parentPath/filename.ext` (or `filename.ext` for an empty parent) splits into the parent's segments followed by the file name. So its directory part, walked leniently, reaches the same folder as the walk over `parentPath`. |
| PathWalk.WritePathIgnoresWalk | modules/playground/hooks/useFileExplorer.tsx:161-180 | With no folder named `x`, the walk over `x` stays at the root, so the tree gains the file there, but the path written to the container still starts with the directory `x`. |
| PathWalk.ResolveFolder | modules/playground/hooks/useFileExplorer.tsx:158-168 | The store's loop over the path segments reaches the folder that `Resolve` specifies. |
| TreeEdits.FindFile | modules/playground/hooks/useFileExplorer.tsx:357-362 | `findIndex` returns the first file with that name and extension, and returns none exactly when there is none. |
| TreeEdits.AddItem | modules/playground/hooks/useFileExplorer.tsx:169 | The new node is appended at the end of the resolved folder's items. The folder keeps its name and the cursor stays valid. Line 214 adds a folder the same way. |
| TreeEdits.DeleteFile | modules/playground/hooks/useFileExplorer.tsx:244-249 | Every file with that name and extension goes, duplicates included. The new items are the `filter` of the old ones, so every folder and every other file stays, in its original order, and nothing is duplicated. |
| TreeEdits.DeleteFolder | modules/playground/hooks/useFileExplorer.tsx:283-286 | Every folder with that name goes. The new items are the `filter` of the old ones, so every file and every other folder stays, in its original order, and nothing is duplicated. |
| TreeEdits.RenameFile | modules/playground/hooks/useFileExplorer.tsx:364-370 | Only the item at that index changes. It gets the new name and extension and keeps its content. |
| TreeEdits.RenameFolder | modules/playground/hooks/useFileExplorer.tsx:428-433 | Only the item at that index changes. It gets the new name and keeps its items. |
| TreeEdits.DeleteMissingFile | modules/playground/hooks/useFileExplorer.tsx:244-249 | Deleting a file that is not in the resolved folder leaves the tree as it was. |
| TreeEdits.ReplaceAtSame | modules/playground/hooks/useFileExplorer.tsx:155-157 | Putting back the folder already at a cursor gives the same tree: the copy equals the original. |
| TreeEdits.RenameFileBack | modules/playground/hooks/useFileExplorer.tsx:364-370 | Renaming a file and then renaming it back restores the tree. |
| TreeEdits.ReplaceAtTwice | modules/playground/hooks/useFileExplorer.tsx:155-169 | Two edits at one cursor are the last edit. |
| Sessions.FindSession | modules/playground/hooks/useFileExplorer.tsx:93 | Returns the first session with that id, and returns none exactly when no session has it. |
| Sessions.Fresh | modules/playground/hooks/useFileExplorer.tsx:99-104 | A new session has the file's names and content, the same content as its original, and no unsaved changes. |
| Sessions.Open | modules/playground/hooks/useFileExplorer.tsx:90-113 | An id that is already open only becomes active, and the editor shows the live content of the first session with that id, as `find` picks it. A new id gets a clean session appended, which becomes active and is shown. |
| Sessions.Close | modules/playground/hooks/useFileExplorer.tsx:115-136 | Closing removes exactly the sessions with that id. If the id was active, the last remaining session becomes active with its content, or nothing is active and the editor is empty. If it was not active, the active id and the editor are unchanged. |
| Sessions.FocusLast | modules/playground/hooks/useFileExplorer.tsx:121-129 | After the active session closes, the focus goes to the last session left and the editor shows its content. With none left, nothing is active and the editor is empty (TracksLast). |
| Sessions.FilterDropsId | modules/playground/hooks/useFileExplorer.tsx:117 | After filtering out an id, no session with that id is open. |
| Sessions.UpdateContent | modules/playground/hooks/useFileExplorer.tsx:446-460 | Only sessions with that id change: they get the content, with `hasUnsavedChanges` equal to (content differs from the original). The editor mirrors the content only when that id is active. |
| Sessions.Rekey | modules/playground/hooks/useFileExplorer.tsx:373-388 | Sessions with the old id get the new id, name and extension, and keep their content. Every other session is unchanged. The active id follows, and the editor content stays. |
| Sessions.OpenPreservesValid | modules/playground/hooks/useFileExplorer.tsx:90-113 | Opening keeps the registry well formed: every dirty flag is right, the active id is null exactly when nothing is open, and otherwise it is open with the editor showing its content. |
| Sessions.OpenPreservesUniqueIds | modules/playground/hooks/useFileExplorer.tsx:93-97 | Opening never creates a second session for an id. |
| Sessions.OpenTwice | modules/playground/hooks/useFileExplorer.tsx:93-97 | Opening the same id twice is opening it once, so unsaved edits survive a re-open. |
| Sessions.ClosePreservesValid | modules/playground/hooks/useFileExplorer.tsx:115-136 | Closing keeps the registry well formed. |
| Sessions.FilterPreservesClean | modules/playground/hooks/useFileExplorer.tsx:117 | Removing sessions keeps every remaining dirty flag right. |
| Sessions.CloseUnknown | modules/playground/hooks/useFileExplorer.tsx:115-136 | Closing an id that is not open changes nothing. |
| Sessions.ClosePreservesUniqueIds | modules/playground/hooks/useFileExplorer.tsx:117 | Closing never creates a duplicate id. |
| Sessions.FilterPreservesUnique | modules/playground/hooks/useFileExplorer.tsx:117 | A sub-list of a list with unique ids has unique ids. |
| Sessions.CloseKeepsTrackingLast | modules/playground/hooks/useFileExplorer.tsx:121-128 | A registry whose focus is on its last session (or on nothing, when empty) stays that way after any close. |
| Sessions.CloseEachKeepsTrackingLast | modules/playground/hooks/useFileExplorer.tsx:293-304 | The same holds after closing a whole list of ids. |
| Sessions.CloseEachSpec | modules/playground/hooks/useFileExplorer.tsx:289-310 | Closing a list of ids one by one removes exactly the sessions with those ids and no other. The focus stays unless the active id is among them, in which case it moves to the last remaining session. |
| Sessions.CloseEach | modules/playground/hooks/useFileExplorer.tsx:289-305 | Closing a list of ids one by one leaves exactly the old sessions whose id is not in the list, and never more sessions than before. |
| Sessions.CloseEachConcat | modules/playground/hooks/useFileExplorer.tsx:293-304 | Closing the ids of `a` and then of `b` is closing those of `a + b`. |
| Sessions.CloseEachPreservesValid | modules/playground/hooks/useFileExplorer.tsx:289-310 | Closing a list of ids keeps the registry well formed. |
| Sessions.UpdatePreservesValid | modules/playground/hooks/useFileExplorer.tsx:446-460 | A content update keeps the registry well formed: the dirty flags stay right and the editor still shows the active session. |
| Sessions.UpdateBackToOriginal | modules/playground/hooks/useFileExplorer.tsx:453 | Editing a session back to its original content makes it clean again. |
| Sessions.RekeyPreservesValid | modules/playground/hooks/useFileExplorer.tsx:373-388 | Re-keying on a file rename keeps the registry well formed. |
| Sessions.RekeyLosesNoSession | modules/playground/hooks/useFileExplorer.tsx:373-382 | Every session that was open under the old id is open under the new id afterwards, at the same position, with the same content, original content and dirty flag. The number of sessions is unchanged and the old id is gone. |
| Sessions.RekeyPreservesUniqueIds | modules/playground/hooks/useFileExplorer.tsx:373-382 | Ids stay unique when the new id is the old one or is not already open. |
| Sessions.RekeyOntoOpenId | modules/playground/hooks/useFileExplorer.tsx:373-382 | Renaming onto the id of another open file leaves two sessions with one id. |
| FileExplorerStore.FileExplorer.FileIds | modules/playground/hooks/useFileExplorer.tsx:296 | One id per file, each computed against the given tree. |
| FileExplorerStore.FileExplorer.FileIdsConcat | modules/playground/hooks/useFileExplorer.tsx:293-304 | The ids of a concatenation are the concatenated ids. |
| FileExplorerStore.FileExplorer.constructor | modules/playground/hooks/useFileExplorer.tsx:71-76 | The store starts with no tree, an empty playground id, no sessions, nothing active, an empty editor and no external calls. |
| FileExplorerStore.FileExplorer.SetTemplateData | modules/playground/hooks/useFileExplorer.tsx:78 | Sets the tree and nothing else. |
| FileExplorerStore.FileExplorer.SetPlaygroundId | modules/playground/hooks/useFileExplorer.tsx:80-82 | Sets the playground id and nothing else. |
| FileExplorerStore.FileExplorer.OpenFile | modules/playground/hooks/useFileExplorer.tsx:90-113 | The registry becomes `Open` of the old one, with the id computed against the current tree. It stays well formed, and nothing else changes. |
| FileExplorerStore.FileExplorer.CloseFile | modules/playground/hooks/useFileExplorer.tsx:115-136 | The registry becomes `Close` of the old one and stays well formed. |
| FileExplorerStore.FileExplorer.CloseAllFiles | modules/playground/hooks/useFileExplorer.tsx:137-143 | No sessions, nothing active, an empty editor. |
| FileExplorerStore.FileExplorer.UpdateFileContent | modules/playground/hooks/useFileExplorer.tsx:446-460 | The registry becomes `UpdateContent` of the old one and stays well formed. |
| FileExplorerStore.FileExplorer.HandleAddFile | modules/playground/hooks/useFileExplorer.tsx:145-188 | Without a tree nothing happens. Otherwise the following hold:<br>- the tree becomes the old tree with the file appended at the resolved folder, and that tree is saved;<br>- only after a successful save is the file written to its path, when a writer is given;<br>- only after the save and the write both succeed is the file opened, with its id computed against the new tree;<br>- a failed save or write keeps the new tree. |
| FileExplorerStore.FileExplorer.HandleAddFolder | modules/playground/hooks/useFileExplorer.tsx:190-221 | Without a tree nothing happens. Otherwise the folder is appended at the resolved folder and the tree saved, and the sessions are untouched. |
| FileExplorerStore.FileExplorer.HandleDeleteFile | modules/playground/hooks/useFileExplorer.tsx:222-262 | Without a tree nothing happens. Otherwise every same-named file at the resolved folder is removed and the tree saved. The file's id, computed against the tree before the edit, is closed when it is open. |
| FileExplorerStore.FileExplorer.CloseFilesInFolder | modules/playground/hooks/useFileExplorer.tsx:289-305 | Closes, depth first and in item order, the id of every file nested at any depth under the folder, and no other session. |
| FileExplorerStore.FileExplorer.CloseItemAfter | modules/playground/hooks/useFileExplorer.tsx:293-304 | Closing the ids under the first `i + 1` items is closing those under the first `i` items, then those under item `i`. |
| FileExplorerStore.FileExplorer.CloseFileItem | modules/playground/hooks/useFileExplorer.tsx:294-297 | For a file item, closing the ids under it is closing that one file's id. |
| FileExplorerStore.FileExplorer.HandleDeleteFolder | modules/playground/hooks/useFileExplorer.tsx:263-321 | Without a tree nothing happens. Otherwise every same-named folder at the resolved parent is removed and the tree saved. The ids of all files nested under the given folder, computed against the tree before the edit, are closed. |
| FileExplorerStore.FileExplorer.HandleRenameFile | modules/playground/hooks/useFileExplorer.tsx:322-398 | Without a tree, or without a matching file, nothing happens: no tree change, no session change, no save. Otherwise the first match is renamed in place and the tree saved. The sessions are re-keyed from the old id to the new id, both computed against the tree before the edit. |
| FileExplorerStore.FileExplorer.RekeySessions | modules/playground/hooks/useFileExplorer.tsx:373-388 | The registry becomes `Rekey` of the old one and stays well formed. The tree, the playground id and the logs of saves and writes are unchanged. |
| FileExplorerStore.FileExplorer.HandleRenameFolder | modules/playground/hooks/useFileExplorer.tsx:399-445 | Without a tree, or without a matching folder, nothing happens. Otherwise the first folder of that name is renamed in place, keeping its items, and the tree saved. The sessions are untouched. |
| ContainerSetup.NatToString | modules/webcontainer/components/webcontainer-preview.tsx:203 | The decimal rendering is never empty, and has two or more digits exactly for numbers of ten or more. |
| ContainerSetup.NatToStringInjective | modules/webcontainer/components/webcontainer-preview.tsx:203 | Different numbers render differently. |
| ContainerSetup.IntToStringInjective | modules/webcontainer/components/webcontainer-preview.tsx:203 | Different integers, negative ones included, render differently. |
| ContainerSetup.NoMinus | modules/webcontainer/components/webcontainer-preview.tsx:203 | The rendering of a natural number has no minus sign. |
| ContainerSetup.InstallFailureCarriesCode | modules/webcontainer/components/webcontainer-preview.tsx:199-205 | The install error message determines the exit code: different codes give different messages. |
| ContainerSetup.ForceReset | modules/webcontainer/components/webcontainer-preview.tsx:59-73 | A forced reset clears both guard flags, the url, the step and all five loading flags. It keeps the error, the handlers, the calls, the published stages and the notifications. Without force nothing changes. |
| ContainerSetup.TemplateChanged | modules/webcontainer/components/webcontainer-preview.tsx:76-81 | A template with at least one item clears only the two guard flags. An empty one changes nothing. |
| ContainerSetup.Advance | modules/webcontainer/components/webcontainer-preview.tsx:138-218 | Entering a stage sets the step to it and records the snapshot it publishes, with no runtime call and no handler. |
| ContainerSetup.Failed | modules/webcontainer/components/webcontainer-preview.tsx:264-279 | A failure publishes the error, ends the run and clears every loading flag. The step, the url, the completion flag, the handlers, the calls and the published stages are kept. |
| ContainerSetup.ColdPath | modules/webcontainer/components/webcontainer-preview.tsx:137-279 | The mount is the first runtime call of a cold run. A run where the mount, both spawns and the exit code all pass leaves one cold-start handler and step 4 with no error. Any failing step ends the run with an error, no new handler and no loading flag. |
| ContainerSetup.InstallAndStart | modules/webcontainer/components/webcontainer-preview.tsx:178-279 | The install is spawned, and then the start is spawned exactly when the install spawned and exited with code 0. A run where every step passes leaves one cold-start handler at step 4. Any failing step ends the run with an error and no new handler. |
| ContainerSetup.Setup | modules/webcontainer/components/webcontainer-preview.tsx:84-280 | When there is no instance, or setup is complete or in progress, nothing changes. In every case the earlier runtime calls and notifications are kept. |
| ContainerSetup.GetStepIcon | modules/webcontainer/components/webcontainer-preview.tsx:322-330 | A check mark exactly below the current step, a spinner exactly at it, and an empty circle exactly above it. |
| ContainerSetup.GetStepTextClass | modules/webcontainer/components/webcontainer-preview.tsx:332-348 | Green exactly below the current step, blue exactly at it, and grey exactly above it. |
| ContainerSetup.ReattachSkipsColdPath | modules/webcontainer/components/webcontainer-preview.tsx:98-135 | When the probe reads content, the following hold:<br>- there is no mount and no spawn;<br>- the step is 4 and `starting` is set;<br>- the run stays in progress and is not complete;<br>- the error is cleared;<br>- one reattach handler is registered. |
| ContainerSetup.ProbeFailureRunsColdPath | modules/webcontainer/components/webcontainer-preview.tsx:98-164 | A probe that throws or reads nothing is swallowed. The cold path runs: stage 1 first, then a mount of the template. |
| ContainerSetup.ColdPathSucceeds | modules/webcontainer/components/webcontainer-preview.tsx:137-263 | A cold run without failure does the following:<br>- mounts once, then spawns `npm install` once, then `npm run start` once;<br>- publishes steps 1, 2, 3, 4 in order;<br>- ends at step 4 with `starting` set and `installing` clear;<br>- stays in progress, not complete, with no error;<br>- registers one cold-start handler. |
| ContainerSetup.InstallFailureAborts | modules/webcontainer/components/webcontainer-preview.tsx:199-279 | A non-zero exit code does the following:<br>- raises the error that carries the code;<br>- never spawns the start process and registers no handler;<br>- ends the run, not complete;<br>- clears every loading flag;<br>- leaves the step at 3. |
| ContainerSetup.FailureShape | modules/webcontainer/components/webcontainer-preview.tsx:264-279 | Whatever fails, the following hold:<br>- the error is set;<br>- nothing is in progress or complete;<br>- every loading flag is clear;<br>- the step is the one the failing stage entered;<br>- no handler is added. |
| ContainerSetup.ColdSnapshots | modules/webcontainer/components/webcontainer-preview.tsx:138-218 | The cold path has four snapshots, at steps 1, 2, 3 and 4 in that order. |
| ContainerSetup.ColdStagesArePrefix | modules/webcontainer/components/webcontainer-preview.tsx:137-279 | A cold run publishes the first two, three or four of those snapshots after the earlier ones. It publishes fewer than four only when it ends with an error. |
| ContainerSetup.ColdSnapshotsShowOneFlag | modules/webcontainer/components/webcontainer-preview.tsx:138-218 | From no stage flag, each snapshot shows exactly the flag of its own step. |
| ContainerSetup.ColdStagesShowOneFlag | modules/webcontainer/components/webcontainer-preview.tsx:138-218 | Starting from no stage flag, the cold path publishes steps 1 to 4 in order, each with exactly its own flag among `transforming`, `mounting`, `installing` and `starting`. |
| ContainerSetup.ColdStagesKeepStaleFlags | modules/webcontainer/components/webcontainer-preview.tsx:124-138 | Stage flags are merged into the previous ones. A cold run that starts with `starting` still set shows `transforming` and `starting` together. |
| ContainerSetup.SetupIdempotent | modules/webcontainer/components/webcontainer-preview.tsx:91 | Once setup is in progress or complete, any number of further invocations change nothing. |
| ContainerSetup.RepeatedSetupCallsOnce | modules/webcontainer/components/webcontainer-preview.tsx:91-96 | Setup invoked any number of times in a row, with the first run not failing, has the effect of the first run alone. So there is no second mount, install or start. |
| ContainerSetup.FailureAdmitsRetry | modules/webcontainer/components/webcontainer-preview.tsx:264-289 | After a failed run the guard is open, so the next invocation starts a new run. The guard is at line 91. |
| ContainerSetup.ForceResetAdmitsSetup | modules/webcontainer/components/webcontainer-preview.tsx:59-91 | After a forced reset, a setup with an instance always runs. |
| ContainerSetup.Fire | modules/webcontainer/components/webcontainer-preview.tsx:231-252 | A handler shows the url and marks the server ready. Only a cold-start handler completes the setup, ends the run and notifies; the reattach handler leaves both flags alone (lines 116-129). Handlers, calls, stages, step and error are unchanged. |
| ContainerSetup.FireAll | modules/webcontainer/components/webcontainer-preview.tsx:231-252 | Running handlers never changes the handlers, the calls or the stages. When at least one runs, the url is shown and the server is ready. |
| ContainerSetup.ServerReady | modules/webcontainer/components/webcontainer-preview.tsx:231-252 | With no handler registered the event changes nothing. Otherwise the url is shown and the server is ready. The handlers, the calls and the stages are unchanged. |
| ContainerSetup.FireAllShape | modules/webcontainer/components/webcontainer-preview.tsx:231-252 | `server-ready` handlers change only the url, the `starting`/`ready` flags and, for a cold-start handler, the guard flags and the notifications. Reattach handlers alone never touch the guard flags. The reattach handler at lines 116-129 behaves the same way. |
| ContainerSetup.ServerReadyCompletesOnlyColdStart | modules/webcontainer/components/webcontainer-preview.tsx:231-252 | On `server-ready` the following hold:<br>- the url is shown, `starting` is cleared and `ready` is set;<br>- the setup becomes complete and not in progress when a cold-start handler is registered;<br>- with only reattach handlers, the guard flags stay as they were.<br>The reattach handler is at lines 116-129. |
| ContainerSetup.ServerReadyNotifies | modules/webcontainer/components/webcontainer-preview.tsx:247-251 | `onServerReady` receives the url once per cold-start handler that was registered with one. |
| ContainerSetup.StaleServerReadyCompletes | modules/webcontainer/components/webcontainer-preview.tsx:59-252 | Handlers are never removed. After a forced reset, a `server-ready` event still runs an earlier cold-start handler, which marks setup complete and shows the url. |
| ContainerSetup.StepDisplayAgrees | modules/webcontainer/components/webcontainer-preview.tsx:322-348 | Icon and label colour always agree: complete, active and pending line up. |
| ContainerSetup.PreviewMachine.constructor | modules/webcontainer/components/webcontainer-preview.tsx:42-54 | The component starts with both guard flags clear, step 0, every loading flag clear, no url, no error and no handlers. |
| ContainerSetup.PreviewMachine.ForceResetupEffect | modules/webcontainer/components/webcontainer-preview.tsx:59-73 | The component's state becomes `ForceReset` of the old state. |
| ContainerSetup.PreviewMachine.TemplateDataEffect | modules/webcontainer/components/webcontainer-preview.tsx:76-81 | The component's state becomes `TemplateChanged` of the old state. |
| ContainerSetup.PreviewMachine.EnterStage | modules/webcontainer/components/webcontainer-preview.tsx:138-139 | The component's state becomes `Advance` of the old state. |
| ContainerSetup.PreviewMachine.Fail | modules/webcontainer/components/webcontainer-preview.tsx:264-279 | The component's state becomes the failure state of the old one: the error set, in-progress cleared, all loading flags clear. |
| ContainerSetup.PreviewMachine.SetupContainer | modules/webcontainer/components/webcontainer-preview.tsx:84-280 | The component's state, stepped field by field, becomes `Setup` of the old state. |
| ContainerSetup.PreviewMachine.ColdStart | modules/webcontainer/components/webcontainer-preview.tsx:137-176 | The component's state, stepped through transform and mount and then handed to the install step, becomes `ColdPath` of the old state: the whole cold run, failures included. |
| ContainerSetup.PreviewMachine.InstallAndServe | modules/webcontainer/components/webcontainer-preview.tsx:178-263 | The component's state, stepped through install, the exit-code check and the start of the server, becomes `InstallAndStart` of the old state. |
| ContainerSetup.PreviewMachine.RunHandler | modules/webcontainer/components/webcontainer-preview.tsx:231-252 | The component's state after one `server-ready` handler is `Fire` of the old state. The reattach handler is at lines 116-129. |
| ContainerSetup.PreviewMachine.ServerReadyEvent | modules/webcontainer/components/webcontainer-preview.tsx:231-252 | Running every registered handler in a loop gives `ServerReady` of the old state. The reattach handler is at lines 116-129. |
| ChatRoute.Field | app/api/chat/route.ts:63-64 | A property is present exactly when the value is an object that has that key. |
| ChatRoute.ValidMessage | app/api/chat/route.ts:66-71 | Only a non-empty string message passes. Every other value, and a missing one, fails. |
| ChatRoute.ValidHistory | app/api/chat/route.ts:73-82 | The following hold:<br>- a missing or non-array history counts as empty;<br>- every kept entry is an object with a string role of `user` or `assistant` and a string content;<br>- every kept entry comes from the history;<br>- every such entry in the history is kept. |
| ChatRoute.ValidHistoryConcat | app/api/chat/route.ts:73-82 | Filtering keeps the original order of the history. |
| ChatRoute.WellFormedHistoryKept | app/api/chat/route.ts:73-82 | A history of well-formed entries is kept whole. |
| ChatRoute.Recent | app/api/chat/route.ts:84 | `slice(-10)` is the suffix of length ten, or the whole list when it is shorter. |
| ChatRoute.ToMessages | app/api/chat/route.ts:86-89 | One message per entry, with that entry's role and content. |
| ChatRoute.OutgoingMessages | app/api/chat/route.ts:84-89 | The outgoing list has between 1 and 11 messages, every role is `user` or `assistant`, and it ends with the new user message. |
| ChatRoute.OutgoingKeepsLastTen | app/api/chat/route.ts:84-89 | The outgoing list is the last ten valid entries, or all of them when there are fewer, in order, followed by the new message. |
| ChatRoute.Render | app/api/chat/route.ts:27 | A message renders as its role, a colon, and its content. |
| ChatRoute.RenderInjective | app/api/chat/route.ts:27 | For roles without a colon, different messages render differently: the role and the content are read back from the rendering. |
| ChatRoute.RenderAll | app/api/chat/route.ts:27 | Each message is rendered as `role:content`, in order. |
| ChatRoute.Prompt | app/api/chat/route.ts:15-28 | The prompt is the system prompt rendered as a `user` message. When there are messages, a blank line follows, then the messages rendered and joined by blank lines. |
| ChatRoute.RenderAllCons | app/api/chat/route.ts:24-27 | Rendering a list with the system message in front renders that message first. |
| ChatRoute.RenderAllSnoc | app/api/chat/route.ts:24-27 | Rendering a list with a message at the end renders that message last. |
| ChatRoute.EndsWithAppend | app/api/chat/route.ts:26-28 | A concatenation ends with its second part. |
| ChatRoute.JoinEndsWithLast | app/api/chat/route.ts:26-28 | A join of two or more parts ends with the separator and the last part. |
| ChatRoute.PromptEndsWithLast | app/api/chat/route.ts:24-28 | The prompt ends with a blank line and the last message's rendering. |
| ChatRoute.EndsWithUserTurn | app/api/chat/route.ts:24-28 | A text ending with a blank line and a rendered user message ends with a blank line, `user:` and the message. |
| ChatRoute.PromptEndsWithUser | app/api/chat/route.ts:24-28 | A message list that ends with a user message gives a prompt that ends with a blank line, `user:` and that message. The message list is built at lines 86-89. |
| ChatRoute.PromptEndsWithMessage | app/api/chat/route.ts:24-28 | The prompt sent for a request ends with a blank line, `user:` and the new message. The message list is built at lines 86-89. |
| ChatRoute.TrimStart | app/api/chat/route.ts:54 | The leading white space is removed, and only it. |
| ChatRoute.TrimEnd | app/api/chat/route.ts:54 | The trailing white space is removed, and only it. |
| ChatRoute.Trim | app/api/chat/route.ts:54 | `trim` never lengthens the text, and leaves no white space at either end. |
| ChatRoute.TrimBlank | app/api/chat/route.ts:54 | `trim` returns the empty string exactly when the text is all white space. |
| ChatRoute.TrimRemovesOnlyEdges | app/api/chat/route.ts:54 | `trim` returns a contiguous slice of the text, and everything before and after that slice is white space. |
| ChatRoute.TrimIdempotent | app/api/chat/route.ts:54 | Trimming twice is trimming once. |
| ChatRoute.Reply | app/api/chat/route.ts:50-58 | The reply is the trimmed `response` exactly when that is a non-empty string. A missing, falsy or non-string response, or a failed call, gives the one generation error. |
| ChatRoute.Post | app/api/chat/route.ts:61-113 | The status is 400 exactly when the body parses, is not null, and its message fails the check; a 400 carries the message-required error. Every 500 carries the generic AI-response error. |
| ChatRoute.BadMessageNeverGenerates | app/api/chat/route.ts:66-71 | A rejected message never reaches the generation service: the response is the same whatever the service would answer. |
| ChatRoute.ValidMessageAsksOnce | app/api/chat/route.ts:84-112 | A valid message is answered from the reply to exactly one prompt, built from the recent valid history and the message. A generated reply gives 200 with the trimmed text; anything else gives 500 with the generation error. |

## Left out

- The raw setters `setOpenFiles`, `setActiveFileId` and `setEditorContent`: they write a field directly and can break the registry invariant. Only `setTemplateData` and `setPlaygroundId` are modelled.
- Toasts, console logging, terminal writes and the `pipeTo` streaming of process output: they are output only.
- The `instance` argument of `handleAddFile` and `handleAddFolder`: it is unused there.
- The `currentPath` argument of `closeFilesInFolder`: it is computed but never used.
- The outcome of `saveTemplateData` for add-folder, delete and rename: it is awaited last, so it changes no state. Only add-file's save and write outcomes decide what follows.
- The deep copy through `JSON.stringify`/`JSON.parse`: values are immutable here, so editing the copy is a value update and the caller's tree cannot change.
- Exceptions other than a rejected save or write inside the tree handlers: the model has no other way for them to throw.
- `transformToWebContainerFormat` is not part of this model. A mount is recorded with the template it was given, and the transform is taken not to throw.
- The asynchronous interleaving of effects, awaits and handlers: every event runs to completion, in the order the host delivers it. `hasInstance` stands for the `instance` prop and `notify` for `onServerReady` being passed.
- The render-time batching of state updates: `stages` records the step and loading flags each stage sets, not the renders that show them.
- The float progress percentage, the loading and error screens, the terminal component and the rest of the JSX.
- The external `error`, `serverUrl` and `isLoading` props: they only choose what is rendered.
- The network call, the model name, the sampling options, `NextResponse` and the timestamps in the chat endpoint. The generation service is a function from the prompt to its JSON answer.
- The message of the runtime's own `TypeError` when a `null` body cannot be destructured: `ChatRoute.Post` returns `None` for those details.
- FileExplorerStore.FileExplorer.OpenFile: requires a tree, because the code computes the id with `templateData!` and would pass `null` otherwise. Every caller in the model has a tree at that point.
- Numbers in the chat JSON: they are integers, since only their type and truthiness matter there.

## Notes on the code's behaviour

- The tree and the container can disagree about where a new file goes. The tree puts it in the folder where the lenient walk stopped, but the container write uses `parentPath` literally. When a segment names no folder, the tree gains the file higher up than the container path says (`PathWalk.WritePathIgnoresWalk`). Empty segments such as `a//b` also pass into the container path unchanged.
- `server-ready` handlers are never removed. Every run of the reattach or the cold path adds one, and they all run on each event. A handler from before a forced reset still marks setup complete (`ContainerSetup.StaleServerReadyCompletes`).
- The reattach path leaves `isSetupInProgress` set forever: its handler never clears it (`ContainerSetup.ServerReadyCompletesOnlyColdStart`). Only a template change or a forced reset reopens the guard.
- A failed run clears `isSetupInProgress`, and that flag is one of the setup effect's dependencies. The guard is then open again (`ContainerSetup.FailureAdmitsRetry`), so the component retries setup without a forced reset.
- Loading flags are merged with the previous ones. Exactly one stage flag per stage holds only when the cold path starts with none set (`ContainerSetup.ColdStagesShowOneFlag`, `ContainerSetup.ColdStagesKeepStaleFlags`).
- Renaming a file onto the name of another open file leaves two sessions with one id (`Sessions.RekeyOntoOpenId`). Ids stay unique only when the new id is not already open.
