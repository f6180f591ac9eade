/** The open-file registry of the file explorer as a value: the ordered
    sessions (tab order), the active id and the `editorContent` mirror, with one
    function per store operation. The store's methods are proved against these
    functions; the lemmas below state what the operations promise. */
module Sessions {
  import opened Wrappers
  import opened Seqs
  import opened TemplateTree

  /** A file open for editing: a snapshot of the file plus its derived id and
      two content slots, the live buffer and the last persisted value. */
  datatype OpenFile = OpenFile(
    id: string,
    filename: string,
    fileExtension: string,
    content: string,
    originalContent: string,
    hasUnsavedChanges: bool)

  datatype Registry = Registry(openFiles: seq<OpenFile>, activeFileId: Option<string>, editorContent: string)

  /** The registry of a fresh store, and after `closeAllFiles`. */
  const Closed := Registry([], None, "")

  predicate IsOpen(sessions: seq<OpenFile>, id: string) {
    exists i :: 0 <= i < |sessions| && sessions[i].id == id
  }

  /** The first session with this id (`openFiles.find((f) => f.id === fileId)`). */
  function FindSession(sessions: seq<OpenFile>, id: string): (r: Option<nat>)
    ensures r.Some? ==> r.value < |sessions| && sessions[r.value].id == id
    ensures r.Some? ==> forall j :: 0 <= j < r.value ==> sessions[j].id != id
    ensures r.None? <==> !IsOpen(sessions, id)
    decreases |sessions|
  {
    if sessions == [] then None
    else if sessions[0].id == id then Some(0)
    else match FindSession(sessions[1..], id)
      case None => None
      case Some(k) => Some(k + 1)
  }

  /** The consistency the store keeps: every dirty flag is exactly "content
      differs from originalContent"; the active id is null exactly when no file
      is open; and an active id names an open session whose live content is the
      editor's content. */
  predicate Valid(r: Registry) {
    && (forall i :: 0 <= i < |r.openFiles| ==>
          r.openFiles[i].hasUnsavedChanges == (r.openFiles[i].content != r.openFiles[i].originalContent))
    && (r.activeFileId.None? <==> r.openFiles == [])
    && (r.activeFileId.None? ==> r.editorContent == "")
    && (r.activeFileId.Some? ==>
          exists i :: 0 <= i < |r.openFiles| && r.openFiles[i].id == r.activeFileId.value
                      && r.openFiles[i].content == r.editorContent)
  }

  predicate UniqueIds(sessions: seq<OpenFile>) {
    forall i, j :: 0 <= i < j < |sessions| ==> sessions[i].id != sessions[j].id
  }

  /** A new session for `file` under `id`: nothing edited yet. */
  function Fresh(id: string, file: TemplateFile): (s: OpenFile)
    ensures s.id == id && s.content == s.originalContent == file.content && !s.hasUnsavedChanges
    ensures s.filename == file.filename && s.fileExtension == file.fileExtension
  {
    OpenFile(id, file.filename, file.fileExtension, file.content, file.content, false)
  }

  /** `openFile` once the id is known: an open id only becomes active and shows
      its live content (its edits survive); otherwise a clean session is appended
      and becomes active. */
  function Open(r: Registry, id: string, file: TemplateFile): (r': Registry)
    ensures r'.activeFileId == Some(id)
    ensures IsOpen(r.openFiles, id) ==>
      r'.openFiles == r.openFiles &&
      r'.editorContent == r.openFiles[FindSession(r.openFiles, id).value].content
    ensures !IsOpen(r.openFiles, id) ==>
      r'.openFiles == r.openFiles + [Fresh(id, file)] && r'.editorContent == file.content
  {
    match FindSession(r.openFiles, id)
    case Some(i) => r.(activeFileId := Some(id), editorContent := r.openFiles[i].content)
    case None => Registry(r.openFiles + [Fresh(id, file)], Some(id), file.content)
  }

  /** Keeps the sessions whose id is not among `ids`. */
  function KeepOtherIds(ids: seq<string>): OpenFile -> bool {
    (f: OpenFile) => f.id !in ids
  }

  /** The registry follows its last session: the active id is that of the last
      open session and the editor shows its content, or nothing is open. */
  predicate TracksLast(r: Registry) {
    if r.openFiles == [] then r.activeFileId == None && r.editorContent == ""
    else
      var last := r.openFiles[|r.openFiles| - 1];
      r.activeFileId == Some(last.id) && r.editorContent == last.content
  }

  /** No session with the id survives the filter `closeFile` applies. */
  lemma FilterDropsId(s: seq<OpenFile>, id: string)
    ensures !IsOpen(Filter(s, KeepOtherIds([id])), id)
  {
    var t := Filter(s, KeepOtherIds([id]));
    forall i | 0 <= i < |t|
      ensures t[i].id != id
    {
      assert KeepOtherIds([id])(t[i]);
    }
  }

  /** `closeFile`: every session with the id goes; closing the active id hands the
      focus to the last remaining session (or to nothing); closing another id
      keeps the focus and the editor content. */
  function Close(r: Registry, id: string): (r': Registry)
    ensures r'.openFiles == Filter(r.openFiles, KeepOtherIds([id]))
    ensures !IsOpen(r'.openFiles, id)
    ensures r.activeFileId == Some(id) ==> TracksLast(r')
    ensures r.activeFileId != Some(id) ==>
      r'.activeFileId == r.activeFileId && r'.editorContent == r.editorContent
  {
    FilterDropsId(r.openFiles, id);
    var remaining := Filter(r.openFiles, KeepOtherIds([id]));
    if r.activeFileId == Some(id) then FocusLast(remaining)
    else Registry(remaining, r.activeFileId, r.editorContent)
  }

  /** The focus hand-over after the active session closes: the last session left
      becomes active and its content goes to the editor; with none left, nothing
      is active and the editor is cleared. */
  function FocusLast(remaining: seq<OpenFile>): (r': Registry)
    ensures r'.openFiles == remaining && TracksLast(r')
  {
    if |remaining| > 0 then
      var last := remaining[|remaining| - 1];
      Registry(remaining, Some(last.id), last.content)
    else Registry(remaining, None, "")
  }

  /** `closeFile` called once per id, in order (the folder-delete cascade): the
      sessions left are exactly the old ones whose id is not among `ids`. */
  function CloseEach(r: Registry, ids: seq<string>): (r': Registry)
    ensures |r'.openFiles| <= |r.openFiles|
    ensures forall i :: 0 <= i < |r'.openFiles| ==> r'.openFiles[i] in r.openFiles && r'.openFiles[i].id !in ids
    ensures forall i :: 0 <= i < |r.openFiles| && r.openFiles[i].id !in ids ==> r.openFiles[i] in r'.openFiles
    decreases |ids|
  {
    if ids == [] then r else CloseEach(Close(r, ids[0]), ids[1..])
  }

  /** `updateFileContent`: only the sessions with the id change; their dirty flag
      is recomputed against `originalContent`; the editor mirrors the new content
      only when the id is the active one. */
  function UpdateContent(r: Registry, id: string, content: string): (r': Registry)
    ensures |r'.openFiles| == |r.openFiles| && r'.activeFileId == r.activeFileId
    ensures forall i :: 0 <= i < |r.openFiles| && r.openFiles[i].id != id ==> r'.openFiles[i] == r.openFiles[i]
    ensures forall i :: 0 <= i < |r.openFiles| && r.openFiles[i].id == id ==>
      && r'.openFiles[i].id == id && r'.openFiles[i].content == content
      && r'.openFiles[i].originalContent == r.openFiles[i].originalContent
      && r'.openFiles[i].hasUnsavedChanges == (content != r.openFiles[i].originalContent)
      && r'.openFiles[i].filename == r.openFiles[i].filename
      && r'.openFiles[i].fileExtension == r.openFiles[i].fileExtension
    ensures r'.editorContent == if r.activeFileId == Some(id) then content else r.editorContent
  {
    var s := r.openFiles;
    var updated := seq(|s|, i requires 0 <= i < |s| =>
      if s[i].id == id then s[i].(content := content, hasUnsavedChanges := content != s[i].originalContent)
      else s[i]);
    Registry(updated, r.activeFileId,
             if r.activeFileId == Some(id) then content else r.editorContent)
  }

  /** The registry half of `handleRenameFile`: sessions under the old id get the
      new id, filename and extension in place, the active id follows them, and
      contents and the editor are left alone. */
  function Rekey(r: Registry, oldId: string, newId: string, newFilename: string, newExtension: string): (r': Registry)
    ensures |r'.openFiles| == |r.openFiles| && r'.editorContent == r.editorContent
    ensures forall i :: 0 <= i < |r.openFiles| && r.openFiles[i].id != oldId ==> r'.openFiles[i] == r.openFiles[i]
    ensures forall i :: 0 <= i < |r.openFiles| && r.openFiles[i].id == oldId ==>
      r'.openFiles[i] == r.openFiles[i].(id := newId, filename := newFilename, fileExtension := newExtension)
    ensures r'.activeFileId == if r.activeFileId == Some(oldId) then Some(newId) else r.activeFileId
  {
    var s := r.openFiles;
    var rekeyed := seq(|s|, i requires 0 <= i < |s| =>
      if s[i].id == oldId then s[i].(id := newId, filename := newFilename, fileExtension := newExtension)
      else s[i]);
    Registry(rekeyed, if r.activeFileId == Some(oldId) then Some(newId) else r.activeFileId, r.editorContent)
  }

  // ---------------------------------------------------------------- invariants

  lemma OpenPreservesValid(r: Registry, id: string, file: TemplateFile)
    requires Valid(r)
    ensures Valid(Open(r, id, file))
  {
    var r' := Open(r, id, file);
    if !IsOpen(r.openFiles, id) {
      var n := |r.openFiles|;
      assert r'.openFiles[n].id == id && r'.openFiles[n].content == r'.editorContent;
    }
  }

  /** `openFile` never opens a second session for an id. */
  lemma OpenPreservesUniqueIds(r: Registry, id: string, file: TemplateFile)
    requires UniqueIds(r.openFiles)
    ensures UniqueIds(Open(r, id, file).openFiles)
  {
  }

  /** Opening the same id twice is opening it once, whatever file the second call names. */
  lemma OpenTwice(r: Registry, id: string, file: TemplateFile, again: TemplateFile)
    requires UniqueIds(r.openFiles)
    ensures Open(Open(r, id, file), id, again) == Open(r, id, file)
  {
    var r1 := Open(r, id, file);
    assert IsOpen(r1.openFiles, id) by {
      if !IsOpen(r.openFiles, id) { assert r1.openFiles[|r.openFiles|].id == id; }
    }
    var i := FindSession(r1.openFiles, id).value;
    if IsOpen(r.openFiles, id) {
      var k := FindSession(r.openFiles, id).value;
      assert i == k;
    } else {
      assert i == |r.openFiles|;
    }
  }

  lemma ClosePreservesValid(r: Registry, id: string)
    requires Valid(r)
    ensures Valid(Close(r, id))
  {
    var r' := Close(r, id);
    FilterPreservesClean(r.openFiles, KeepOtherIds([id]));
    if r.activeFileId.Some? && r.activeFileId != Some(id) {
      var i :| 0 <= i < |r.openFiles| && r.openFiles[i].id == r.activeFileId.value
               && r.openFiles[i].content == r.editorContent;
      assert KeepOtherIds([id])(r.openFiles[i]);
      assert r.openFiles[i] in r'.openFiles;
    }
  }

  /** Filtering keeps the dirty flags right. */
  lemma FilterPreservesClean(s: seq<OpenFile>, keep: OpenFile -> bool)
    requires forall i :: 0 <= i < |s| ==> s[i].hasUnsavedChanges == (s[i].content != s[i].originalContent)
    ensures var t := Filter(s, keep);
      forall i :: 0 <= i < |t| ==> t[i].hasUnsavedChanges == (t[i].content != t[i].originalContent)
  {
    var t := Filter(s, keep);
    forall i | 0 <= i < |t|
      ensures t[i].hasUnsavedChanges == (t[i].content != t[i].originalContent)
    {
      assert t[i] in s;
    }
  }

  /** Closing an id that is not open changes nothing (a stale id is a silent no-op). */
  lemma CloseUnknown(r: Registry, id: string)
    requires Valid(r) && !IsOpen(r.openFiles, id)
    ensures Close(r, id) == r
  {
    FilterKeepsAll(r.openFiles, KeepOtherIds([id]));
  }

  /** Closing never creates two sessions with one id. */
  lemma ClosePreservesUniqueIds(r: Registry, id: string)
    requires UniqueIds(r.openFiles)
    ensures UniqueIds(Close(r, id).openFiles)
  {
    FilterPreservesUnique(r.openFiles, KeepOtherIds([id]));
  }

  lemma {:induction false} FilterPreservesUnique(s: seq<OpenFile>, keep: OpenFile -> bool)
    requires UniqueIds(s)
    ensures UniqueIds(Filter(s, keep))
    decreases |s|
  {
    if s != [] {
      FilterPreservesUnique(s[1..], keep);
      var rest := Filter(s[1..], keep);
      forall j | 0 <= j < |rest| ensures rest[j].id != s[0].id {
        assert rest[j] in s[1..];
      }
    }
  }

  /** A registry that follows its last session still does after a close. */
  lemma CloseKeepsTrackingLast(r: Registry, id: string)
    requires TracksLast(r)
    ensures TracksLast(Close(r, id))
  {
    if r.activeFileId != Some(id) && r.openFiles != [] {
      FilterKeepsLast(r.openFiles, KeepOtherIds([id]));
    }
  }

  lemma {:induction false} CloseEachKeepsTrackingLast(r: Registry, ids: seq<string>)
    requires TracksLast(r)
    ensures TracksLast(CloseEach(r, ids))
    decreases |ids|
  {
    if ids != [] {
      CloseKeepsTrackingLast(r, ids[0]);
      CloseEachKeepsTrackingLast(Close(r, ids[0]), ids[1..]);
    }
  }

  /** Closing a list of ids one by one: exactly the sessions with those ids go,
      the rest stay in order; the focus stays put unless the active id is among
      them, in which case it ends on the last remaining session (or nothing). */
  lemma {:induction false} CloseEachSpec(r: Registry, ids: seq<string>)
    ensures CloseEach(r, ids).openFiles == Filter(r.openFiles, KeepOtherIds(ids))
    ensures r.activeFileId.None? || r.activeFileId.value !in ids ==>
      CloseEach(r, ids).activeFileId == r.activeFileId && CloseEach(r, ids).editorContent == r.editorContent
    ensures r.activeFileId.Some? && r.activeFileId.value in ids ==> TracksLast(CloseEach(r, ids))
    decreases |ids|
  {
    if ids == [] {
      FilterKeepsAll(r.openFiles, KeepOtherIds(ids));
    } else {
      var r1 := Close(r, ids[0]);
      CloseEachSpec(r1, ids[1..]);
      assert ids == [ids[0]] + ids[1..];
      FilterFilter(r.openFiles, KeepOtherIds([ids[0]]), KeepOtherIds(ids[1..]), KeepOtherIds(ids));
      if r.activeFileId == Some(ids[0]) {
        CloseEachKeepsTrackingLast(r1, ids[1..]);
      }
    }
  }

  /** Closing the ids of `a` and then those of `b` is closing those of `a + b`. */
  lemma {:induction false} CloseEachConcat(r: Registry, a: seq<string>, b: seq<string>)
    ensures CloseEach(r, a + b) == CloseEach(CloseEach(r, a), b)
    decreases |a|
  {
    if a == [] {
      assert a + b == b;
    } else {
      assert (a + b)[0] == a[0] && (a + b)[1..] == a[1..] + b;
      CloseEachConcat(Close(r, a[0]), a[1..], b);
    }
  }

  lemma {:induction false} CloseEachPreservesValid(r: Registry, ids: seq<string>)
    requires Valid(r)
    ensures Valid(CloseEach(r, ids))
    decreases |ids|
  {
    if ids != [] {
      ClosePreservesValid(r, ids[0]);
      CloseEachPreservesValid(Close(r, ids[0]), ids[1..]);
    }
  }

  lemma UpdatePreservesValid(r: Registry, id: string, content: string)
    requires Valid(r)
    ensures Valid(UpdateContent(r, id, content))
  {
    var r' := UpdateContent(r, id, content);
    if r.activeFileId.Some? {
      var i :| 0 <= i < |r.openFiles| && r.openFiles[i].id == r.activeFileId.value
               && r.openFiles[i].content == r.editorContent;
      assert r'.openFiles[i].id == r.activeFileId.value && r'.openFiles[i].content == r'.editorContent;
    }
  }

  /** Editing a session back to its original content makes it clean again. */
  lemma UpdateBackToOriginal(r: Registry, id: string, content: string, i: nat)
    requires i < |r.openFiles| && r.openFiles[i].id == id
    ensures var r2 := UpdateContent(UpdateContent(r, id, content), id, r.openFiles[i].originalContent);
      !r2.openFiles[i].hasUnsavedChanges && r2.openFiles[i].content == r.openFiles[i].originalContent
  {
  }

  lemma RekeyPreservesValid(r: Registry, oldId: string, newId: string, newFilename: string, newExtension: string)
    requires Valid(r)
    ensures Valid(Rekey(r, oldId, newId, newFilename, newExtension))
  {
    var r' := Rekey(r, oldId, newId, newFilename, newExtension);
    if r.activeFileId.Some? {
      var i :| 0 <= i < |r.openFiles| && r.openFiles[i].id == r.activeFileId.value
               && r.openFiles[i].content == r.editorContent;
      assert r'.openFiles[i].id == r'.activeFileId.value && r'.openFiles[i].content == r'.editorContent;
    }
  }

  /** A rename never loses a session: each one that was open under the old id is
      open under the new id, at the same tab position, with the same buffers. */
  lemma RekeyLosesNoSession(r: Registry, oldId: string, newId: string, newFilename: string, newExtension: string)
    requires oldId != newId
    ensures var r' := Rekey(r, oldId, newId, newFilename, newExtension);
      && !IsOpen(r'.openFiles, oldId)
      && (IsOpen(r.openFiles, oldId) ==> IsOpen(r'.openFiles, newId))
      && |r'.openFiles| == |r.openFiles|
      && forall i :: 0 <= i < |r.openFiles| && r.openFiles[i].id == oldId ==>
        && r'.openFiles[i].id == newId && r'.openFiles[i].content == r.openFiles[i].content
        && r'.openFiles[i].originalContent == r.openFiles[i].originalContent
        && r'.openFiles[i].hasUnsavedChanges == r.openFiles[i].hasUnsavedChanges
  {
    var r' := Rekey(r, oldId, newId, newFilename, newExtension);
    if IsOpen(r.openFiles, oldId) {
      var i :| 0 <= i < |r.openFiles| && r.openFiles[i].id == oldId;
      assert r'.openFiles[i].id == newId;
    }
  }

  /** Re-keying keeps ids unique as long as the new id is not already taken by
      another open session. */
  lemma RekeyPreservesUniqueIds(r: Registry, oldId: string, newId: string, newFilename: string, newExtension: string)
    requires UniqueIds(r.openFiles)
    requires oldId == newId || !IsOpen(r.openFiles, newId)
    ensures UniqueIds(Rekey(r, oldId, newId, newFilename, newExtension).openFiles)
  {
  }

  /** The guard is needed: renaming onto the id of another open file leaves two
      sessions under one id. */
  lemma RekeyOntoOpenId(r: Registry, oldId: string, newId: string, newFilename: string, newExtension: string)
    requires oldId != newId && IsOpen(r.openFiles, oldId) && IsOpen(r.openFiles, newId)
    ensures !UniqueIds(Rekey(r, oldId, newId, newFilename, newExtension).openFiles)
  {
    var r' := Rekey(r, oldId, newId, newFilename, newExtension);
    var i :| 0 <= i < |r.openFiles| && r.openFiles[i].id == oldId;
    var j :| 0 <= j < |r.openFiles| && r.openFiles[j].id == newId;
    assert r'.openFiles[i].id == newId == r'.openFiles[j].id;
    if i < j {} else {}
  }
}
