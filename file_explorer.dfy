/** The file-explorer store: one object holding the template tree, the open
    sessions, the active id and the editor content, with the store's actions as
    methods. Every tree edit walks `parentPath` leniently, edits a copy of the
    tree at the folder it reached, stores the copy and hands it to the
    persistence callback; the session actions keep the registry `Valid`. */
module FileExplorerStore {
  import opened Wrappers
  import opened TemplateTree
  import opened PathWalk
  import opened TreeEdits
  import opened Sessions

  class FileExplorer {
    /** `generateFileId(file, tree)`: defined outside this model, so any function will do. */
    const generateFileId: (TemplateFile, TemplateFolder) -> string

    var playgroundId: string
    var templateData: Option<TemplateFolder>
    var openFiles: seq<OpenFile>
    var activeFileId: Option<string>
    var editorContent: string
    /** Every tree handed to `saveTemplateData`, in call order. */
    var saved: seq<TemplateFolder>
    /** Every `(path, content)` handed to `writeFileSync`, in call order. */
    var written: seq<(string, string)>

    /** The registry part of the store. */
    function State(): Registry
      reads this
    {
      Registry(openFiles, activeFileId, editorContent)
    }

    ghost predicate Valid()
      reads this
    {
      Sessions.Valid(State())
    }

    /** The ids of `files`, computed against `tree`. */
    function FileIds(files: seq<TemplateFile>, tree: TemplateFolder): (ids: seq<string>)
      ensures |ids| == |files|
      ensures forall i :: 0 <= i < |files| ==> ids[i] == generateFileId(files[i], tree)
    {
      seq(|files|, i requires 0 <= i < |files| => generateFileId(files[i], tree))
    }

    lemma FileIdsConcat(a: seq<TemplateFile>, b: seq<TemplateFile>, tree: TemplateFolder)
      ensures FileIds(a + b, tree) == FileIds(a, tree) + FileIds(b, tree)
    {
    }

    constructor (generateFileId: (TemplateFile, TemplateFolder) -> string)
      ensures this.generateFileId == generateFileId
      ensures playgroundId == "" && templateData == None && State() == Closed
      ensures saved == [] && written == []
      ensures Valid()
    {
      this.generateFileId := generateFileId;
      playgroundId := "";
      templateData := None;
      openFiles := [];
      activeFileId := None;
      editorContent := "";
      saved := [];
      written := [];
    }

    /** `setTemplateData`: loads (or unloads) the tree; the sessions are not touched. */
    method SetTemplateData(data: Option<TemplateFolder>)
      modifies this
      ensures templateData == data
      ensures State() == old(State()) && playgroundId == old(playgroundId)
      ensures saved == old(saved) && written == old(written)
    {
      templateData := data;
    }

    method SetPlaygroundId(id: string)
      modifies this
      ensures playgroundId == id
      ensures templateData == old(templateData) && State() == old(State())
      ensures saved == old(saved) && written == old(written)
    {
      playgroundId := id;
    }

    /** `openFile`: the id is computed against the current tree (which the source
        asserts is loaded). */
    method OpenFile(file: TemplateFile)
      requires Valid() && templateData.Some?
      modifies this
      ensures Valid()
      ensures State() == Open(old(State()), generateFileId(file, old(templateData).value), file)
      ensures templateData == old(templateData) && playgroundId == old(playgroundId)
      ensures saved == old(saved) && written == old(written)
    {
      OpenPreservesValid(State(), generateFileId(file, templateData.value), file);
      var fileId := generateFileId(file, templateData.value);
      var existing := FindSession(openFiles, fileId);
      if existing.Some? {
        activeFileId, editorContent := Some(fileId), openFiles[existing.value].content;
        return;
      }
      var newOpenFile := Sessions.OpenFile(fileId, file.filename, file.fileExtension, file.content, file.content, false);
      openFiles, activeFileId, editorContent := openFiles + [newOpenFile], Some(fileId), file.content;
    }

    /** `closeFile`. */
    method CloseFile(fileId: string)
      requires Valid()
      modifies this
      ensures Valid()
      ensures State() == Close(old(State()), fileId)
      ensures templateData == old(templateData) && playgroundId == old(playgroundId)
      ensures saved == old(saved) && written == old(written)
    {
      ClosePreservesValid(State(), fileId);
      var newFiles := Seqs.Filter(openFiles, KeepOtherIds([fileId]));
      var newActiveFileId := activeFileId;
      var newEditorContent := editorContent;
      if activeFileId == Some(fileId) {
        if |newFiles| > 0 {
          var lastFile := newFiles[|newFiles| - 1];
          newActiveFileId, newEditorContent := Some(lastFile.id), lastFile.content;
        } else {
          newActiveFileId, newEditorContent := None, "";
        }
      }
      openFiles, activeFileId, editorContent := newFiles, newActiveFileId, newEditorContent;
    }

    /** `closeAllFiles`. */
    method CloseAllFiles()
      modifies this
      ensures Valid()
      ensures State() == Closed
      ensures templateData == old(templateData) && playgroundId == old(playgroundId)
      ensures saved == old(saved) && written == old(written)
    {
      openFiles, activeFileId, editorContent := [], None, "";
    }

    /** `updateFileContent`. */
    method UpdateFileContent(fileId: string, content: string)
      requires Valid()
      modifies this
      ensures Valid()
      ensures State() == UpdateContent(old(State()), fileId, content)
      ensures templateData == old(templateData) && playgroundId == old(playgroundId)
      ensures saved == old(saved) && written == old(written)
    {
      UpdatePreservesValid(State(), fileId, content);
      var s := openFiles;
      openFiles := seq(|s|, i requires 0 <= i < |s| =>
        if s[i].id == fileId then s[i].(content := content, hasUnsavedChanges := content != s[i].originalContent)
        else s[i]);
      if activeFileId == Some(fileId) {
        editorContent := content;
      }
    }

    /** `handleAddFile`. The tree is stored before the save, so a failed save (or a
        failed write) keeps the new tree and only skips what follows it: the write
        and the opening of the new file. `writer` is `None` when no
        `writeFileSync` is passed, otherwise what the call does. */
    method HandleAddFile(newFile: TemplateFile, parentPath: string, writer: Option<Outcome>, save: Outcome)
      requires Valid()
      modifies this
      ensures Valid()
      ensures old(templateData).None? ==> unchanged(this)
      ensures old(templateData).Some? ==>
        var tree := old(templateData).value;
        var updated := AddItem(tree, Resolve(tree, Split(parentPath, '/')), FileItem(newFile));
        var opens := save.Pass? && (writer.None? || writer.value.Pass?);
        && templateData == Some(updated)
        && saved == old(saved) + [updated]
        && written == old(written) +
             (if save.Pass? && writer.Some? then [(WritePath(parentPath, newFile), newFile.content)] else [])
        && State() == (if opens then Open(old(State()), generateFileId(newFile, updated), newFile) else old(State()))
      ensures playgroundId == old(playgroundId)
    {
      if templateData.None? {
        return;
      }
      var cursor := ResolveFolder(templateData.value, parentPath);
      var updated := AddItem(templateData.value, cursor, FileItem(newFile));
      templateData := Some(updated);
      saved := saved + [updated];
      if save.Fail? {
        return;
      }
      if writer.Some? {
        written := written + [(WritePath(parentPath, newFile), newFile.content)];
        if writer.value.Fail? {
          return;
        }
      }
      OpenFile(newFile);
    }

    /** `handleAddFolder`; the save comes last, so its outcome changes nothing here. */
    method HandleAddFolder(newFolder: TemplateFolder, parentPath: string)
      requires Valid()
      modifies this
      ensures Valid()
      ensures old(templateData).None? ==> unchanged(this)
      ensures old(templateData).Some? ==>
        var tree := old(templateData).value;
        var updated := AddItem(tree, Resolve(tree, Split(parentPath, '/')), FolderItem(newFolder));
        && templateData == Some(updated)
        && saved == old(saved) + [updated]
      ensures State() == old(State()) && written == old(written) && playgroundId == old(playgroundId)
    {
      if templateData.None? {
        return;
      }
      var cursor := ResolveFolder(templateData.value, parentPath);
      var updated := AddItem(templateData.value, cursor, FolderItem(newFolder));
      templateData := Some(updated);
      saved := saved + [updated];
    }

    /** `handleDeleteFile`: the id is computed against the tree before the edit,
        and its session is closed when it is open. */
    method HandleDeleteFile(file: TemplateFile, parentPath: string)
      requires Valid()
      modifies this
      ensures Valid()
      ensures old(templateData).None? ==> unchanged(this)
      ensures old(templateData).Some? ==>
        var tree := old(templateData).value;
        var updated := DeleteFile(tree, Resolve(tree, Split(parentPath, '/')), file);
        var fileId := generateFileId(file, tree);
        && templateData == Some(updated)
        && saved == old(saved) + [updated]
        && State() == (if IsOpen(old(openFiles), fileId) then Close(old(State()), fileId) else old(State()))
      ensures written == old(written) && playgroundId == old(playgroundId)
    {
      if templateData.None? {
        return;
      }
      var tree := templateData.value;
      var cursor := ResolveFolder(tree, parentPath);
      var updated := DeleteFile(tree, cursor, file);
      var fileId := generateFileId(file, tree);
      var openFile := FindSession(openFiles, fileId);
      assert openFile.Some? <==> IsOpen(openFiles, fileId);
      if openFile.Some? {
        CloseFile(fileId);
      }
      templateData := Some(updated);
      saved := saved + [updated];
    }

    /** `closeFilesInFolder`: `closeFile` on the id (against `tree`) of every file
        nested under `folder`, depth first. */
    method CloseFilesInFolder(folder: TemplateFolder, tree: TemplateFolder)
      requires Valid()
      modifies this
      ensures Valid()
      ensures State() == CloseEach(old(State()), FileIds(FilesIn(folder), tree))
      ensures templateData == old(templateData) && playgroundId == old(playgroundId)
      ensures saved == old(saved) && written == old(written)
      decreases folder
    {
      for i := 0 to |folder.items|
        invariant Valid()
        invariant State() == CloseEach(old(State()), FileIds(FilesUpTo(folder, i), tree))
        invariant templateData == old(templateData) && playgroundId == old(playgroundId)
        invariant saved == old(saved) && written == old(written)
      {
        ghost var before := State();
        match folder.items[i] {
          case FileItem(f) =>
            CloseFile(generateFileId(f, tree));
            CloseFileItem(before, folder, i, tree);
          case FolderItem(sub) =>
            CloseFilesInFolder(sub, tree);
        }
        CloseItemAfter(old(State()), folder, i, tree);
      }
    }

    /** Closing the ids under the first `i + 1` items is closing those under the
        first `i` items and then those under item `i`. */
    lemma CloseItemAfter(s: Registry, folder: TemplateFolder, i: nat, tree: TemplateFolder)
      requires i < |folder.items|
      ensures CloseEach(s, FileIds(FilesUpTo(folder, i + 1), tree))
        == CloseEach(CloseEach(s, FileIds(FilesUpTo(folder, i), tree)), FileIds(ItemFiles(folder, i), tree))
    {
      FileIdsConcat(FilesUpTo(folder, i), ItemFiles(folder, i), tree);
      CloseEachConcat(s, FileIds(FilesUpTo(folder, i), tree), FileIds(ItemFiles(folder, i), tree));
    }

    /** Closing the ids under a file item is closing that file's id. */
    lemma CloseFileItem(s: Registry, folder: TemplateFolder, i: nat, tree: TemplateFolder)
      requires i < |folder.items| && folder.items[i].FileItem?
      ensures CloseEach(s, FileIds(ItemFiles(folder, i), tree)) == Close(s, generateFileId(folder.items[i].file, tree))
    {
      assert FileIds(ItemFiles(folder, i), tree) == [generateFileId(folder.items[i].file, tree)];
    }

    /** `handleDeleteFolder`: removes the folders of that name at the resolved
        parent and closes the session of every file nested under the folder
        passed in, ids computed against the tree before the edit. */
    method HandleDeleteFolder(folder: TemplateFolder, parentPath: string)
      requires Valid()
      modifies this
      ensures Valid()
      ensures old(templateData).None? ==> unchanged(this)
      ensures old(templateData).Some? ==>
        var tree := old(templateData).value;
        var updated := DeleteFolder(tree, Resolve(tree, Split(parentPath, '/')), folder);
        && templateData == Some(updated)
        && saved == old(saved) + [updated]
        && State() == CloseEach(old(State()), FileIds(FilesIn(folder), tree))
      ensures written == old(written) && playgroundId == old(playgroundId)
    {
      if templateData.None? {
        return;
      }
      var tree := templateData.value;
      var cursor := ResolveFolder(tree, parentPath);
      var updated := DeleteFolder(tree, cursor, folder);
      CloseFilesInFolder(folder, tree);
      templateData := Some(updated);
      saved := saved + [updated];
    }

    /** `handleRenameFile`: both ids are computed against the tree before the
        edit; only the first matching file is renamed, and only then are the
        tree, the sessions and the persistence call touched. */
    method HandleRenameFile(file: TemplateFile, newFilename: string, newExtension: string, parentPath: string)
      requires Valid()
      modifies this
      ensures Valid()
      ensures old(templateData).None? ==> unchanged(this)
      ensures old(templateData).Some? ==>
        var tree := old(templateData).value;
        var cursor := Resolve(tree, Split(parentPath, '/'));
        var index := FindFile(FolderAt(tree, cursor).items, file.filename, file.fileExtension);
        var oldId := generateFileId(file, tree);
        var newId := generateFileId(file.(filename := newFilename, fileExtension := newExtension), tree);
        if index.None? then unchanged(this)
        else
          var updated := RenameFile(tree, cursor, index.value, newFilename, newExtension);
          && templateData == Some(updated)
          && saved == old(saved) + [updated]
          && State() == Rekey(old(State()), oldId, newId, newFilename, newExtension)
      ensures written == old(written) && playgroundId == old(playgroundId)
    {
      if templateData.None? {
        return;
      }
      var tree := templateData.value;
      var oldFileId := generateFileId(file, tree);
      var newFileId := generateFileId(file.(filename := newFilename, fileExtension := newExtension), tree);
      var cursor := ResolveFolder(tree, parentPath);
      var fileIndex := FindFile(FolderAt(tree, cursor).items, file.filename, file.fileExtension);
      if fileIndex.Some? {
        var updated := RenameFile(tree, cursor, fileIndex.value, newFilename, newExtension);
        RekeySessions(oldFileId, newFileId, newFilename, newExtension);
        templateData := Some(updated);
        saved := saved + [updated];
      }
    }

    /** The session part of `handleRenameFile`: sessions with the old id take the
        new id and names, and the active id follows. */
    method RekeySessions(oldId: string, newId: string, newFilename: string, newExtension: string)
      requires Valid()
      modifies this
      ensures Valid()
      ensures State() == Rekey(old(State()), oldId, newId, newFilename, newExtension)
      ensures templateData == old(templateData) && playgroundId == old(playgroundId)
      ensures saved == old(saved) && written == old(written)
    {
      RekeyPreservesValid(State(), oldId, newId, newFilename, newExtension);
      var s := openFiles;
      openFiles := seq(|s|, i requires 0 <= i < |s| =>
        if s[i].id == oldId then s[i].(id := newId, filename := newFilename, fileExtension := newExtension)
        else s[i]);
      activeFileId := if activeFileId == Some(oldId) then Some(newId) else activeFileId;
    }

    /** `handleRenameFolder`: renames the first folder of that name at the
        resolved parent; the sessions are not touched. */
    method HandleRenameFolder(folder: TemplateFolder, newFolderName: string, parentPath: string)
      requires Valid()
      modifies this
      ensures Valid()
      ensures old(templateData).None? ==> unchanged(this)
      ensures old(templateData).Some? ==>
        var tree := old(templateData).value;
        var cursor := Resolve(tree, Split(parentPath, '/'));
        var index := FindFolder(FolderAt(tree, cursor).items, folder.folderName);
        if index.None? then unchanged(this)
        else
          var updated := RenameFolder(tree, cursor, index.value, newFolderName);
          && templateData == Some(updated)
          && saved == old(saved) + [updated]
      ensures State() == old(State()) && written == old(written) && playgroundId == old(playgroundId)
    {
      if templateData.None? {
        return;
      }
      var tree := templateData.value;
      var cursor := ResolveFolder(tree, parentPath);
      var folderIndex := FindFolder(FolderAt(tree, cursor).items, folder.folderName);
      if folderIndex.Some? {
        var updated := RenameFolder(tree, cursor, folderIndex.value, newFolderName);
        templateData := Some(updated);
        saved := saved + [updated];
      }
    }
  }
}
