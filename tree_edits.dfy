/** The structural edits of the file explorer, each applied to the folder a
    cursor addresses (the folder the lenient walk resolved) and to nothing else. */
module TreeEdits {
  import opened Wrappers
  import opened Seqs
  import opened TemplateTree

  /** The first item of `items` that is a file with this name and extension
      (`items.findIndex` with `"filename" in item && ...`). */
  function FindFile(items: seq<TemplateItem>, filename: string, fileExtension: string): (r: Option<nat>)
    ensures r.Some? ==> r.value < |items| && IsFileNamed(items[r.value], filename, fileExtension)
    ensures r.Some? ==> forall j :: 0 <= j < r.value ==> !IsFileNamed(items[j], filename, fileExtension)
    ensures r.None? <==> forall j :: 0 <= j < |items| ==> !IsFileNamed(items[j], filename, fileExtension)
    decreases |items|
  {
    if items == [] then None
    else if IsFileNamed(items[0], filename, fileExtension) then Some(0)
    else match FindFile(items[1..], filename, fileExtension)
      case None => None
      case Some(k) => Some(k + 1)
  }

  /** `push`: the new item goes at the end of the addressed folder. */
  function AddItem(root: TemplateFolder, c: seq<nat>, item: TemplateItem): (r: TemplateFolder)
    requires IsCursor(root, c)
    ensures IsCursor(r, c)
    ensures FolderAt(r, c).folderName == FolderAt(root, c).folderName
    ensures FolderAt(r, c).items == FolderAt(root, c).items + [item]
  {
    var target := FolderAt(root, c);
    ReplaceAt(root, c, target.(items := target.items + [item]))
  }

  /** The items kept when deleting a file: every folder, and every file whose name
      or extension differs. */
  function KeepUnlessFile(filename: string, fileExtension: string): TemplateItem -> bool {
    item => !IsFileNamed(item, filename, fileExtension)
  }

  /** The items kept when deleting a folder: every file, and every folder with another name. */
  function KeepUnlessFolder(name: string): TemplateItem -> bool {
    item => !IsFolderNamed(item, name)
  }

  /** Deleting a file removes every same-named file of the addressed folder,
      duplicates included, and keeps every other item, in order (the items are
      the `filter` of the old ones, so `FilterConcat` applies). */
  function DeleteFile(root: TemplateFolder, c: seq<nat>, file: TemplateFile): (r: TemplateFolder)
    requires IsCursor(root, c)
    ensures IsCursor(r, c)
    ensures var before, after := FolderAt(root, c).items, FolderAt(r, c).items;
      && (forall j :: 0 <= j < |after| ==> !IsFileNamed(after[j], file.filename, file.fileExtension) && after[j] in before)
      && (forall j :: 0 <= j < |before| && !IsFileNamed(before[j], file.filename, file.fileExtension) ==> before[j] in after)
    ensures FolderAt(r, c).items == Filter(FolderAt(root, c).items, KeepUnlessFile(file.filename, file.fileExtension))
  {
    var target := FolderAt(root, c);
    ReplaceAt(root, c, target.(items := Filter(target.items, KeepUnlessFile(file.filename, file.fileExtension))))
  }

  /** Deleting a folder removes every folder of that name at the addressed folder
      and keeps every other item, in order. */
  function DeleteFolder(root: TemplateFolder, c: seq<nat>, folder: TemplateFolder): (r: TemplateFolder)
    requires IsCursor(root, c)
    ensures IsCursor(r, c)
    ensures var before, after := FolderAt(root, c).items, FolderAt(r, c).items;
      && (forall j :: 0 <= j < |after| ==> !IsFolderNamed(after[j], folder.folderName) && after[j] in before)
      && (forall j :: 0 <= j < |before| && !IsFolderNamed(before[j], folder.folderName) ==> before[j] in after)
    ensures FolderAt(r, c).items == Filter(FolderAt(root, c).items, KeepUnlessFolder(folder.folderName))
  {
    var target := FolderAt(root, c);
    ReplaceAt(root, c, target.(items := Filter(target.items, KeepUnlessFolder(folder.folderName))))
  }

  /** Renaming the file at index `i`: same index, same content, new name and
      extension; every other item, later duplicates included, is left alone. */
  function RenameFile(root: TemplateFolder, c: seq<nat>, i: nat, newFilename: string, newExtension: string): (r: TemplateFolder)
    requires IsCursor(root, c) && i < |FolderAt(root, c).items| && FolderAt(root, c).items[i].FileItem?
    ensures IsCursor(r, c)
    ensures var before, after := FolderAt(root, c).items, FolderAt(r, c).items;
      && |after| == |before|
      && after[i] == FileItem(TemplateFile(newFilename, newExtension, before[i].file.content))
      && forall j :: 0 <= j < |before| && j != i ==> after[j] == before[j]
  {
    var target := FolderAt(root, c);
    var renamed := target.items[i].file.(filename := newFilename, fileExtension := newExtension);
    ReplaceAt(root, c, target.(items := target.items[i := FileItem(renamed)]))
  }

  /** Renaming the folder at index `i`: same index, same `items`, new name. */
  function RenameFolder(root: TemplateFolder, c: seq<nat>, i: nat, newFolderName: string): (r: TemplateFolder)
    requires IsCursor(root, c) && i < |FolderAt(root, c).items| && FolderAt(root, c).items[i].FolderItem?
    ensures IsCursor(r, c)
    ensures var before, after := FolderAt(root, c).items, FolderAt(r, c).items;
      && |after| == |before|
      && after[i] == FolderItem(TemplateFolder(newFolderName, before[i].folder.items))
      && forall j :: 0 <= j < |before| && j != i ==> after[j] == before[j]
  {
    var target := FolderAt(root, c);
    var renamed := target.items[i].folder.(folderName := newFolderName);
    ReplaceAt(root, c, target.(items := target.items[i := FolderItem(renamed)]))
  }

  /** Deleting a file that is not there changes nothing. */
  lemma DeleteMissingFile(root: TemplateFolder, c: seq<nat>, file: TemplateFile)
    requires IsCursor(root, c)
    requires FindFile(FolderAt(root, c).items, file.filename, file.fileExtension).None?
    ensures DeleteFile(root, c, file) == root
  {
    var target := FolderAt(root, c);
    FilterKeepsAll(target.items, KeepUnlessFile(file.filename, file.fileExtension));
    assert target.(items := target.items) == target;
    ReplaceAtSame(root, c);
  }

  /** Putting back the folder a cursor addresses gives the same tree. */
  lemma {:induction false} ReplaceAtSame(root: TemplateFolder, c: seq<nat>)
    requires IsCursor(root, c)
    ensures ReplaceAt(root, c, FolderAt(root, c)) == root
    decreases |c|
  {
    if c != [] {
      ReplaceAtSame(root.items[c[0]].folder, c[1..]);
      assert root.items[c[0] := FolderItem(root.items[c[0]].folder)] == root.items;
    }
  }

  /** Renaming a file and then renaming it back restores the tree. */
  lemma RenameFileBack(root: TemplateFolder, c: seq<nat>, i: nat, newFilename: string, newExtension: string)
    requires IsCursor(root, c) && i < |FolderAt(root, c).items| && FolderAt(root, c).items[i].FileItem?
    ensures var old_ := FolderAt(root, c).items[i].file;
      var r := RenameFile(root, c, i, newFilename, newExtension);
      RenameFile(r, c, i, old_.filename, old_.fileExtension) == root
  {
    var target := FolderAt(root, c);
    var r := RenameFile(root, c, i, newFilename, newExtension);
    var back := RenameFile(r, c, i, target.items[i].file.filename, target.items[i].file.fileExtension);
    ReplaceAtTwice(root, c, FolderAt(r, c), FolderAt(back, c));
    assert FolderAt(back, c).items == target.items;
    assert FolderAt(back, c) == target;
    ReplaceAtSame(root, c);
  }

  /** Two replacements at the same cursor are the last one. */
  lemma {:induction false} ReplaceAtTwice(root: TemplateFolder, c: seq<nat>, f: TemplateFolder, g: TemplateFolder)
    requires IsCursor(root, c)
    ensures ReplaceAt(ReplaceAt(root, c, f), c, g) == ReplaceAt(root, c, g)
    decreases |c|
  {
    if c != [] {
      ReplaceAtTwice(root.items[c[0]].folder, c[1..], f, g);
    }
  }
}
