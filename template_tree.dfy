/** The virtual file tree of a playground: `TemplateFolder` and `TemplateFile`
    nodes, index paths ("cursors") that address a folder inside a tree, and the
    one primitive every structural edit is made of: replacing the folder a
    cursor addresses and leaving every other node as it was. */
module TemplateTree {

  /** A leaf of the tree. */
  datatype TemplateFile = TemplateFile(filename: string, fileExtension: string, content: string)

  /** An inner node; `items` is kept in display order. */
  datatype TemplateFolder = TemplateFolder(folderName: string, items: seq<TemplateItem>)

  /** An entry of `items`: a file (it has a `filename`) or a folder (it has a `folderName`). */
  datatype TemplateItem = FileItem(file: TemplateFile) | FolderItem(folder: TemplateFolder)

  predicate IsFolderNamed(item: TemplateItem, name: string) {
    item.FolderItem? && item.folder.folderName == name
  }

  predicate IsFileNamed(item: TemplateItem, filename: string, fileExtension: string) {
    item.FileItem? && item.file.filename == filename && item.file.fileExtension == fileExtension
  }

  /** `c` is a sequence of indices that leads, one folder at a time, from `root`
      to a folder of the tree. */
  predicate IsCursor(root: TemplateFolder, c: seq<nat>)
    decreases |c|
  {
    c == [] ||
    (c[0] < |root.items| && root.items[c[0]].FolderItem? && IsCursor(root.items[c[0]].folder, c[1..]))
  }

  /** The folder that cursor `c` addresses. */
  function FolderAt(root: TemplateFolder, c: seq<nat>): TemplateFolder
    requires IsCursor(root, c)
    decreases |c|
  {
    if c == [] then root else FolderAt(root.items[c[0]].folder, c[1..])
  }

  /** Stepping into a sub-folder of the addressed folder gives a cursor of that sub-folder. */
  lemma {:induction false} CursorExtend(root: TemplateFolder, c: seq<nat>, i: nat)
    requires IsCursor(root, c)
    requires i < |FolderAt(root, c).items| && FolderAt(root, c).items[i].FolderItem?
    ensures IsCursor(root, c + [i])
    ensures FolderAt(root, c + [i]) == FolderAt(root, c).items[i].folder
    decreases |c|
  {
    if c == [] {
      assert c + [i] == [i];
      assert [i][1..] == [];
    } else {
      assert (c + [i])[1..] == c[1..] + [i];
      CursorExtend(root.items[c[0]].folder, c[1..], i);
    }
  }

  /** The tree `root` with the folder at `c` replaced by `f`: the value-level
      counterpart of editing the deep copy through `currentFolder`. */
  function ReplaceAt(root: TemplateFolder, c: seq<nat>, f: TemplateFolder): (r: TemplateFolder)
    requires IsCursor(root, c)
    ensures IsCursor(r, c) && FolderAt(r, c) == f
    ensures c != [] ==> r.folderName == root.folderName && |r.items| == |root.items|
    decreases |c|
  {
    if c == [] then f
    else
      var child := ReplaceAt(root.items[c[0]].folder, c[1..], f);
      var r := root.(items := root.items[c[0] := FolderItem(child)]);
      assert c == [c[0]] + c[1..];
      r
  }

  /** Every folder whose cursor neither leads to nor lies under `c` is untouched by
      `ReplaceAt(root, c, f)`, and is still reached by the same cursor. */
  lemma {:induction false} ReplaceAtFrame(root: TemplateFolder, c: seq<nat>, f: TemplateFolder, d: seq<nat>)
    requires IsCursor(root, c) && IsCursor(root, d)
    requires !(d <= c) && !(c <= d)
    ensures IsCursor(ReplaceAt(root, c, f), d)
    ensures FolderAt(ReplaceAt(root, c, f), d) == FolderAt(root, d)
    decreases |c|
  {
    var r := ReplaceAt(root, c, f);
    assert c != [] && d != [];
    if c[0] != d[0] {
      assert r.items[d[0]] == root.items[d[0]];
    } else {
      ReplaceAtFrame(root.items[c[0]].folder, c[1..], f, d[1..]);
    }
  }

  /** A folder on the way to `c` keeps its name and every item except the one the
      path goes through, which stays a folder at the same index. */
  lemma {:induction false} ReplaceAtAncestor(root: TemplateFolder, c: seq<nat>, f: TemplateFolder, d: seq<nat>)
    requires IsCursor(root, c) && d < c
    ensures IsCursor(root, d) && IsCursor(ReplaceAt(root, c, f), d)
    ensures var before, after := FolderAt(root, d), FolderAt(ReplaceAt(root, c, f), d);
      && after.folderName == before.folderName
      && |after.items| == |before.items|
      && c[|d|] < |after.items| && after.items[c[|d|]].FolderItem?
      && forall j :: 0 <= j < |before.items| && j != c[|d|] ==> after.items[j] == before.items[j]
    decreases |d|
  {
    if d != [] {
      assert d[1..] < c[1..] by { assert d == [d[0]] + d[1..] && c == [c[0]] + c[1..]; }
      ReplaceAtAncestor(root.items[c[0]].folder, c[1..], f, d[1..]);
    }
  }

  /** The files nested at any depth under `folder`, depth first, in `items` order:
      every file item, and every file under every sub-folder item, is listed. */
  function FilesIn(folder: TemplateFolder): (r: seq<TemplateFile>)
    ensures forall i :: 0 <= i < |folder.items| && folder.items[i].FileItem? ==> folder.items[i].file in r
    ensures forall i, x :: 0 <= i < |folder.items| && x in ItemFiles(folder, i) ==> x in r
    decreases folder, 1
  {
    assert forall i :: 0 <= i < |folder.items| && folder.items[i].FileItem? ==> folder.items[i].file in ItemFiles(folder, i);
    FilesUpTo(folder, |folder.items|)
  }

  /** The files nested under the first `n` items of `folder`. */
  function FilesUpTo(folder: TemplateFolder, n: nat): (r: seq<TemplateFile>)
    requires n <= |folder.items|
    ensures forall i, x :: 0 <= i < n && x in ItemFiles(folder, i) ==> x in r
    decreases folder, 0, n
  {
    if n == 0 then []
    else FilesUpTo(folder, n - 1) + ItemFiles(folder, n - 1)
  }

  /** The files nested under item `i` of `folder`: the file itself, or all files of the sub-folder. */
  function ItemFiles(folder: TemplateFolder, i: nat): seq<TemplateFile>
    requires i < |folder.items|
    decreases folder, 0, 0
  {
    match folder.items[i]
    case FileItem(file) => [file]
    case FolderItem(sub) => FilesIn(sub)
  }

  /** A file lies under a folder exactly when it is an item of it or lies under one of its sub-folders. */
  lemma {:induction false} FilesInMembers(folder: TemplateFolder, n: nat, x: TemplateFile)
    requires n <= |folder.items|
    ensures x in FilesUpTo(folder, n) <==>
      exists i :: 0 <= i < n && (folder.items[i] == FileItem(x) ||
                                 (folder.items[i].FolderItem? && x in FilesIn(folder.items[i].folder)))
    decreases n
  {
    if n > 0 {
      FilesInMembers(folder, n - 1, x);
    }
  }
}
