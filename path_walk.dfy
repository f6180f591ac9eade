/** Slash-separated paths and the lenient walk every structural edit of the
    file explorer starts with: split the parent path on `/`, skip empty
    segments, step into the first sub-folder whose `folderName` equals the
    segment, and stay put when there is none. */
module PathWalk {
  import opened Wrappers
  import opened TemplateTree
  import Seqs

  /** `s.split(sep)` for a one-character separator: the pieces between
      separators, empty pieces included; the empty string splits into `[""]`. */
  function Split(s: string, sep: char): (parts: seq<string>)
    ensures |parts| >= 1
    ensures forall i :: 0 <= i < |parts| ==> sep !in parts[i]
    decreases |s|
  {
    if s == [] then [""]
    else
      var rest := Split(s[1..], sep);
      if s[0] == sep then [""] + rest
      else [[s[0]] + rest[0]] + rest[1..]
  }

  /** Splitting loses nothing: joining the pieces back gives the path. */
  lemma {:induction false} SplitJoin(s: string, sep: char)
    ensures Seqs.Join(Split(s, sep), [sep]) == s
    decreases |s|
  {
    if s != [] {
      SplitJoin(s[1..], sep);
      var rest := Split(s[1..], sep);
      if s[0] == sep {
        assert ([""] + rest)[1..] == rest;
      } else {
        assert ([[s[0]] + rest[0]] + rest[1..])[1..] == rest[1..];
      }
      assert s == [s[0]] + s[1..];
    }
  }

  /** A string without the separator is a single piece. */
  lemma {:induction false} SplitNoSeparator(s: string, sep: char)
    requires sep !in s
    ensures Split(s, sep) == [s]
    decreases |s|
  {
    if s != [] {
      SplitNoSeparator(s[1..], sep);
      assert s == [s[0]] + s[1..];
    }
  }

  /** Splitting `a/b` gives the pieces of `a` followed by the pieces of `b`. */
  lemma {:induction false} SplitConcat(a: string, b: string, sep: char)
    ensures Split(a + [sep] + b, sep) == Split(a, sep) + Split(b, sep)
    decreases |a|
  {
    if a == [] {
      SplitCons(sep, b, sep);
      assert a + [sep] + b == [sep] + b;
    } else {
      var tail := a[1..] + [sep] + b;
      assert a + [sep] + b == [a[0]] + tail;
      assert a == [a[0]] + a[1..];
      SplitCons(a[0], tail, sep);
      SplitCons(a[0], a[1..], sep);
      SplitConcat(a[1..], b, sep);
      if a[0] == sep {
        PrependAssoc([""], Split(a[1..], sep), Split(b, sep));
      } else {
        ExtendFirst([a[0]], Split(a[1..], sep), Split(b, sep));
      }
    }
  }

  lemma PrependAssoc<T>(x: seq<T>, l: seq<T>, r: seq<T>)
    ensures x + (l + r) == (x + l) + r
  {
  }

  /** Extending the first piece of `l + r` extends the first piece of `l`. */
  lemma ExtendFirst<T>(x: seq<T>, l: seq<seq<T>>, r: seq<seq<T>>)
    requires |l| >= 1
    ensures [x + (l + r)[0]] + (l + r)[1..] == ([x + l[0]] + l[1..]) + r
  {
    assert (l + r)[0] == l[0];
    assert (l + r)[1..] == l[1..] + r;
  }

  /** One step of `split`: a leading separator closes an empty piece, any other
      character opens the first piece. */
  lemma SplitCons(c: char, rest: string, sep: char)
    ensures var tail := Split(rest, sep);
      Split([c] + rest, sep) == if c == sep then [""] + tail else [[c] + tail[0]] + tail[1..]
  {
    assert ([c] + rest)[0] == c && ([c] + rest)[1..] == rest;
  }



  /** `${filename}.${fileExtension}` */
  function FileName(f: TemplateFile): string {
    f.filename + "." + f.fileExtension
  }

  /** The path a new file is written to in the running container:
      `parentPath/filename.ext`, or `filename.ext` when `parentPath` is empty. */
  function WritePath(parentPath: string, f: TemplateFile): (r: string)
    ensures |FileName(f)| <= |r| && r[|r| - |FileName(f)|..] == FileName(f)
    ensures parentPath == "" ==> r == FileName(f)
    ensures parentPath != "" ==> |r| == |parentPath| + 1 + |FileName(f)| && r[..|parentPath|] == parentPath && r[|parentPath|] == '/'
  {
    if parentPath != "" then parentPath + "/" + FileName(f) else FileName(f)
  }

  /** The first item of `items` that is a folder named `name` (`items.find` /
      `items.findIndex` with `"folderName" in item && item.folderName === name`). */
  function FindFolder(items: seq<TemplateItem>, name: string): (r: Option<nat>)
    ensures r.Some? ==> r.value < |items| && IsFolderNamed(items[r.value], name)
    ensures r.Some? ==> forall j :: 0 <= j < r.value ==> !IsFolderNamed(items[j], name)
    ensures r.None? <==> forall j :: 0 <= j < |items| ==> !IsFolderNamed(items[j], name)
    decreases |items|
  {
    if items == [] then None
    else if IsFolderNamed(items[0], name) then Some(0)
    else match FindFolder(items[1..], name)
      case None => None
      case Some(k) => Some(k + 1)
  }

  /** One iteration of the walk: an empty segment, or one that names no
      sub-folder of the current folder, leaves the walk where it is; otherwise it
      descends into the first sub-folder with that name. */
  function Step(root: TemplateFolder, c: seq<nat>, segment: string): (r: seq<nat>)
    requires IsCursor(root, c)
    ensures IsCursor(root, r)
    ensures r == c <==> segment == "" || forall j :: 0 <= j < |FolderAt(root, c).items| ==> !IsFolderNamed(FolderAt(root, c).items[j], segment)
    ensures r != c ==> |r| == |c| + 1 && r[..|c|] == c && FolderAt(root, r).folderName == segment
    ensures r != c ==> r[|c|] < |FolderAt(root, c).items| && forall j :: 0 <= j < r[|c|] ==> !IsFolderNamed(FolderAt(root, c).items[j], segment)
  {
    if segment == "" then c
    else match FindFolder(FolderAt(root, c).items, segment)
      case None => c
      case Some(i) =>
        CursorExtend(root, c, i);
        assert (c + [i])[..|c|] == c;
        c + [i]
  }

  /** The folder the walk over `segments` ends in, as a cursor from the root. */
  function Resolve(root: TemplateFolder, segments: seq<string>): (c: seq<nat>)
    ensures IsCursor(root, c) && |c| <= |segments|
    decreases |segments|
  {
    if segments == [] then []
    else Step(root, Resolve(root, segments[..|segments| - 1]), segments[|segments| - 1])
  }

  /** A segment the walk steps on: `filter(Boolean)` keeps the non-empty ones. */
  predicate IsSegment(segment: string) {
    segment != ""
  }

  /** The non-empty segments, in order: `split("/").filter(Boolean)`. */
  function NonEmpty(segments: seq<string>): (r: seq<string>)
    ensures r == Seqs.Filter(segments, IsSegment)
    ensures forall i :: 0 <= i < |r| ==> r[i] != ""
    decreases |segments|
  {
    if segments == [] then []
    else
      var init, last := segments[..|segments| - 1], segments[|segments| - 1];
      assert segments == init + [last];
      Seqs.FilterConcat(init, [last], IsSegment);
      assert [last][1..] == [];
      NonEmpty(init) + (if last == "" then [] else [last])
  }

  /** Empty segments play no part in the walk: `a//b/` resolves like `a/b`. */
  lemma {:induction false} ResolveSkipsEmptySegments(root: TemplateFolder, segments: seq<string>)
    ensures Resolve(root, segments) == Resolve(root, NonEmpty(segments))
    decreases |segments|
  {
    if segments != [] {
      var init, last := segments[..|segments| - 1], segments[|segments| - 1];
      ResolveSkipsEmptySegments(root, init);
      if last != "" {
        var ne := NonEmpty(init) + [last];
        assert ne[..|ne| - 1] == NonEmpty(init);
      } else {
        assert NonEmpty(segments) == NonEmpty(init);
      }
    }
  }

  /** The empty parent path is the root folder. */
  lemma EmptyPathIsRoot(root: TemplateFolder)
    ensures Resolve(root, Split("", '/')) == []
  {
    assert Split("", '/') == [""];
    assert [""][..0] == [];
  }

  /** The write-through path is the parent path followed by the file name: its
      directory part, walked leniently, reaches the same folder as the walk over
      `parentPath`. The container itself takes the path literally (see
      `WritePathIgnoresWalk`). */
  lemma WritePathResolves(root: TemplateFolder, parentPath: string, f: TemplateFile)
    requires '/' !in FileName(f)
    ensures var parts := Split(WritePath(parentPath, f), '/');
      && parts[|parts| - 1] == FileName(f)
      && Resolve(root, parts[..|parts| - 1]) == Resolve(root, Split(parentPath, '/'))
  {
    SplitNoSeparator(FileName(f), '/');
    var parts := Split(WritePath(parentPath, f), '/');
    if parentPath != "" {
      SplitConcat(parentPath, FileName(f), '/');
      assert parentPath + "/" + FileName(f) == parentPath + ['/'] + FileName(f);
      assert parts[..|parts| - 1] == Split(parentPath, '/');
    } else {
      assert parts == [FileName(f)];
      EmptyPathIsRoot(root);
      assert parts[..0] == [];
    }
  }

  /** The tree and the container can disagree: when no folder is named `x`, the
      walk over `x` stays at the root, so the tree gains the file there, but the
      container is told to write it under a directory `x`. */
  lemma WritePathIgnoresWalk(f: TemplateFile)
    requires '/' !in FileName(f)
    ensures var root := TemplateFolder("root", []);
      && Resolve(root, Split("x", '/')) == []
      && Split(WritePath("x", f), '/') == ["x", FileName(f)]
  {
    var root := TemplateFolder("root", []);
    SplitNoSeparator("x", '/');
    SplitNoSeparator(FileName(f), '/');
    SplitConcat("x", FileName(f), '/');
    assert WritePath("x", f) == "x" + ['/'] + FileName(f);
    assert ["x"][..0] == [];
  }

  /** The walk as the store runs it: a loop over the pieces of `parentPath` that
      reassigns the current folder. */
  method ResolveFolder(root: TemplateFolder, parentPath: string) returns (cursor: seq<nat>)
    ensures IsCursor(root, cursor)
    ensures cursor == Resolve(root, Split(parentPath, '/'))
  {
    var parts := Split(parentPath, '/');
    var current := root;
    cursor := [];
    for i := 0 to |parts|
      invariant IsCursor(root, cursor) && current == FolderAt(root, cursor)
      invariant cursor == Resolve(root, parts[..i])
    {
      assert parts[..i + 1][..i] == parts[..i];
      var part := parts[i];
      if part != "" {
        var next := FindFolder(current.items, part);
        if next.Some? {
          CursorExtend(root, cursor, next.value);
          cursor := cursor + [next.value];
          current := current.items[next.value].folder;
        }
      }
    }
    assert parts[..|parts|] == parts;
  }
}
