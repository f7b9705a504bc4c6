/**
  A tab backed by a file, as the newer version of the plugin describes it: its
  short name, the folder it lives in relative to the project folder, and that
  folder cut down to fit the panel.
 */
module FileComponent {
  import opened Wrappers
  import opened PyStr
  import opened Host

  /** The folder shown for a file that sits directly in the project folder. */
  const ProjectFolderPath: string := "[project]"

  /** The folder shown when the window has no project folder. */
  const NoFolderMarker: string := "-"

  const Ellipsis: string := "..."

  /** `FileContents`: the view, its full path, the basename of that path, the
      project folder (if any), the group the view sits in and whether it has
      unsaved changes. */
  datatype FileContents = FileContents(
    view: View,
    fileName: string,
    shortName: string,
    folderName: Option<string>,
    group: nat,
    modified: bool)

  /** `TruncatedFolder`: the (possibly shortened) folder and, when it was
      shortened, the tail that was cut off. */
  datatype TruncatedFolder = TruncatedFolder(truncatedFolderPath: string, truncatedSuffix: string)

  /** `FileContents.__init__`: the short name is the last component of the path. */
  function NewFileContents(view: View, fileName: string, folderName: Option<string>, group: nat): (fc: FileContents)
    ensures fc.view == view && fc.fileName == fileName && fc.folderName == folderName && fc.group == group
    ensures EndsWith(fileName, fc.shortName) && SepChar !in fc.shortName
    ensures |fc.shortName| < |fileName| ==> fileName[|fileName| - |fc.shortName| - 1] == SepChar
    ensures fc.modified == view.dirty
  {
    FileContents(view, fileName, Basename(fileName), folderName, group, view.dirty)
  }

  /** `removeprefix`: `original[len(prefix):]` when `original` starts with `prefix`. */
  function RemovePrefix(original: string, prefix: string): (r: string)
    ensures StartsWith(original, prefix) ==> prefix + r == original
    ensures !StartsWith(original, prefix) ==> r == original
  {
    if StartsWith(original, prefix) then SliceFrom(original, |prefix|) else original
  }

  /** `removesuffix`: `original[:-len(suffix)]` when `original` ends with `suffix`.
      Taken literally, an empty suffix gives `original[:-0]`, which is "". */
  function RemoveSuffix(original: string, suffix: string): (r: string)
    ensures EndsWith(original, suffix) && |suffix| > 0 ==> r + suffix == original
    ensures |suffix| == 0 ==> r == ""
    ensures !EndsWith(original, suffix) ==> r == original
  {
    if EndsWith(original, suffix) then SliceTo(original, -|suffix|) else original
  }

  /** `strip_char`: drops one leading `ch` if there is one, then one trailing
      `ch` if what is left still ends with one. */
  function StripChar(original: string, ch: string): (r: string)
    ensures |ch| == 0 ==> r == ""
    ensures |ch| > 0 && !StartsWith(original, ch) && !EndsWith(original, ch) ==> r == original
    ensures |ch| > 0 && !StartsWith(original, ch) && EndsWith(original, ch) ==> r + ch == original
    ensures |ch| > 0 && StartsWith(original, ch) && EndsWith(original, ch) && |original| >= 2 * |ch| ==>
              ch + r + ch == original
    ensures |ch| > 0 && StartsWith(original, ch) && (!EndsWith(original, ch) || |original| < 2 * |ch|) ==>
              ch + r == original
    ensures |ch| > 0 ==> |r| >= |original| - 2 * |ch|
  {
    StripCharCases(original, ch);
    RemoveSuffix(RemovePrefix(original, ch), ch)
  }

  /** The case analysis behind `StripChar`'s contract. */
  lemma StripCharCases(original: string, ch: string)
    ensures var r := RemoveSuffix(RemovePrefix(original, ch), ch);
            |ch| > 0 ==>
            && (!StartsWith(original, ch) && !EndsWith(original, ch) ==> r == original)
            && (!StartsWith(original, ch) && EndsWith(original, ch) ==> r + ch == original)
            && (StartsWith(original, ch) && EndsWith(original, ch) && |original| >= 2 * |ch| ==> ch + r + ch == original)
            && (StartsWith(original, ch) && (!EndsWith(original, ch) || |original| < 2 * |ch|) ==> ch + r == original)
            && |r| >= |original| - 2 * |ch|
  {
    if |ch| > 0 {
      if StartsWith(original, ch) {
        StripCharLeading(original, ch);
      } else {
        StripCharNoLeading(original, ch);
      }
    }
  }

  /** Without a leading `ch`, only a trailing one is dropped. */
  lemma StripCharNoLeading(original: string, ch: string)
    requires |ch| > 0 && !StartsWith(original, ch)
    ensures var r := RemoveSuffix(RemovePrefix(original, ch), ch);
            && (EndsWith(original, ch) ==> r + ch == original)
            && (!EndsWith(original, ch) ==> r == original)
  {
    assert RemovePrefix(original, ch) == original;
  }

  /** With a leading `ch`, the trailing one is dropped only when it is not the
      leading one itself. */
  lemma StripCharLeading(original: string, ch: string)
    requires |ch| > 0 && StartsWith(original, ch)
    ensures var r := RemoveSuffix(RemovePrefix(original, ch), ch);
            && (EndsWith(original, ch) && |original| >= 2 * |ch| ==> ch + r + ch == original)
            && (!EndsWith(original, ch) || |original| < 2 * |ch| ==> ch + r == original)
  {
    var inner := RemovePrefix(original, ch);
    var r := RemoveSuffix(inner, ch);
    WrappedEndsWith(ch, inner, original);
    if EndsWith(inner, ch) {
      Rewrap(ch, r, inner, original);
    }
  }

  /** After a leading `ch` is taken off, what is left ends with `ch` exactly when
      the whole did and the two copies do not overlap. */
  lemma WrappedEndsWith(ch: string, inner: string, original: string)
    requires ch + inner == original
    ensures EndsWith(inner, ch) <==> EndsWith(original, ch) && |original| >= 2 * |ch|
  {
    if |inner| >= |ch| {
      EndsWithAfterPrepend(ch, inner, ch);
    }
  }

  lemma Rewrap(ch: string, r: string, inner: string, original: string)
    requires ch + inner == original && r + ch == inner
    ensures ch + r + ch == original
  {
    assert ch + r + ch == ch + (r + ch);
  }

  /** What `strip_char` leaves is a piece of its input. */
  lemma StripCharIsInfix(original: string, ch: string)
    ensures IsInfix(StripChar(original, ch), original)
  {
    var inner := RemovePrefix(original, ch);
    var r := RemoveSuffix(inner, ch);
    if StartsWith(original, ch) {
      assert original[|ch|..] == inner;
      SuffixIsInfix(inner, original);
    } else {
      PrefixIsInfix(inner, original);
    }
    assert r == inner[..|r|];
    PrefixIsInfix(r, inner);
    InfixTransitive(r, inner, original);
  }

  /** `strip_path_sep`: `strip_char` with the path separator. */
  function StripPathSep(original: string): (r: string)
    ensures !StartsWith(original, PathSep) && !EndsWith(original, PathSep) ==> r == original
    ensures !StartsWith(original, PathSep) && EndsWith(original, PathSep) ==> r + PathSep == original
    ensures StartsWith(original, PathSep) && EndsWith(original, PathSep) && |original| >= 2 ==>
              PathSep + r + PathSep == original
    ensures StartsWith(original, PathSep) && (!EndsWith(original, PathSep) || |original| < 2) ==>
              PathSep + r == original
  {
    StripChar(original, PathSep)
  }

  /** `folder_path`: the folder of the file relative to the project folder, with
      its outer separators removed; "[project]" when nothing is left and "-" when
      there is no project folder. */
  function FolderPath(fc: FileContents): (r: string)
    ensures fc.folderName.None? ==> r == NoFolderMarker
    ensures |r| > 0
  {
    match fc.folderName
    case None => NoFolderMarker
    case Some(folderName) =>
      var basePath := RemovePrefix(fc.fileName, folderName);
      var relativeBasePath := RemoveSuffix(basePath, fc.shortName);
      var stripped := StripPathSep(relativeBasePath);
      if |stripped| > 0 then stripped else ProjectFolderPath
  }

  /** Whatever the paths, the folder shown is a marker or a piece of the file's own
      path: a file outside the project folder degrades to its unstripped path,
      it never fails. */
  lemma FolderPathIsPieceOfFileName(fc: FileContents)
    ensures FolderPath(fc) == NoFolderMarker || FolderPath(fc) == ProjectFolderPath
         || IsInfix(FolderPath(fc), fc.fileName)
  {
    if fc.folderName.Some? {
      var basePath := RemovePrefix(fc.fileName, fc.folderName.value);
      var relativeBasePath := RemoveSuffix(basePath, fc.shortName);
      if StartsWith(fc.fileName, fc.folderName.value) {
        assert fc.fileName[|fc.folderName.value|..] == basePath;
        SuffixIsInfix(basePath, fc.fileName);
      } else {
        PrefixIsInfix(basePath, fc.fileName);
      }
      assert relativeBasePath == basePath[..|relativeBasePath|];
      PrefixIsInfix(relativeBasePath, basePath);
      InfixTransitive(relativeBasePath, basePath, fc.fileName);
      StripCharIsInfix(relativeBasePath, PathSep);
      InfixTransitive(StripPathSep(relativeBasePath), relativeBasePath, fc.fileName);
    }
  }

  /** `removeprefix` undoes concatenation on the left. */
  lemma RemovePrefixOfConcat(prefix: string, rest: string)
    ensures RemovePrefix(prefix + rest, prefix) == rest
  {
    assert (prefix + rest)[..|prefix|] == prefix;
  }

  /** `removesuffix` undoes concatenation on the right, for a non-empty suffix. */
  lemma RemoveSuffixOfConcat(rest: string, suffix: string)
    requires |suffix| > 0
    ensures RemoveSuffix(rest + suffix, suffix) == rest
  {
    assert (rest + suffix)[|rest|..] == suffix;
  }

  /** `strip_path_sep` undoes wrapping in one separator on each side. */
  lemma StripPathSepOfWrapped(inner: string)
    ensures StripPathSep(PathSep + inner + PathSep) == inner
  {
    assert PathSep + inner + PathSep == PathSep + (inner + PathSep);
    RemovePrefixOfConcat(PathSep, inner + PathSep);
    RemoveSuffixOfConcat(inner, PathSep);
  }

  /** A file directly inside the project folder is shown as "[project]". */
  lemma FolderPathOfProjectFile(view: View, root: string, name: string, group: nat)
    requires |name| > 0 && SepChar !in name
    ensures FolderPath(NewFileContents(view, root + PathSep + name, Some(root), group)) == ProjectFolderPath
  {
    BasenameOfJoin(root, name);
    assert root + PathSep + name == root + (PathSep + name);
    RemovePrefixOfConcat(root, PathSep + name);
    RemoveSuffixOfConcat(PathSep, name);
    RemovePrefixOfConcat(PathSep, "");
    assert PathSep + "" == PathSep;
  }

  /** A file `root/dir/name` is shown under the folder `dir`: the folder shown is
      the part of the path between the project folder and the basename. */
  lemma FolderPathOfNestedFile(view: View, root: string, dir: string, name: string, group: nat)
    requires |dir| > 0
    requires |name| > 0 && SepChar !in name
    ensures FolderPath(NewFileContents(view, root + PathSep + dir + PathSep + name, Some(root), group)) == dir
  {
    var fileName := root + PathSep + dir + PathSep + name;
    var fc := NewFileContents(view, fileName, Some(root), group);
    var rel := PathSep + dir + PathSep;
    assert fileName == (root + PathSep + dir) + PathSep + name;
    BasenameOfJoin(root + PathSep + dir, name);
    assert fc.shortName == name;
    assert fileName == root + (rel + name);
    RemovePrefixOfConcat(root, rel + name);
    assert RemovePrefix(fileName, root) == rel + name;
    RemoveSuffixOfConcat(rel, name);
    assert RemoveSuffix(rel + name, name) == rel;
    StripPathSepOfWrapped(dir);
  }

  /** A file whose basename is empty (a path that ends in a separator) is shown as
      "[project]" whatever its directory, because `removesuffix` with an empty
      suffix empties the string. */
  lemma FolderPathOfEmptyShortName(fc: FileContents)
    requires fc.folderName.Some? && fc.shortName == ""
    ensures FolderPath(fc) == ProjectFolderPath
  {
    assert RemovePrefix("", PathSep) == "";
  }

  /** `truncated_path`: the folder, cut to `truncation_preview_length` characters
      at each end when it is longer than `truncation_line_length`. The project
      marker is never cut. The empty-folder branch cannot be taken, because
      `folder_path` never returns "". */
  function TruncatedPath(fc: FileContents, settings: OpenTabSettings): (r: TruncatedFolder)
    ensures FolderPath(fc) == ProjectFolderPath ==> r == TruncatedFolder(ProjectFolderPath, "")
    ensures |FolderPath(fc)| <= settings.truncationLineLength ==> r == TruncatedFolder(FolderPath(fc), "")
    ensures |r.truncatedFolderPath| > 0
    ensures var fp := FolderPath(fc);
            var n := settings.truncationPreviewLength;
            var head := r.truncatedFolderPath;
            var tail := r.truncatedSuffix;
            fp != ProjectFolderPath && |fp| > settings.truncationLineLength ==>
              && |head| >= 3 && head[|head| - 3..] == Ellipsis && StartsWith(fp, head[..|head| - 3])
              && |tail| >= 3 && tail[..3] == Ellipsis && EndsWith(fp, tail[3..])
              && (n > 0 ==> |head| == Min(n, |fp|) + 3 && |tail| == Min(n, |fp|) + 3)
              && (n == 0 ==> head == Ellipsis && tail == Ellipsis + fp)
              && (n < 0 ==> |head| == Max(0, |fp| + n) + 3 && |tail| == Max(0, |fp| + n) + 3)
  {
    var maybeFolderPath := FolderPath(fc);
    if |maybeFolderPath| > 0 then
      var folderPath := maybeFolderPath;
      var noTruncation := TruncatedFolder(folderPath, "");
      if folderPath == ProjectFolderPath then noTruncation
      else if |folderPath| > settings.truncationLineLength then
        var prefix := SliceTo(folderPath, settings.truncationPreviewLength);
        var suffix := SliceFrom(folderPath, -settings.truncationPreviewLength);
        assert (prefix + Ellipsis)[..|prefix|] == prefix;
        assert (Ellipsis + suffix)[3..] == suffix;
        TruncatedFolder(prefix + Ellipsis, Ellipsis + suffix)
      else noTruncation
    else
      TruncatedFolder("", "")
  }

  /** When the preview is at least as long as the folder, both halves show the
      whole folder: overlap is accepted, not an error. */
  lemma TruncationOverlapShowsWholeFolder(fc: FileContents, settings: OpenTabSettings)
    requires FolderPath(fc) != ProjectFolderPath
    requires |FolderPath(fc)| > settings.truncationLineLength
    requires settings.truncationPreviewLength >= |FolderPath(fc)|
    ensures TruncatedPath(fc, settings) == TruncatedFolder(FolderPath(fc) + Ellipsis, Ellipsis + FolderPath(fc))
  {
    var fp := FolderPath(fc);
    var r := TruncatedPath(fc, settings);
    assert r.truncatedFolderPath[..|fp|] == fp;
    assert r.truncatedFolderPath == r.truncatedFolderPath[..|fp|] + r.truncatedFolderPath[|fp|..];
    assert r.truncatedSuffix == r.truncatedSuffix[..3] + r.truncatedSuffix[3..];
  }

  /** With line length 10 and preview length 3 the 9-character folder `a/b/c/d/e` is shown whole;
      the file `/r/a/b/c/d/e/x.py` in project `/r` has that folder. */
  lemma TruncationExampleShort(view: View)
    ensures TruncatedPath(NewFileContents(view, "/r/a/b/c/d/e/x.py", Some("/r"), 0), OpenTabSettings(10, 3))
              == TruncatedFolder("a/b/c/d/e", "")
  {
    var folder := "a/b/c/d/e";
    assert "/r/a/b/c/d/e/x.py" == "/r" + PathSep + folder + PathSep + "x.py";
    FolderPathOfNestedFile(view, "/r", folder, "x.py", 0);
  }
}
