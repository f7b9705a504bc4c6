/**
  The older single-file version of the command. It shares the string helpers and
  the walk over the window with the newer one. It differs in four ways: a file
  entry needs a non-empty file name, the folder is None without a project
  folder, only the truncated tail is shown, and rows carry no group.
 */
module LegacyOpenTabs {
  import opened Wrappers
  import opened PyStr
  import opened Host
  import opened Tabs
  import opened Selection
  import FileComponent

  /** The older `FileContents`: view, path, basename and project folder. */
  datatype LegacyFileContents = LegacyFileContents(view: View, fileName: string, shortName: string, folderName: Option<string>)

  /** The older `BufferContents`: view and tab name. */
  datatype LegacyBufferContents = LegacyBufferContents(view: View, tabName: string)

  datatype LegacyEntry = LegacyFile(file: LegacyFileContents) | LegacyBuffer(buffer: LegacyBufferContents) {
    function ViewOf(): View {
      match this
      case LegacyFile(f) => f.view
      case LegacyBuffer(b) => b.view
    }
  }

  /** The older `FileContents.__init__`, which reads the path from the view itself. */
  function NewLegacyFileContents(view: View, folderName: Option<string>): (fc: LegacyFileContents)
    requires view.fileName.Some?
    ensures fc.view == view && fc.fileName == view.fileName.value && fc.folderName == folderName
    ensures EndsWith(fc.fileName, fc.shortName) && SepChar !in fc.shortName
    ensures |fc.shortName| < |fc.fileName| ==> fc.fileName[|fc.fileName| - |fc.shortName| - 1] == SepChar
  {
    LegacyFileContents(view, view.fileName.value, Basename(view.fileName.value), folderName)
  }

  /** The newer record with the same path, basename and folder. */
  function AsFileContents(fc: LegacyFileContents): FileComponent.FileContents {
    FileComponent.FileContents(fc.view, fc.fileName, fc.shortName, fc.folderName, 0, false)
  }

  /** The older `folder_path`: None without a project folder, otherwise the same
      prefix, suffix and separator stripping as the newer one (the helpers are
      the same code). */
  function FolderPath(fc: LegacyFileContents): (r: Option<string>)
    ensures r.None? <==> fc.folderName.None?
    ensures r.Some? ==> |r.value| > 0
  {
    match fc.folderName
    case None => None
    case Some(folderName) =>
      var basePath := FileComponent.RemovePrefix(fc.fileName, folderName);
      var relativeBasePath := FileComponent.RemoveSuffix(basePath, fc.shortName);
      var stripped := FileComponent.StripPathSep(relativeBasePath);
      if |stripped| > 0 then Some(stripped) else Some(FileComponent.ProjectFolderPath)
  }

  /** With a project folder, both versions show the same folder. */
  lemma {:induction false} FolderPathAgreesWithNewer(fc: LegacyFileContents)
    requires fc.folderName.Some?
    ensures FolderPath(fc) == Some(FileComponent.FolderPath(AsFileContents(fc)))
  {
    var g := AsFileContents(fc);
    var folderName := fc.folderName.value;
    assert g.folderName == Some(folderName);
    var stripped := FileComponent.StripPathSep(FileComponent.RemoveSuffix(FileComponent.RemovePrefix(fc.fileName, folderName), fc.shortName));
    assert FileComponent.FolderPath(g) == if |stripped| > 0 then stripped else FileComponent.ProjectFolderPath;
  }

  /** The older `truncated_path`: only the tail of an over-long folder, behind an
      ellipsis; "" for the project marker and for a folder that fits. It calls
      `len` on the folder, so it needs a project folder. */
  function TruncatedPath(fc: LegacyFileContents, settings: OpenTabSettings): (r: string)
    requires fc.folderName.Some?
    ensures var fp := FolderPath(fc).value;
            && (fp == FileComponent.ProjectFolderPath ==> r == "")
            && (|fp| <= settings.truncationLineLength ==> r == "")
            && (fp != FileComponent.ProjectFolderPath && |fp| > settings.truncationLineLength ==>
                  |r| >= 3 && r[..3] == FileComponent.Ellipsis && EndsWith(fp, r[3..]))
  {
    var folderPath := FolderPath(fc).value;
    if folderPath == FileComponent.ProjectFolderPath then ""
    else if |folderPath| > settings.truncationLineLength then
      var truncatedFolderPath := SliceFrom(folderPath, -settings.truncationPreviewLength);
      assert (FileComponent.Ellipsis + truncatedFolderPath)[3..] == truncatedFolderPath;
      FileComponent.Ellipsis + truncatedFolderPath
    else ""
  }

  /** The older annotation is exactly the newer version's truncated suffix. */
  lemma TruncatedPathIsNewerSuffix(fc: LegacyFileContents, settings: OpenTabSettings)
    requires fc.folderName.Some?
    ensures TruncatedPath(fc, settings) == FileComponent.TruncatedPath(AsFileContents(fc), settings).truncatedSuffix
  {
    FolderPathAgreesWithNewer(fc);
  }

  /** What the older `add_views` makes of one view: a file entry when `file_name()`
      is truthy (present and non-empty), else a buffer entry when `name()` is
      non-empty, else nothing. */
  function ClassifyView(p: Placed, folderName: Option<string>): (r: Option<LegacyEntry>)
    ensures r.Some? <==> (p.view.fileName.Some? && p.view.fileName.value != "") || p.view.name != ""
    ensures r.Some? ==> r.value.ViewOf() == p.view
    ensures r.Some? ==> (r.value.LegacyFile? <==> p.view.fileName.Some? && p.view.fileName.value != "")
    ensures r.Some? && r.value.LegacyFile? ==> r.value.file.folderName == folderName
    ensures r.Some? && r.value.LegacyFile? ==>
              r.value.file.fileName == p.view.fileName.value
              && r.value.file.shortName == Basename(p.view.fileName.value)
    ensures r.Some? && r.value.LegacyBuffer? ==> r.value.buffer.tabName == p.view.name
  {
    if p.view.fileName.Some? && p.view.fileName.value != "" then
      Some(LegacyFile(NewLegacyFileContents(p.view, folderName)))
    else if p.view.name != "" then
      Some(LegacyBuffer(LegacyBufferContents(p.view, p.view.name)))
    else None
  }

  function Classifier(folderName: Option<string>): Placed -> Option<LegacyEntry> {
    p => ClassifyView(p, folderName)
  }

  /** The older `add_views`: the same walk, with the project folder passed on as
      it is and the truthiness test on the file name. */
  method AddViews(w: Window) returns (tracked: seq<LegacyEntry>, selectedIndex: int)
    ensures tracked == Classified(Enumerate(w.groups), Classifier(w.folder))
    ensures HasGroups(w) ==> selectedIndex == -1
    ensures !HasGroups(w) ==> selectedIndex == ActiveIndex(Enumerate(w.groups), w.activeView)
  {
    tracked, selectedIndex := AddViewsWith(w, Classifier(w.folder));
  }

  /** A view whose file name is "" is a file entry for the newer version but not
      for the older one, which lists it by its tab name or skips it. */
  lemma EmptyFileNameClassifiedDifferently(p: Placed, root: Option<string>)
    requires p.view.fileName == Some("")
    ensures ClassifyView(p, root).None? <==> p.view.name == ""
    ensures ClassifyView(p, root).Some? ==> ClassifyView(p, root).value.LegacyBuffer?
  {
  }

  const NoneTypeLenError: string := "TypeError: object of type 'NoneType' has no len()"

  /** The older `create_file_panel_item`. A file row is its basename, the folder
      underlined as details and the truncated tail as annotation; without a
      project folder `truncated_path` raises. A buffer row is its tab name,
      marked "unsaved". */
  function CreateFilePanelItem(e: LegacyEntry, settings: OpenTabSettings): (r: Result<QuickPanelItem>)
    ensures r.Error? <==> e.LegacyFile? && e.file.folderName.None?
    ensures r.Ok? && e.LegacyFile? ==>
              r.value.trigger == e.file.shortName && r.value.kind == KindVariable
              && r.value.details == Text(Underline(FolderPath(e.file).value))
              && r.value.annotation == TruncatedPath(e.file, settings)
    ensures r.Ok? && e.LegacyBuffer? ==>
              r.value.trigger == e.buffer.tabName && r.value.kind == KindNavigation
              && r.value.details == Text("")
              && r.value.annotation == "unsaved"
  {
    match e
    case LegacyFile(f) =>
      if f.folderName.None? then Error(NoneTypeLenError)
      else Ok(QuickPanelItem(f.shortName, Text(Underline(FolderPath(f).value)), TruncatedPath(f, settings), KindVariable))
    case LegacyBuffer(b) =>
      Ok(QuickPanelItem(b.tabName, Text(""), "unsaved", KindNavigation))
  }

  /** The older `create_panel_items`: one row per entry in order, or the error
      raised by the first file entry when there is no project folder. */
  function CreatePanelItems(tracked: seq<LegacyEntry>, settings: OpenTabSettings): (r: Result<seq<QuickPanelItem>>)
    ensures r.Error? <==> exists i :: 0 <= i < |tracked| && tracked[i].LegacyFile? && tracked[i].file.folderName.None?
    ensures r.Ok? ==> |r.value| == |tracked|
    ensures r.Ok? ==> forall i :: 0 <= i < |tracked| ==> Ok(r.value[i]) == CreateFilePanelItem(tracked[i], settings)
  {
    if |tracked| == 0 then Ok([])
    else
      match CreateFilePanelItem(tracked[0], settings)
      case Error(m) => Error(m)
      case Ok(item) =>
        match CreatePanelItems(tracked[1..], settings)
        case Error(m) => Error(m)
        case Ok(items) => Ok([item] + items)
  }

  /** The older `when_file_selected`: the same -1 fallback and bounds rule. */
  function WhenFileSelected(tracked: seq<LegacyEntry>, selectedIndex: int, index: int): (focus: Option<View>)
    requires index >= -1 && selectedIndex >= -1
    ensures var u := if index == -1 then selectedIndex else index;
            (focus.Some? <==> 0 <= u < |tracked|) && (focus.Some? ==> focus.value == tracked[u].ViewOf())
  {
    match Resolve(tracked, selectedIndex, index)
    case Some(e) => Some(e.ViewOf())
    case None => None
  }
}
