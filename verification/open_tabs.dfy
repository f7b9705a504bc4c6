/**
  The newer `OpenTabsCommand`: classify the window's views into file and buffer
  entries, project them to quick-panel rows, and resolve the row the user picks
  back to a view.
 */
module OpenTabs {
  import opened Wrappers
  import opened PyStr
  import opened Host
  import opened Tabs
  import opened Selection
  import opened FileComponent

  /** `BufferContents`: a tab with no file but a non-empty name. */
  datatype BufferContents = BufferContents(view: View, tabName: string, group: nat)

  /** An element of `tracked_views`. */
  datatype Entry = File(file: FileContents) | Buffer(buffer: BufferContents) {
    function ViewOf(): View {
      match this
      case File(f) => f.view
      case Buffer(b) => b.view
    }
    function GroupOf(): nat {
      match this
      case File(f) => f.group
      case Buffer(b) => b.group
    }
    /** The name the row is listed under. */
    function Label(): string {
      match this
      case File(f) => f.shortName
      case Buffer(b) => b.tabName
    }
  }

  /** The project folder as `add_views` hands it to `FileContents`: an empty
      folder name counts as no folder. */
  function ProjectFolder(w: Window): (r: Option<string>)
    ensures r.Some? <==> w.folder.Some? && w.folder.value != ""
    ensures r.Some? ==> r == w.folder
  {
    match w.folder
    case Some(f) => if f != "" then Some(f) else None
    case None => None
  }

  /** What `add_views` makes of one view: a file entry when `file_name()` is not
      None (even when it is ""), else a buffer entry when `name()` is non-empty,
      else nothing. */
  function ClassifyView(p: Placed, root: Option<string>): (r: Option<Entry>)
    ensures r.Some? <==> p.view.fileName.Some? || p.view.name != ""
    ensures r.Some? ==> r.value.ViewOf() == p.view && r.value.GroupOf() == p.group
    ensures r.Some? ==> (r.value.File? <==> p.view.fileName.Some?)
    ensures r.Some? && r.value.File? ==>
              r.value.file.fileName == p.view.fileName.value && r.value.file.folderName == root
    ensures r.Some? && r.value.File? ==>
              r.value.file.shortName == Basename(p.view.fileName.value) && r.value.file.modified == p.view.dirty
    ensures r.Some? && r.value.Buffer? ==> r.value.buffer.tabName == p.view.name
  {
    match p.view.fileName
    case Some(fileName) => Some(File(NewFileContents(p.view, fileName, root, p.group)))
    case None =>
      if p.view.name != "" then Some(Buffer(BufferContents(p.view, p.view.name, p.group)))
      else None
  }

  function Classifier(root: Option<string>): Placed -> Option<Entry> {
    p => ClassifyView(p, root)
  }

  /** `add_views`: the tracked list is the window's views, flattened group by
      group and filtered by `ClassifyView`; `selected_index` is the active view's
      position among all enumerated views in an unsplit window, and -1 otherwise. */
  method AddViews(w: Window) returns (tracked: seq<Entry>, selectedIndex: int)
    ensures tracked == Classified(Enumerate(w.groups), Classifier(ProjectFolder(w)))
    ensures HasGroups(w) ==> selectedIndex == -1
    ensures !HasGroups(w) ==> selectedIndex == ActiveIndex(Enumerate(w.groups), w.activeView)
  {
    var root := ProjectFolder(w);
    tracked, selectedIndex := AddViewsWith(w, Classifier(root));
  }

  /** Every tracked entry comes from a view of the window, and every view that
      has a file name or a tab name is tracked. */
  lemma TrackedAreTheVisibleViews(w: Window)
    ensures var ps := Enumerate(w.groups);
            var tracked := Classified(ps, Classifier(ProjectFolder(w)));
            && (forall e: Entry :: e in tracked ==> exists i :: 0 <= i < |ps| && e.ViewOf() == ps[i].view && e.GroupOf() == ps[i].group)
            && (forall i :: 0 <= i < |ps| && (ps[i].view.fileName.Some? || ps[i].view.name != "") ==>
                  ClassifyView(ps[i], ProjectFolder(w)).value in tracked)
  {
    var ps := Enumerate(w.groups);
    var classify := Classifier(ProjectFolder(w));
    ClassifiedMembers(ps, classify);
    forall e: Entry | e in Classified(ps, classify)
      ensures exists i :: 0 <= i < |ps| && e.ViewOf() == ps[i].view && e.GroupOf() == ps[i].group
    {
      var i :| 0 <= i < |ps| && classify(ps[i]) == Some(e);
    }
    forall i | 0 <= i < |ps| && (ps[i].view.fileName.Some? || ps[i].view.name != "")
      ensures ClassifyView(ps[i], ProjectFolder(w)).value in Classified(ps, classify)
    {
      assert classify(ps[i]) == Some(ClassifyView(ps[i], ProjectFolder(w)).value);
    }
  }

  const ModifiedMarker: string := "<strong>*<strong>modified"
  const UnsavedMarker: string := "*unsaved"

  /** The trigger of a row, `f"{name}|{group}"`: the name, a bar and the group
      number in decimal. */
  function Trigger(name: string, group: nat): string {
    name + "|" + NatToString(group)
  }

  /** The annotation of a row, `f"group{group}"`. */
  function GroupAnnotation(group: nat): string {
    "group" + NatToString(group)
  }

  /** The row of a file whose folder has already been cut to `tf`. */
  function FileRow(fc: FileContents, tf: TruncatedFolder): (item: QuickPanelItem)
    ensures item.kind == KindVariable
    ensures item.details.Lines? && |item.details.lines| == 3
    ensures item.details.lines[0] == Underline(tf.truncatedFolderPath)
    ensures item.details.lines[1] == Strong(tf.truncatedSuffix)
    ensures item.details.lines[2] != "" <==> fc.modified
    ensures item.trigger == Trigger(fc.shortName, fc.group) && StartsWith(item.trigger, fc.shortName)
    ensures item.annotation == GroupAnnotation(fc.group)
  {
    var trigger := Trigger(fc.shortName, fc.group);
    var modifiedStr := if fc.modified then ModifiedMarker else "";
    var details := Lines([Underline(tf.truncatedFolderPath), Strong(tf.truncatedSuffix), modifiedStr]);
    assert trigger[..|fc.shortName|] == fc.shortName;
    QuickPanelItem(trigger, details, GroupAnnotation(fc.group), KindVariable)
  }

  /** `file_content_quick_panel_item`: the row shows the folder as
      `truncated_path` cuts it. */
  function FileContentQuickPanelItem(fc: FileContents, settings: OpenTabSettings): (item: QuickPanelItem)
    ensures item.kind == KindVariable
    ensures item.details.Lines? && |item.details.lines| == 3
    ensures item.details.lines[0] == Underline(TruncatedPath(fc, settings).truncatedFolderPath)
    ensures item.details.lines[1] == Strong(TruncatedPath(fc, settings).truncatedSuffix)
    ensures item.details.lines[2] != "" <==> fc.modified
    ensures item.trigger == Trigger(fc.shortName, fc.group) && StartsWith(item.trigger, fc.shortName)
    ensures item.annotation == GroupAnnotation(fc.group)
  {
    FileRow(fc, TruncatedPath(fc, settings))
  }

  /** `buffer_content_quick_panel_item`. */
  function BufferContentQuickPanelItem(b: BufferContents): (item: QuickPanelItem)
    ensures item.kind == KindNavigation
    ensures item.details == Text(UnsavedMarker)
    ensures item.trigger == Trigger(b.tabName, b.group) && StartsWith(item.trigger, b.tabName)
    ensures item.annotation == GroupAnnotation(b.group)
  {
    var trigger := Trigger(b.tabName, b.group);
    assert trigger[..|b.tabName|] == b.tabName;
    QuickPanelItem(trigger, Text(UnsavedMarker), GroupAnnotation(b.group), KindNavigation)
  }

  /** `create_file_panel_item`: dispatch on the kind of entry. */
  function CreateFilePanelItem(e: Entry, settings: OpenTabSettings): (item: QuickPanelItem)
    ensures e.File? ==> item == FileContentQuickPanelItem(e.file, settings)
    ensures e.Buffer? ==> item == BufferContentQuickPanelItem(e.buffer)
    ensures item.trigger == Trigger(e.Label(), e.GroupOf()) && item.annotation == GroupAnnotation(e.GroupOf())
  {
    match e
    case File(f) => FileContentQuickPanelItem(f, settings)
    case Buffer(b) => BufferContentQuickPanelItem(b)
  }

  /** `create_panel_items`: one row per tracked entry, in the same order; a row is
      a variable row exactly when its entry is a file. */
  function CreatePanelItems(tracked: seq<Entry>, settings: OpenTabSettings): (items: seq<QuickPanelItem>)
    ensures |items| == |tracked|
    ensures forall i :: 0 <= i < |items| ==> (items[i].kind == KindVariable <==> tracked[i].File?)
    ensures forall i :: 0 <= i < |items| ==> StartsWith(items[i].trigger, tracked[i].Label())
    ensures forall i :: 0 <= i < |items| && tracked[i].Buffer? ==> items[i].details == Text(UnsavedMarker)
    ensures forall i :: 0 <= i < |items| && tracked[i].File? ==>
              items[i].details.Lines? && |items[i].details.lines| == 3
              && items[i].details.lines[0] == Underline(TruncatedPath(tracked[i].file, settings).truncatedFolderPath)
              && items[i].details.lines[1] == Strong(TruncatedPath(tracked[i].file, settings).truncatedSuffix)
              && (items[i].details.lines[2] != "" <==> tracked[i].file.modified)
  {
    seq(|tracked|, i requires 0 <= i < |tracked| => CreateFilePanelItem(tracked[i], settings))
  }

  /** The position of the last '|' in `t`, or -1. */
  function LastBar(t: string): (i: int)
    ensures -1 <= i < |t|
    ensures i >= 0 ==> t[i] == '|'
    ensures forall j :: i < j < |t| ==> t[j] != '|'
  {
    if |t| == 0 then -1 else if t[|t| - 1] == '|' then |t| - 1 else LastBar(t[..|t| - 1])
  }

  /** Reads a trigger `name|group` back into its name and group number. */
  function SplitTrigger(t: string): Option<(string, nat)> {
    var i := LastBar(t);
    if i < 0 then None
    else
      var digits := t[i + 1..];
      if |digits| > 0 && AllDigits(digits) then Some((t[..i], DigitsValue(digits))) else None
  }

  /** A trigger names its tab and its group unambiguously: the text after the last
      '|' is the group number and everything before it is the name, even when the
      name itself contains '|'. */
  lemma TriggerRoundTrip(name: string, group: nat)
    ensures SplitTrigger(Trigger(name, group)) == Some((name, group))
  {
    var digits := NatToString(group);
    var t := name + "|" + digits;
    assert t[|name|] == '|';
    forall j | |name| < j < |t|
      ensures t[j] != '|'
    {
      assert t[j] == digits[j - |name| - 1];
    }
    assert LastBar(t) == |name|;
    assert t[|name| + 1..] == digits;
    assert t[..|name|] == name;
    DigitsRoundTrip(group);
  }

  /** Every row's trigger recovers the entry's label and group, and its annotation
      names the same group. */
  lemma PanelItemsIdentifyTabs(tracked: seq<Entry>, settings: OpenTabSettings)
    ensures var items := CreatePanelItems(tracked, settings);
            forall i :: 0 <= i < |items| ==>
              && items[i].trigger == Trigger(tracked[i].Label(), tracked[i].GroupOf())
              && SplitTrigger(items[i].trigger) == Some((tracked[i].Label(), tracked[i].GroupOf()))
              && items[i].annotation == GroupAnnotation(tracked[i].GroupOf())
  {
    forall i | 0 <= i < |tracked|
      ensures SplitTrigger(CreatePanelItems(tracked, settings)[i].trigger) == Some((tracked[i].Label(), tracked[i].GroupOf()))
    {
      TriggerRoundTrip(tracked[i].Label(), tracked[i].GroupOf());
    }
  }

  /** `when_file_selected`: the view to focus, if any. */
  function WhenFileSelected(tracked: seq<Entry>, selectedIndex: int, index: int): (focus: Option<View>)
    requires index >= -1 && selectedIndex >= -1
    ensures var u := if index == -1 then selectedIndex else index;
            (focus.Some? <==> 0 <= u < |tracked|) && (focus.Some? ==> focus.value == tracked[u].ViewOf())
  {
    match Resolve(tracked, selectedIndex, index)
    case Some(e) => Some(e.ViewOf())
    case None => None
  }

  /** In a split window nothing is pre-selected, so cancelling the panel (the
      host reports index -1) focuses nothing; with no tracked entries nothing is
      ever focused. */
  lemma NoFocusWithoutSelection(w: Window, tracked: seq<Entry>, selectedIndex: int, index: int)
    requires HasGroups(w) ==> selectedIndex == -1
    requires index >= -1 && selectedIndex >= -1
    requires |tracked| == 0 || (HasGroups(w) && index == -1)
    ensures WhenFileSelected(tracked, selectedIndex, index).None?
  {
  }

  // ---------------------------------------------------------------------------
  // Pre-selection: `selected_index` counts every enumerated view, skipped ones
  // included, but `when_file_selected` uses it to index the tracked list.
  // ---------------------------------------------------------------------------

  /** The tracked entries as (view, group) placements. */
  function Placements(tracked: seq<Entry>): (ps: seq<Placed>)
    ensures |ps| == |tracked|
    ensures forall i :: 0 <= i < |ps| ==> ps[i] == Placed(tracked[i].ViewOf(), tracked[i].GroupOf())
  {
    seq(|tracked|, i requires 0 <= i < |tracked| => Placed(tracked[i].ViewOf(), tracked[i].GroupOf()))
  }

  /** The pre-selection as evidently intended: the active view's row among the
      tracked entries, -1 in a split window or when it is not tracked. */
  function IntendedSelectedIndex(w: Window, tracked: seq<Entry>): (r: int)
    ensures -1 <= r < |tracked|
    ensures HasGroups(w) ==> r == -1
    ensures r >= 0 ==> w.activeView == Some(tracked[r].ViewOf().id)
    ensures !HasGroups(w) && r == -1 ==> forall j :: 0 <= j < |tracked| ==> w.activeView != Some(tracked[j].ViewOf().id)
  {
    if HasGroups(w) then -1 else ActiveIndex(Placements(tracked), w.activeView)
  }

  /** With the intended index, cancelling the panel (index -1) focuses the
      active view whenever it is tracked. */
  lemma IntendedPreselectionFocusesActive(w: Window)
    requires !HasGroups(w)
    ensures var tracked := Classified(Enumerate(w.groups), Classifier(ProjectFolder(w)));
            var focus := WhenFileSelected(tracked, IntendedSelectedIndex(w, tracked), -1);
            && (focus.Some? ==> Some(focus.value.id) == w.activeView)
            && ((exists j :: 0 <= j < |tracked| && w.activeView == Some(tracked[j].ViewOf().id)) ==> focus.Some?)
  {
  }

  /** When no view of an unsplit window is skipped, the index `add_views` records
      is the intended one. */
  lemma PreselectionExactWhenNothingSkipped(w: Window)
    requires !HasGroups(w)
    requires forall p :: p in Enumerate(w.groups) ==> p.view.fileName.Some? || p.view.name != ""
    ensures var tracked := Classified(Enumerate(w.groups), Classifier(ProjectFolder(w)));
            ActiveIndex(Enumerate(w.groups), w.activeView) == IntendedSelectedIndex(w, tracked)
  {
    var ps := Enumerate(w.groups);
    var classify := Classifier(ProjectFolder(w));
    assert forall i :: 0 <= i < |ps| ==> classify(ps[i]).Some?;
    ClassifiedTotal(ps, classify);
    var tracked := Classified(ps, classify);
    assert Placements(tracked) == ps;
  }

  /** The views of the counterexample: an empty unsaved tab (no file, no name),
      the active file `/p/a.py` and a second file `/p/b.py`. */
  const SkewEmpty: View := View(1, None, "", false)
  const SkewA: View := View(2, Some("/p/a.py"), "a.py", false)
  const SkewB: View := View(3, Some("/p/b.py"), "b.py", false)

  /** The window of the counterexample: one group holding the three views in
      that order, project folder `/p`, `a.py` active. */
  const SkewWindow: Window := Window([[SkewEmpty, SkewA, SkewB]], Some(SkewA.id), Some("/p"))

  lemma SkewEnumeration()
    ensures Enumerate(SkewWindow.groups) == [Placed(SkewEmpty, 0), Placed(SkewA, 0)] + [Placed(SkewB, 0)]
  {
    assert SkewWindow.groups[..0] == [];
  }

  lemma SkewTracked()
    ensures var tracked := Classified(Enumerate(SkewWindow.groups), Classifier(ProjectFolder(SkewWindow)));
            |tracked| == 2 && tracked[0].ViewOf() == SkewA && tracked[1].ViewOf() == SkewB
            && tracked[0].GroupOf() == 0 && tracked[1].GroupOf() == 0
  {
    var classify := Classifier(ProjectFolder(SkewWindow));
    var p0, p1, p2 := Placed(SkewEmpty, 0), Placed(SkewA, 0), Placed(SkewB, 0);
    SkewEnumeration();
    assert [p0, p1] == [p0] + [p1];
    assert [p0] == [] + [p0];
    ClassifiedStep([], p0, classify);
    ClassifiedStep([p0], p1, classify);
    ClassifiedStep([p0, p1], p2, classify);
  }

  lemma SkewRecordedIndex()
    ensures ActiveIndex(Enumerate(SkewWindow.groups), SkewWindow.activeView) == 1
  {
    var p0, p1, p2 := Placed(SkewEmpty, 0), Placed(SkewA, 0), Placed(SkewB, 0);
    SkewEnumeration();
    ActiveIndexStep([p0, p1], p2, SkewWindow.activeView);
    assert [p0, p1] == [p0] + [p1];
    ActiveIndexStep([p0], p1, SkewWindow.activeView);
  }

  /** As written, the pre-selected row in `SkewWindow` is `b.py`'s: the panel
      opens on it, and cancelling (index -1) focuses `SkewB` although `SkewA`
      is active. */
  lemma PreselectionSkipsCounterexample()
    ensures var ps := Enumerate(SkewWindow.groups);
            var tracked := Classified(ps, Classifier(ProjectFolder(SkewWindow)));
            var selected := ActiveIndex(ps, SkewWindow.activeView);
            && selected == 1
            && WhenFileSelected(tracked, selected, -1) == Some(SkewB)
            && IntendedSelectedIndex(SkewWindow, tracked) == 0
  {
    var tracked := Classified(Enumerate(SkewWindow.groups), Classifier(ProjectFolder(SkewWindow)));
    SkewTracked();
    SkewRecordedIndex();
    SkewIntendedIndex(tracked);
  }

  lemma SkewIntendedIndex(tracked: seq<Entry>)
    requires |tracked| == 2 && tracked[0].ViewOf() == SkewA && tracked[1].ViewOf() == SkewB
    ensures IntendedSelectedIndex(SkewWindow, tracked) == 0
  {
    var placed := Placements(tracked);
    assert placed == [placed[0]] + [placed[1]];
    ActiveIndexStep([placed[0]], placed[1], SkewWindow.activeView);
    ActiveIndexStep([], placed[0], SkewWindow.activeView);
    assert [] + [placed[0]] == [placed[0]];
  }

  /** Two tabs in one group: `/proj/src/a.py` (active) and an unsaved buffer
      `Untitled-1`, with project folder `/proj`. */
  const ScenarioWindow: Window := Window(
    [[View(1, Some("/proj/src/a.py"), "a.py", false), View(2, None, "Untitled-1", false)]],
    Some(1), Some("/proj"))

  /** `ScenarioWindow` tracks a file entry for `a.py` and a buffer entry, and
      pre-selects the first row. */
  lemma ScenarioTracked()
    ensures var ps := Enumerate(ScenarioWindow.groups);
            var v := ScenarioWindow.groups[0];
            && Classified(ps, Classifier(ProjectFolder(ScenarioWindow))) ==
                 [File(NewFileContents(v[0], "/proj/src/a.py", Some("/proj"), 0)),
                  Buffer(BufferContents(v[1], "Untitled-1", 0))]
            && ActiveIndex(ps, ScenarioWindow.activeView) == 0
  {
    var w := ScenarioWindow;
    var v1, v2 := w.groups[0][0], w.groups[0][1];
    var ps := Enumerate(w.groups);
    assert w.groups[..0] == [];
    assert ps == [Placed(v1, 0)] + [Placed(v2, 0)];
    assert [Placed(v1, 0)] == [] + [Placed(v1, 0)];
    var classify := Classifier(ProjectFolder(w));
    ClassifiedStep([], Placed(v1, 0), classify);
    ClassifiedStep([Placed(v1, 0)], Placed(v2, 0), classify);
    ActiveIndexStep([Placed(v1, 0)], Placed(v2, 0), w.activeView);
    ActiveIndexStep([], Placed(v1, 0), w.activeView);
  }

  /** `/proj/src/a.py` in project `/proj` has short name `a.py` and folder `src`. */
  lemma ScenarioFolder(view: View)
    ensures var fc := NewFileContents(view, "/proj/src/a.py", Some("/proj"), 0);
            fc.shortName == "a.py" && FolderPath(fc) == "src"
  {
    var path := "/proj/src/a.py";
    assert path == "/proj" + PathSep + "src" + PathSep + "a.py";
    FolderPathOfNestedFile(view, "/proj", "src", "a.py", 0);
    assert path == ("/proj" + PathSep + "src") + PathSep + "a.py";
    BasenameOfJoin("/proj" + PathSep + "src", "a.py");
  }

  /** A file whose folder fits the line length is shown with its whole folder
      underlined and an empty tail. */
  lemma FileRowShowsShortFolderWhole(fc: FileContents, settings: OpenTabSettings)
    requires |FolderPath(fc)| <= settings.truncationLineLength
    ensures var item := FileContentQuickPanelItem(fc, settings);
            item.details.Lines? && item.details.lines[0] == Underline(FolderPath(fc))
            && item.details.lines[1] == Strong("")
  {
    assert TruncatedPath(fc, settings) == TruncatedFolder(FolderPath(fc), "");
  }

  /** A file in the first group is listed as its short name followed by `|0`,
      and annotated `group0`: groups are numbered from zero. */
  lemma FileRowInFirstGroup(fc: FileContents, settings: OpenTabSettings)
    requires fc.group == 0
    ensures var item := FileContentQuickPanelItem(fc, settings);
            item.trigger == fc.shortName + "|0" && item.annotation == "group0"
  {
    assert NatToString(fc.group) == "0";
  }

  /** The unsaved buffer's row is `Untitled-1|0`, marked unsaved. */
  lemma ScenarioBufferRow(view: View)
    ensures var item := BufferContentQuickPanelItem(BufferContents(view, "Untitled-1", 0));
            item.trigger == "Untitled-1|0" && item.details == Text(UnsavedMarker) && item.annotation == "group0"
  {
    assert NatToString(0) == "0";
  }
}
