# OpenTabs in Dafny

A model of the Sublime Text plugin OpenTabs. Its "Open Tabs" command lists every
open tab of a window in a quick panel and focuses the tab the user picks. The
model covers the plugin's pure logic, in two versions side by side:

- the newer command (`OpenTabs.py` with `components/file_contents.py`), in the
  modules `FileComponent` and `OpenTabs`;
- the older single-file command (`opentabs.py`), in the module `LegacyOpenTabs`.

Three pieces make up the logic:

1. **Folder derivation and truncation.** A file tab's folder relative to the
   project folder is found by `removeprefix`, `removesuffix` and `strip_char`.
   It is `"[project]"` when the file sits directly in the project folder, and
   `"-"` when there is no project folder (the older version gives None). The
   folder is then shortened to a head and a tail under the
   `(truncation_line_length, truncation_preview_length)` settings.
2. **Tab classification** (`add_views`). The walk goes over the groups, then the
   views within each group. A view with a file name becomes a file entry; else a
   view with a non-empty tab name becomes a buffer entry; else it is skipped. In
   an unsplit window the walk also records the active view's position in
   `selected_index`.
3. **Rows and selection.** Each tracked entry gets a panel row (trigger,
   details, annotation, kind). `when_file_selected` maps a reported index back
   to a view. The host reports `-1` when the panel is cancelled, and the command
   then falls back to `selected_index`.

The host is plain data. A `View` holds an id, an optional file name, a tab name
and a dirty flag. A `Window` holds the views of each group, the active view's id
and the project folder. Focusing a view is an `Option<View>` result. The path
separator is fixed to `/`. Python's slicing (negative bounds, clipping) and
`str.startswith`/`endswith` are written out in the module `PyStr`, so the
string functions behave as the Python code does on every input.

Module layout: `Wrappers` (Option, Result), `PyStr` (Python string semantics),
`Host` (views, windows, settings, panel items), `Tabs` (the `add_views` walk,
shared by both versions), `Selection` (the index resolution, shared by both
versions), `FileComponent`, `OpenTabs`, `LegacyOpenTabs`.

Some edge cases the Python code has and the model keeps:

- `removesuffix(s, "")` returns `""`, because `s[:-0]` is `s[:0]`. So a file
  whose basename is empty is shown under `"[project]"`
  (`FileComponent.FolderPathOfEmptyShortName`).
- The newer version treats an empty project folder as no project folder. The
  older one passes it on unchanged.
- The newer version makes a file entry for a file name of `""` (it tests
  `is not None`). The older one tests truthiness, so the same view becomes a
  buffer entry or is skipped.
- The older version raises `TypeError` when it builds a file row without a
  project folder, because it calls `len(None)`. This is modelled as an `Error`
  result.
- `truncated_path` returns the `"..."` markers as part of its result: the head
  ends with one and the tail starts with one.
- The older version's rows carry no group: the trigger is the bare short name
  or tab name, and a file row's annotation is the truncated tail.

## Model

| member | source | states |
|---|---|---|
| PyStr.SliceTo | components/file_contents.py:65 | `s[:k]` is a prefix of `s`. Its length is `min(k, len)` for `k >= 0` and `max(0, len + k)` for negative `k`. |
| PyStr.StartsWith | components/file_contents.py:57 | `str.startswith`: the length of `p` fits and the first `len(p)` characters of `s` are `p`. Characterised by `PyStr.StartsWithIsPrefix`. |
| PyStr.StartsWithIsPrefix | components/file_contents.py:57 | `s` starts with `p` iff `s` is `p` followed by the rest of `s`. |
| PyStr.EndsWith | components/file_contents.py:64 | `str.endswith`: the length of `p` fits and the last `len(p)` characters of `s` are `p`. Characterised by `PyStr.EndsWithIsSuffix`. |
| PyStr.EndsWithIsSuffix | components/file_contents.py:64 | `s` ends with `p` iff `s` is the rest of `s` followed by `p`. |
| PyStr.SliceFrom | components/file_contents.py:85 | `s[k:]` is a suffix of `s`. Its length is `max(0, len - k)` for `k >= 0` and `min(-k, len)` for negative `k`. |
| PyStr.Basename | components/file_contents.py:28 | `os.path.basename` is a suffix of the path with no separator, and the character before it, if any, is a separator. |
| PyStr.BasenameOfJoin | components/file_contents.py:28 | The basename of `dir + "/" + name` is `name` when `name` has no separator. |
| PyStr.NatToString | OpenTabs.py:115 | `str(group)` is a non-empty string of decimal digits without a leading zero. |
| PyStr.DigitsRoundTrip | OpenTabs.py:115 | `int(str(n)) == n`. |
| Selection.Resolve | OpenTabs.py:134-139 | A non-negative index picks `tracked[index]` iff it is in range. `-1` falls back to `selected_index` under the same range rule. An empty list never picks. |
| Tabs.EnumerateVisitsEveryView | OpenTabs.py:65-69 | The walk visits exactly the window's views, each tagged with its own group, with group indices never decreasing. |
| Tabs.ClassifiedMembers | OpenTabs.py:77-90 | An entry is tracked iff some view classifies to it. |
| Tabs.ClassifiedAppend | OpenTabs.py:65-90 | The tracked list of a concatenation is the concatenation of the tracked lists, so enumeration order is kept. |
| Tabs.ClassifiedTotal | OpenTabs.py:77-90 | When no view is skipped, `tracked[i]` is the entry made from the i-th view. |
| Tabs.ActiveIndex | OpenTabs.py:71-75 | The recorded index is -1 or a position holding the active view, and no later position holds it. |
| Tabs.AddViewsWith | OpenTabs.py:62-90 | The nested loop builds the flatten-then-filter list. `selected_index` is the active view's position among all enumerated views when the window is unsplit, and -1 when it is split. |
| Host.HasGroups | OpenTabs.py:36 | `window.num_groups() > 1`: the window has more than one group. The same test is at opentabs.py:117. When it holds, `Tabs.AddViewsWith` records -1 whatever view is active. |
| FileComponent.NewFileContents | components/file_contents.py:25-31 | The short name is the last path component: a suffix of the path with no separator. `modified` is the view's dirty flag. |
| FileComponent.RemovePrefix | components/file_contents.py:56-60 | If `original` starts with `prefix`, then `prefix + r == original`; otherwise `r == original`. The same code is at opentabs.py:38-42. |
| FileComponent.RemovePrefixOfConcat | components/file_contents.py:56-60 | `removeprefix(p + s, p) == s`. |
| FileComponent.RemoveSuffix | components/file_contents.py:63-67 | If `original` ends with a non-empty suffix, then `r + suffix == original`. An empty suffix gives `""`. Otherwise `r == original`. The same code is at opentabs.py:45-49. |
| FileComponent.RemoveSuffixOfConcat | components/file_contents.py:63-67 | `removesuffix(s + x, x) == s` for non-empty `x`. |
| FileComponent.StripChar | components/file_contents.py:52-53 | Exact in every case. Without a leading `ch`, the result is the input, minus one trailing `ch` iff the input ends with one. With a leading `ch`, that one is removed. A trailing one is also removed iff the input ends with `ch` and is at least twice as long as `ch`. An empty `ch` gives `""`. The same code is at opentabs.py:34-35. |
| FileComponent.StripCharIsInfix | components/file_contents.py:52-53 | The result of `strip_char` is a contiguous piece of its input. |
| FileComponent.StripPathSep | components/file_contents.py:49-50 | The same four cases with the separator: `"/a/"` gives `a`, `"a/"` gives `a`, `"/a"` gives `a`, and `"/"` gives `""`. |
| FileComponent.StripPathSepOfWrapped | components/file_contents.py:49-50 | `strip_path_sep("/" + d + "/") == d`. |
| FileComponent.FolderPath | components/file_contents.py:33-47 | With no project folder the result is `"-"`. The result is never empty. |
| FileComponent.FolderPathIsPieceOfFileName | components/file_contents.py:33-47 | The folder shown is `"-"`, `"[project]"` or a contiguous piece of the file's path. A file outside the project folder degrades rather than fails. |
| FileComponent.FolderPathOfProjectFile | components/file_contents.py:38-47 | The file `root + "/" + name` is shown under `"[project]"`. |
| FileComponent.FolderPathOfNestedFile | components/file_contents.py:38-47 | The file `root/dir/name` is shown under `dir`. |
| FileComponent.FolderPathOfEmptyShortName | components/file_contents.py:40 | With an empty basename the folder shown is `"[project]"`, because `removesuffix` with `""` empties the string. |
| FileComponent.TruncatedPath | components/file_contents.py:73-91 | The project marker is never cut, whatever the settings. A folder that fits is returned whole with an empty tail. Otherwise the result is `head + "..."` and `"..." + tail`, where `head` is a prefix and `tail` a suffix of the folder, each of `min(n, len)` characters for `n > 0`. The empty-folder branch is unreachable, since the first part is never empty. |
| FileComponent.TruncationOverlapShowsWholeFolder | components/file_contents.py:82-87 | When the preview length is at least the folder's length, both halves show the whole folder. |
| FileComponent.TruncationExampleShort | components/file_contents.py:88-89 | With settings (10, 3) the file `/r/a/b/c/d/e/x.py` in project `/r` gives `("a/b/c/d/e", "")`. |
| OpenTabs.ProjectFolder | OpenTabs.py:81 | An empty project folder counts as no folder. |
| OpenTabs.ClassifyView | OpenTabs.py:79-90 | A view yields an entry iff it has a file name (even `""`) or a non-empty tab name. The entry is a file entry iff there is a file name. It keeps the view and group. A file entry keeps the file name and folder, its short name is the basename of the file name (components/file_contents.py:28), and it is modified iff the view is dirty (:31). |
| OpenTabs.AddViews | OpenTabs.py:62-90 | The tracked list is the window's views, flattened group by group and filtered by `ClassifyView`. `selected_index` is as in `Tabs.AddViewsWith`. |
| OpenTabs.TrackedAreTheVisibleViews | OpenTabs.py:77-90 | Every tracked entry comes from a view of the window. Every view with a file name or a tab name is tracked. |
| OpenTabs.FileContentQuickPanelItem | OpenTabs.py:113-124 | A file row has kind VARIABLE and three detail lines. The first is the head of `TruncatedPath`, underlined. The second is its tail, in bold. The third is non-empty iff the file is modified. The trigger is exactly the short name, a bar and `str(group)`, and the annotation is exactly `group` followed by `str(group)`. |
| OpenTabs.BufferContentQuickPanelItem | OpenTabs.py:126-132 | A buffer row has kind NAVIGATION and details `"*unsaved"`. Its trigger is exactly the tab name, a bar and `str(group)`, and its annotation is `group` followed by `str(group)`. |
| OpenTabs.CreateFilePanelItem | OpenTabs.py:107-111 | A file entry gets the file row and a buffer entry gets the buffer row. Either way the trigger is the entry's label, a bar and its group, and the annotation names the group. |
| OpenTabs.CreatePanelItems | OpenTabs.py:104-111 | One row per tracked entry, in order. A row is VARIABLE iff its entry is a file. File rows show their entry's truncated head and tail and carry the modified flag. Buffer rows carry the unsaved marker. |
| OpenTabs.TriggerRoundTrip | OpenTabs.py:115 | A trigger built as name, bar, `str(group)` splits back at its last bar character into the name and the group, even if the name itself contains a bar. |
| OpenTabs.PanelItemsIdentifyTabs | OpenTabs.py:113-132 | Every row's trigger is exactly its entry's label, a bar and `str(group)`, and it splits back into that label and group. Its annotation is `"group" + str(group)`. |
| OpenTabs.WhenFileSelected | OpenTabs.py:134-139 | Focuses `tracked[u].view`, where `u` is `index`, or `selected_index` when `index == -1`, exactly when `0 <= u < len(tracked)`. Otherwise nothing is focused. |
| OpenTabs.NoFocusWithoutSelection | OpenTabs.py:134-139 | Nothing is focused when the tracked list is empty, or when a panel in a split window is cancelled (index -1). |
| OpenTabs.IntendedSelectedIndex | OpenTabs.py:71-75 | Corrected pre-selection: the active view's row among the tracked entries. It is -1 in a split window or when the active view is untracked. |
| OpenTabs.IntendedPreselectionFocusesActive | OpenTabs.py:134-139 | With the corrected index, cancelling the panel (index -1) focuses the active view whenever it is tracked, and never any other view. |
| OpenTabs.PreselectionExactWhenNothingSkipped | OpenTabs.py:71-75 | When no view is skipped, the recorded index equals the corrected one. |
| OpenTabs.PreselectionSkipsCounterexample | OpenTabs.py:71-75 | In `SkewWindow` (an empty tab, then the active `a.py`, then `b.py`) the recorded index is 1, so the panel opens on `b.py`'s row and cancelling it (index -1) focuses `b.py` while `a.py` is active. The corrected index is 0. |
| OpenTabs.ScenarioTracked | OpenTabs.py:62-90 | `/proj/src/a.py` (active) and the buffer `Untitled-1` give a file entry and a buffer entry, and pre-selection 0. |
| OpenTabs.ScenarioFolder | components/file_contents.py:25-47 | `/proj/src/a.py` in `/proj` has short name `a.py` and folder `src`. |
| OpenTabs.FileRowShowsShortFolderWhole | OpenTabs.py:116-121 | A file whose folder fits the line length shows the whole folder, underlined, on its first detail line. Its second detail line is an empty bold tail. |
| OpenTabs.FileRowInFirstGroup | OpenTabs.py:114-122 | A file in group 0 has as trigger its short name, a bar and `0`, and annotation `group0`: groups are numbered from zero. |
| OpenTabs.ScenarioBufferRow | OpenTabs.py:126-132 | The buffer's row has trigger `Untitled-1`, bar, `0`, marked `*unsaved`. |
| LegacyOpenTabs.NewLegacyFileContents | opentabs.py:9-13 | The short name is the separator-free suffix of the view's file name that is either the whole path or preceded by a separator: the basename. |
| LegacyOpenTabs.FolderPath | opentabs.py:15-29 | None iff there is no project folder; otherwise a non-empty folder. |
| LegacyOpenTabs.FolderPathAgreesWithNewer | opentabs.py:15-29 | With a project folder, the older folder is the newer one. |
| LegacyOpenTabs.TruncatedPath | opentabs.py:55-64 | Gives `""` for the project marker and for a folder that fits. Otherwise it gives `"..."` followed by a suffix of the folder. A project folder is required. |
| LegacyOpenTabs.TruncatedPathIsNewerSuffix | opentabs.py:55-64 | The older annotation equals the newer version's truncated tail. |
| LegacyOpenTabs.ClassifyView | opentabs.py:155-162 | A file entry iff the file name is present and non-empty, else a buffer entry iff the tab name is non-empty, else nothing. A file entry keeps the view, the file name and the project folder, and its short name is the basename of the file name (opentabs.py:11-12). |
| LegacyOpenTabs.AddViews | opentabs.py:140-162 | The tracked list is the flatten-then-filter list. `selected_index` counts all views in an unsplit window and is -1 in a split one. |
| LegacyOpenTabs.EmptyFileNameClassifiedDifferently | opentabs.py:155 | A view with file name `""` never becomes a file entry here. |
| LegacyOpenTabs.CreateFilePanelItem | opentabs.py:175-181 | A file row is labelled with its short name and has kind VARIABLE. Its details are the whole folder, underlined, and its annotation is the truncated tail. It raises without a project folder. A buffer row is labelled with its tab name, has details `""`, is annotated `"unsaved"` and has kind NAVIGATION. |
| LegacyOpenTabs.CreatePanelItems | opentabs.py:172-173 | Raises iff some file entry lacks a project folder. Otherwise one row per entry, in order. |
| LegacyOpenTabs.WhenFileSelected | opentabs.py:183-188 | The same `-1` fallback and bounds rule as the newer version. |

## Left out

- `load_open_tab_settings` and its printed notice: reading the settings file is I/O. Settings are an input; the fallback pair is the constant `Host.DefaultSettings`.
- `run`, `show_quick_panel` and the `"OpenTabs: {count}"` placeholder: host UI calls. The model stops at the rows, the pre-selection index and the view to focus.
- `get_folder_name` and `extract_variables`: the project folder is a field of the `Window` value.
- `focus_view`: replaced by the `Option<View>` that `WhenFileSelected` returns.
- `is_enabled` and `is_visible`: host glue over `window.views()`.
- `__str__` and `__repr__`: debug strings.
- `Group` and `OpenTabSettings` from the newer components are not part of this model. A group is a `nat`, and the settings are a pair of `int`s whose sign nothing checks.
- The HTML markup in the detail strings is kept as literal text and not interpreted.
- Only the POSIX separator `/` is modelled. Windows `\` and `os.path.altsep` are out of scope.
- `View.__bool__` for the active view: an active view is taken to be present whenever the host reports one.
- Selection.Resolve: requires `index >= -1` and `selected_index >= -1`. The code's other negative indices would go through Python's negative indexing, which is not modelled. `selected_index` is always at least -1.
- OpenTabs.WhenFileSelected: the same precondition as `Selection.Resolve`.
- LegacyOpenTabs.WhenFileSelected: the same precondition as `Selection.Resolve`.
- LegacyOpenTabs.TruncatedPath: requires a project folder. Without one the Python code raises, and that error is modelled in `LegacyOpenTabs.CreateFilePanelItem`.
- LegacyOpenTabs.NewLegacyFileContents: requires a file name. The command builds it only for views whose file name is truthy.

## Findings

| source | as written | input that shows it | evidently intended | confidence | as-written member | corrected member |
|---|---|---|---|---|---|---|
| OpenTabs.py:71-75 | `selected_index` counts every enumerated view, including skipped ones (no file, empty name). `when_file_selected` then uses it as an index into the filtered tracked list. The older version counts the same way (opentabs.py:149-153). It does not pass `selected_index` to the panel (opentabs.py:133-138), so there only the cancel fallback is affected. | One group: an empty untitled tab, then the active `/p/a.py`, then `/p/b.py`. `selected_index` is 1 and `tracked[1]` is `b.py`, so the panel opens on the wrong row, and cancelling it (index -1) focuses the wrong tab. | Pre-select the active view's row among the tracked entries. | medium, not executed | OpenTabs.PreselectionSkipsCounterexample | OpenTabs.IntendedSelectedIndex |
