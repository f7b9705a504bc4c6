/**
  The editor as plain data. Sublime Text's views, the window that groups them,
  the plugin's two settings and the quick-panel row type are values here; the
  plugin only ever reads them.
 */
module Host {
  import opened Wrappers

  /** One open tab. `fileName` is `view.file_name()` (None for a buffer never saved),
      `name` is `view.name()` and `dirty` is `view.is_dirty()`. Two views are the
      same view exactly when their ids agree. */
  datatype View = View(id: nat, fileName: Option<string>, name: string, dirty: bool)

  /** The window: `groups[g]` is `window.views_in_group(g)` for every
      `g < window.num_groups()`, `activeView` the id of `window.active_view()` and
      `folder` the `folder` entry of `window.extract_variables()`. */
  datatype Window = Window(groups: seq<seq<View>>, activeView: Option<nat>, folder: Option<string>)

  /** A view together with the index of the group it was found in. */
  datatype Placed = Placed(view: View, group: nat)

  /** `truncation_line_length` and `truncation_preview_length`, as read from the
      settings file; nothing in the plugin checks their sign. */
  datatype OpenTabSettings = OpenTabSettings(truncationLineLength: int, truncationPreviewLength: int)

  /** The pair used when the settings file lacks either key. */
  const DefaultSettings: OpenTabSettings := OpenTabSettings(30, 15)

  /** The window is split: `window.num_groups() > 1`. */
  predicate HasGroups(w: Window) {
    |w.groups| > 1
  }

  /** `sublime.KIND_VARIABLE` and `sublime.KIND_NAVIGATION`. */
  datatype Kind = KindVariable | KindNavigation

  /** A quick-panel item's details: one string or a list of lines. */
  datatype Details = Text(text: string) | Lines(lines: seq<string>)

  /** `sublime.QuickPanelItem(trigger, details, annotation, kind)`. */
  datatype QuickPanelItem = QuickPanelItem(trigger: string, details: Details, annotation: string, kind: Kind)

  /** Quick-panel markup: `s` underlined. */
  function Underline(s: string): string {
    "<u>" + s + "</u>"
  }

  /** Quick-panel markup: `s` in bold. */
  function Strong(s: string): string {
    "<strong>" + s + "</strong>"
  }
}
