/**
  The index resolution of `when_file_selected`, shared by both versions of the
  command: the panel reports an index, `-1` stands for "the pre-selected row",
  and an index that does not name a tracked entry does nothing.
 */
module Selection {
  import opened Wrappers

  /** The entry a reported `index` resolves to, or None when nothing is focused. */
  function Resolve<E>(tracked: seq<E>, selectedIndex: int, index: int): (r: Option<E>)
    requires index >= -1 && selectedIndex >= -1
    ensures index >= 0 ==> (r.Some? <==> index < |tracked|)
    ensures index == -1 ==> (r.Some? <==> 0 <= selectedIndex < |tracked|)
    ensures r.Some? && index >= 0 ==> r.value == tracked[index]
    ensures r.Some? && index == -1 ==> r.value == tracked[selectedIndex]
    ensures |tracked| == 0 ==> r.None?
  {
    var userSelection := if index == -1 then selectedIndex else index;
    if userSelection != -1 && |tracked| > 0 && |tracked| > userSelection then
      Some(tracked[userSelection])
    else
      None
  }
}
