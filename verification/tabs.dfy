/**
  The walk of `add_views`, common to both versions of the command: every view of
  every group is visited in order, a per-view classifier decides whether it is
  tracked, and in an unsplit window a running counter records where the active
  view was met.
 */
module Tabs {
  import opened Wrappers
  import opened Host

  /** The views of one group, each tagged with the group's index. */
  function Tag(views: seq<View>, g: nat): (r: seq<Placed>)
    ensures |r| == |views|
    ensures forall i :: 0 <= i < |r| ==> r[i] == Placed(views[i], g)
  {
    seq(|views|, i requires 0 <= i < |views| => Placed(views[i], g))
  }

  /** Every view of the window, group by group and in order within a group. */
  function Enumerate(groups: seq<seq<View>>): seq<Placed>
  {
    if |groups| == 0 then []
    else Enumerate(groups[..|groups| - 1]) + Tag(groups[|groups| - 1], |groups| - 1)
  }

  /** The enumeration visits exactly the views of the window, each with its own
      group index, and never goes back to an earlier group. */
  lemma {:induction false} EnumerateVisitsEveryView(groups: seq<seq<View>>)
    ensures var r := Enumerate(groups);
      && (forall i :: 0 <= i < |r| ==> r[i].group < |groups| && r[i].view in groups[r[i].group])
      && (forall i, j :: 0 <= i < j < |r| ==> r[i].group <= r[j].group)
      && (forall g, k :: 0 <= g < |groups| && 0 <= k < |groups[g]| ==> Placed(groups[g][k], g) in r)
  {
    if |groups| > 0 {
      var last := |groups| - 1;
      var init := groups[..last];
      EnumerateVisitsEveryView(init);
      var front := Enumerate(init);
      var r := front + Tag(groups[last], last);
      assert forall g :: 0 <= g < last ==> init[g] == groups[g];
      forall g, k | 0 <= g < |groups| && 0 <= k < |groups[g]|
        ensures Placed(groups[g][k], g) in r
      {
        if g == last {
          assert r[|front| + k] == Placed(groups[g][k], g);
        } else {
          assert Placed(init[g][k], g) in front;
        }
      }
    }
  }

  /** The tracked list: the classifier's verdicts on `ps`, skipped views dropped,
      order kept. */
  function Classified<E>(ps: seq<Placed>, classify: Placed -> Option<E>): (r: seq<E>)
    ensures |r| <= |ps|
  {
    if |ps| == 0 then []
    else
      var rest := Classified(ps[..|ps| - 1], classify);
      match classify(ps[|ps| - 1])
      case Some(e) => rest + [e]
      case None => rest
  }

  /** An entry is tracked exactly when some view classifies to it. */
  lemma {:induction false} ClassifiedMembers<E>(ps: seq<Placed>, classify: Placed -> Option<E>)
    ensures forall e :: e in Classified(ps, classify) <==>
              exists i :: 0 <= i < |ps| && classify(ps[i]) == Some(e)
  {
    if |ps| > 0 {
      var init := ps[..|ps| - 1];
      ClassifiedMembers(init, classify);
      assert forall i :: 0 <= i < |init| ==> init[i] == ps[i];
      forall e | exists i :: 0 <= i < |ps| && classify(ps[i]) == Some(e)
        ensures e in Classified(ps, classify)
      {
        var i :| 0 <= i < |ps| && classify(ps[i]) == Some(e);
        if i < |init| {
          assert classify(init[i]) == Some(e);
        }
      }
    }
  }

  /** When no view is skipped, the tracked list is the classifier applied to each view. */
  lemma {:induction false} ClassifiedTotal<E>(ps: seq<Placed>, classify: Placed -> Option<E>)
    requires forall i :: 0 <= i < |ps| ==> classify(ps[i]).Some?
    ensures |Classified(ps, classify)| == |ps|
    ensures forall i :: 0 <= i < |ps| ==> Classified(ps, classify)[i] == classify(ps[i]).value
  {
    if |ps| > 0 {
      var init := ps[..|ps| - 1];
      assert forall i :: 0 <= i < |init| ==> init[i] == ps[i];
      ClassifiedTotal(init, classify);
    }
  }

  /** Classifying a concatenation classifies each part: the tracked list keeps
      enumeration order. */
  lemma {:induction false} ClassifiedAppend<E>(a: seq<Placed>, b: seq<Placed>, classify: Placed -> Option<E>)
    ensures Classified(a + b, classify) == Classified(a, classify) + Classified(b, classify)
    decreases |b|
  {
    if |b| == 0 {
      assert a + b == a;
    } else {
      var b' := b[..|b| - 1];
      assert (a + b)[..|a + b| - 1] == a + b';
      ClassifiedAppend(a, b', classify);
    }
  }

  /** The 0-based position of the last view whose id is the active view's id, or
      -1 when there is no active view or it is not among `ps`. */
  function ActiveIndex(ps: seq<Placed>, active: Option<nat>): (r: int)
    ensures -1 <= r < |ps|
    ensures r >= 0 ==> active.Some? && ps[r].view.id == active.value
    ensures forall j :: r < j < |ps| ==> !(active.Some? && ps[j].view.id == active.value)
  {
    if |ps| == 0 then -1
    else if active.Some? && ps[|ps| - 1].view.id == active.value then |ps| - 1
    else ActiveIndex(ps[..|ps| - 1], active)
  }

  lemma EnumerateStep(groups: seq<seq<View>>, g: nat)
    requires g < |groups|
    ensures Enumerate(groups[..g + 1]) == Enumerate(groups[..g]) + Tag(groups[g], g)
  {
    assert groups[..g + 1][..g] == groups[..g];
  }

  lemma TagStep(views: seq<View>, k: nat, g: nat)
    requires k < |views|
    ensures Tag(views[..k + 1], g) == Tag(views[..k], g) + [Placed(views[k], g)]
  {
  }

  lemma ClassifiedStep<E>(seen: seq<Placed>, p: Placed, classify: Placed -> Option<E>)
    ensures Classified(seen + [p], classify) ==
            Classified(seen, classify) + (if classify(p).Some? then [classify(p).value] else [])
  {
    assert (seen + [p])[..|seen|] == seen;
  }

  lemma ActiveIndexStep(seen: seq<Placed>, p: Placed, active: Option<nat>)
    ensures ActiveIndex(seen + [p], active) ==
            if active.Some? && p.view.id == active.value then |seen| else ActiveIndex(seen, active)
  {
    assert (seen + [p])[..|seen|] == seen;
  }

  /** `add_views`, with the decision of what a view becomes left to `classify`:
      returns the tracked list and `selected_index`. */
  method AddViewsWith<E>(w: Window, classify: Placed -> Option<E>) returns (tracked: seq<E>, selectedIndex: int)
    ensures tracked == Classified(Enumerate(w.groups), classify)
    ensures HasGroups(w) ==> selectedIndex == -1
    ensures !HasGroups(w) ==> selectedIndex == ActiveIndex(Enumerate(w.groups), w.activeView)
  {
    tracked := [];
    selectedIndex := -1;
    var index := -1;
    var hasGroups := |w.groups| > 1;
    var groupIndex := 0;
    while groupIndex < |w.groups|
      invariant 0 <= groupIndex <= |w.groups|
      invariant tracked == Classified(Enumerate(w.groups[..groupIndex]), classify)
      invariant !hasGroups ==> index == |Enumerate(w.groups[..groupIndex])| - 1
      invariant hasGroups ==> selectedIndex == -1
      invariant !hasGroups ==> selectedIndex == ActiveIndex(Enumerate(w.groups[..groupIndex]), w.activeView)
    {
      var views := w.groups[groupIndex];
      ghost var done := Enumerate(w.groups[..groupIndex]);
      var k := 0;
      assert done + Tag(views[..k], groupIndex) == done;
      while k < |views|
        invariant 0 <= k <= |views|
        invariant tracked == Classified(done + Tag(views[..k], groupIndex), classify)
        invariant !hasGroups ==> index == |done| + k - 1
        invariant hasGroups ==> selectedIndex == -1
        invariant !hasGroups ==> selectedIndex == ActiveIndex(done + Tag(views[..k], groupIndex), w.activeView)
      {
        var view := views[k];
        ghost var seen := done + Tag(views[..k], groupIndex);
        TagStep(views, k, groupIndex);
        assert done + Tag(views[..k + 1], groupIndex) == seen + [Placed(view, groupIndex)];
        ClassifiedStep(seen, Placed(view, groupIndex), classify);
        ActiveIndexStep(seen, Placed(view, groupIndex), w.activeView);
        if !hasGroups {
          index := index + 1;
          if w.activeView.Some? && w.activeView.value == view.id {
            selectedIndex := index;
          }
        }
        match classify(Placed(view, groupIndex)) {
          case Some(e) =>
            tracked := tracked + [e];
          case None =>
        }
        k := k + 1;
      }
      assert views[..|views|] == views;
      EnumerateStep(w.groups, groupIndex);
      groupIndex := groupIndex + 1;
    }
    assert w.groups[..|w.groups|] == w.groups;
  }
}
