/** The loops of group dispatch: resolving the one group of a set of snapshots, and which groups a transition locks. */
module GroupLockLoops {
  import opened Common
  import opened GroupLocks

  /** Two snapshots with different non-zero groups. */
  predicate Mixed(snapshots: seq<Ent>) {
    exists i, j :: 0 <= i < |snapshots| && 0 <= j < |snapshots| && snapshots[i].group != 0 && snapshots[j].group != 0
                   && snapshots[i].group != snapshots[j].group
  }

  /** The group is the only non-zero one, or zero when there is none. */
  predicate OnlyGroup(snapshots: seq<Ent>, g: int) {
    && (forall i :: 0 <= i < |snapshots| ==> snapshots[i].group == 0 || snapshots[i].group == g)
    && (g == 0 || exists i :: 0 <= i < |snapshots| && snapshots[i].group == g)
  }

  method ResolveDispatchGroup(snapshots: seq<Ent>) returns (r: Option<int>)
    ensures r == ResolveGroup(snapshots, 0)
    ensures r.None? <==> Mixed(snapshots)
    ensures r.Some? ==> OnlyGroup(snapshots, r.value)
  {
    var group := 0;
    for n := 0 to |snapshots|
      invariant OnlyGroup(snapshots[..n], group)
      invariant ResolveGroup(snapshots, 0) == ResolveGroup(snapshots[n..], group)
    {
      var next := snapshots[n].group;
      assert snapshots[..n + 1] == snapshots[..n] + [snapshots[n]];
      assert snapshots[n..][1..] == snapshots[n + 1..];
      if next == 0 {
        assert forall i :: 0 <= i < n ==> snapshots[..n + 1][i] == snapshots[..n][i];
        continue;
      }
      if group == 0 {
        assert snapshots[..n + 1][n].group == next;
        group := next;
        continue;
      }
      if group != next {
        var i :| 0 <= i < n && snapshots[..n][i].group == group;
        assert snapshots[i].group != 0 && snapshots[n].group != 0 && snapshots[i].group != snapshots[n].group;
        return None;
      }
    }
    assert snapshots[..|snapshots|] == snapshots;
    return Some(group);
  }

  /** Which groups a transition of each kind must hold: none twice, none zero, in rising order. */
  lemma TransitionGroupsMeaning(current: int, target: int, kind: Kind)
    ensures var r := TransitionGroups(current, target, kind);
            && (forall i, j :: 0 <= i < j < |r| ==> r[i] < r[j])
            && (forall g :: g in r <==> g != 0 && ((kind != Kind.Leave && g == target) || (kind != Join && g == current)))
  {}
}
