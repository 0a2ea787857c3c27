/** The decode part of a scheduler pass: group the active slots by step, run the groups in order. */
module DecodePass {
  import opened Prelude
  import opened DecodeStep
  import opened ContinuousBatch

  type Groups = seq<(nat, seq<nat>)>

  /** The unfinished slots below `k` with their steps. */
  function Active(running: seq<Option<RunningSlot>>, k: nat): seq<(nat, nat)>
    requires k <= |running|
  {
    if k == 0 then [] else
      var active := Active(running, k - 1);
      if running[k - 1].Some? && !running[k - 1].value.slot.finished
      then active + [(k - 1, running[k - 1].value.slot.decodeStep)] else active
  }

  /** The slot indices listed with a step, in order. */
  function IndicesWith(active: seq<(nat, nat)>, step: nat): seq<nat> {
    if active == [] then [] else
      var k := |active| - 1;
      IndicesWith(active[..k], step) + (if active[k].1 == step then [active[k].0] else [])
  }

  /** One group per step that occurs, steps ascending, each with its slots in order. */
  ghost predicate GroupedByStep(active: seq<(nat, nat)>, groups: Groups) {
    && (forall g, h :: 0 <= g < h < |groups| ==> groups[g].0 < groups[h].0)
    && (forall g :: 0 <= g < |groups| ==> groups[g].1 == IndicesWith(active, groups[g].0) && groups[g].1 != [])
    && (forall k :: 0 <= k < |active| ==> exists g :: 0 <= g < |groups| && groups[g].0 == active[k].1)
  }

  function Steps(active: seq<(nat, nat)>): set<nat> {
    set k | 0 <= k < |active| :: active[k].1
  }

  function GroupsOf(active: seq<(nat, nat)>): (groups: Groups) {
    var steps := Ascending(Steps(active));
    seq(|steps|, g requires 0 <= g < |steps| => (steps[g], IndicesWith(active, steps[g])))
  }

  method CollectByStep(active: seq<(nat, nat)>) returns (groups: map<nat, seq<nat>>)
    ensures groups.Keys == Steps(active)
    ensures forall step: nat :: step in groups ==> groups[step] == IndicesWith(active, step)
  {
    hide Steps;
    groups := map[];
    assert groups.Keys == Steps(active[..0]) by { NoSteps(); }
    for k := 0 to |active|
      invariant groups.Keys == Steps(active[..k])
      invariant forall step: nat :: step in groups ==> groups[step] == IndicesWith(active[..k], step)
      invariant forall step: nat :: step !in groups ==> IndicesWith(active[..k], step) == []
    {
      var (slotIdx, step) := active[k];
      StepsExtend(active, k);
      forall s: nat
        ensures IndicesWith(active[..k + 1], s) == IndicesWith(active[..k], s) + (if step == s then [slotIdx] else [])
      {
        IndicesExtend(active, k, s);
      }
      groups := groups[step := (if step in groups then groups[step] else []) + [slotIdx]];
    }
    assert active[..|active|] == active;
  }

  /** Collect the slots of each step in a map, then take the steps in ascending order. */
  method GroupRunningByDecodeStep(active: seq<(nat, nat)>) returns (out: Groups)
    ensures out == GroupsOf(active)
  {
    var groups := CollectByStep(active);
    var steps := Ascending(groups.Keys);
    AscendingAre(groups.Keys);
    hide IndicesWith, Ascending, Steps;
    out := seq(|steps|, g requires 0 <= g < |steps| && steps[g] in groups => (steps[g], groups[steps[g]]));
  }

  lemma NoSteps()
    ensures Steps([]) == {}
  {
  }

  lemma IndicesExtend(active: seq<(nat, nat)>, k: nat, step: nat)
    requires k < |active|
    ensures IndicesWith(active[..k + 1], step) ==
              IndicesWith(active[..k], step) + (if active[k].1 == step then [active[k].0] else [])
  {
    assert active[..k + 1][..k] == active[..k];
  }

  lemma StepsExtend(active: seq<(nat, nat)>, k: nat)
    requires k < |active|
    ensures Steps(active[..k + 1]) == Steps(active[..k]) + {active[k].1}
  {
    assert forall j :: 0 <= j < k ==> active[..k][j] == active[j] == active[..k + 1][j];
    forall step | step in Steps(active[..k + 1])
      ensures step in Steps(active[..k]) + {active[k].1}
    {
      var j :| 0 <= j <= k && active[..k + 1][j].1 == step;
      assert j < k ==> active[..k][j].1 == step;
    }
    assert active[..k + 1][k].1 in Steps(active[..k + 1]);
  }

  lemma {:induction false} OccursIsListed(active: seq<(nat, nat)>, step: nat)
    requires step in Steps(active)
    ensures IndicesWith(active, step) != []
  {
    var k := |active| - 1;
    assert active[..k + 1] == active;
    StepsExtend(active, k);
    if active[k].1 != step {
      OccursIsListed(active[..k], step);
    }
  }

  lemma GroupsAreGrouped(active: seq<(nat, nat)>)
    ensures GroupedByStep(active, GroupsOf(active))
  {
    var steps, groups := Ascending(Steps(active)), GroupsOf(active);
    AscendingAre(Steps(active));
    forall g | 0 <= g < |groups|
      ensures groups[g].1 != []
    {
      assert steps[g] in steps;
      OccursIsListed(active, steps[g]);
    }
    forall k | 0 <= k < |active|
      ensures exists g :: 0 <= g < |groups| && groups[g].0 == active[k].1
    {
      assert active[k].1 in Steps(active);
      var g :| 0 <= g < |steps| && steps[g] == active[k].1;
      assert groups[g].0 == active[k].1;
    }
  }

  /** `sort_by_key` on distinct steps. */
  function Ascending(steps: set<nat>): seq<nat> {
    if steps == {} then [] else [Least(steps)] + Ascending(steps - {Least(steps)})
  }

  lemma {:induction false} AscendingAre(steps: set<nat>)
    ensures forall x: nat :: x in Ascending(steps) <==> x in steps
    ensures forall g, h :: 0 <= g < h < |Ascending(steps)| ==> Ascending(steps)[g] < Ascending(steps)[h]
  {
    if steps != {} {
      var rest := steps - {Least(steps)};
      AscendingAre(rest);
      forall h | 0 <= h < |Ascending(rest)|
        ensures Least(steps) < Ascending(rest)[h]
      {
        assert Ascending(rest)[h] in rest;
      }
    }
  }

  ghost predicate IsLeast(s: set<nat>, m: nat) {
    m in s && forall x :: x in s ==> m <= x
  }

  lemma {:induction false} LeastExists(s: set<nat>) returns (m: nat)
    requires s != {}
    ensures IsLeast(s, m)
    decreases |s|
  {
    var x :| x in s;
    m := x;
    if s != {x} {
      var rest := LeastExists(s - {x});
      if rest < x {
        m := rest;
      }
      forall y | y in s
        ensures m <= y
      {
        assert y == x || y in s - {x};
      }
    }
  }

  function Least(s: set<nat>): (m: nat)
    requires s != {}
    ensures IsLeast(s, m)
  {
    assert exists m :: IsLeast(s, m) by {
      var m := LeastExists(s);
    }
    var m :| m in s && forall x :: x in s ==> m <= x;
    m
  }

  /** What the scheduler needs of the groups: disjoint, each sharing its step, none left out. */
  ghost predicate Grouping(running: seq<Option<RunningSlot>>, groups: Groups) {
    && (forall g :: 0 <= g < |groups| ==> GroupOf(running, groups[g].0, groups[g].1) && groups[g].1 != [])
    && (forall g, h, i: nat :: 0 <= g < h < |groups| && i in groups[g].1 ==> i !in groups[h].1)
    && (forall i: nat :: i < |running| && running[i].Some? && !running[i].value.slot.finished ==>
        exists g :: 0 <= g < |groups| && i in groups[g].1)
  }

  lemma {:induction false} ActiveAre(running: seq<Option<RunningSlot>>, k: nat)
    requires k <= |running|
    ensures forall j :: 0 <= j < |Active(running, k)| ==>
              var (i, step) := Active(running, k)[j];
              i < k && running[i].Some? && TakesPart(running[i].value.slot, step)
    ensures forall j, j' :: 0 <= j < j' < |Active(running, k)| ==> Active(running, k)[j].0 < Active(running, k)[j'].0
    ensures forall i: nat ::
              i < k && running[i].Some? && !running[i].value.slot.finished ==>
                (i, running[i].value.slot.decodeStep) in Active(running, k)
  {
    if k > 0 {
      ActiveAre(running, k - 1);
    }
  }

  lemma {:induction false} IndicesAre(active: seq<(nat, nat)>, step: nat)
    requires forall j, j' :: 0 <= j < j' < |active| ==> active[j].0 < active[j'].0
    ensures NoDup(IndicesWith(active, step))
    ensures forall i: nat :: i in IndicesWith(active, step) <==> (i, step) in active
  {
    if active != [] {
      var k := |active| - 1;
      IndicesAre(active[..k], step);
      assert active == active[..k] + [active[k]];
      forall i: nat | (i, step) in active[..k]
        ensures i < active[k].0
      {
      }
    }
  }

  lemma GroupIs(running: seq<Option<RunningSlot>>, groups: Groups, g: nat)
    requires GroupedByStep(Active(running, |running|), groups) && g < |groups|
    ensures GroupOf(running, groups[g].0, groups[g].1)
    ensures forall i: nat ::
              i in groups[g].1 <==> i < |running| && running[i].Some? && TakesPart(running[i].value.slot, groups[g].0)
  {
    hide GroupOf, Active, IndicesWith;
    assert groups[g].1 == IndicesWith(Active(running, |running|), groups[g].0);
    hide GroupedByStep;
    ListedAre(running, groups[g].0);
    MembersTakePart(running, groups[g].0, groups[g].1);
  }

  /** The indices listed with a step are those of the sequences that take part in it. */
  lemma ListedAre(running: seq<Option<RunningSlot>>, step: nat)
    ensures NoDup(IndicesWith(Active(running, |running|), step))
    ensures forall i: nat ::
              i in IndicesWith(Active(running, |running|), step) <==>
                i < |running| && running[i].Some? && TakesPart(running[i].value.slot, step)
  {
    hide Active, IndicesWith;
    var active := Active(running, |running|);
    ActiveAre(running, |running|);
    IndicesAre(active, step);
    forall i: nat
      ensures (i, step) in active <==> i < |running| && running[i].Some? && TakesPart(running[i].value.slot, step)
    {
      if (i, step) in active {
        var j :| 0 <= j < |active| && active[j] == (i, step);
      }
    }
  }

  lemma MembersTakePart(running: seq<Option<RunningSlot>>, step: nat, idxs: seq<nat>)
    requires NoDup(idxs)
    requires forall i: nat :: i in idxs ==> i < |running| && running[i].Some? && TakesPart(running[i].value.slot, step)
    ensures GroupOf(running, step, idxs)
  {
    forall k | 0 <= k < |idxs|
      ensures idxs[k] < |running| && running[idxs[k]].Some? && TakesPart(running[idxs[k]].value.slot, step)
    {
      assert idxs[k] in idxs;
    }
  }

  lemma GroupsPartition(running: seq<Option<RunningSlot>>, groups: Groups)
    requires GroupedByStep(Active(running, |running|), groups)
    ensures Grouping(running, groups)
  {
    forall g | 0 <= g < |groups|
      ensures GroupOf(running, groups[g].0, groups[g].1)
    {
      GroupIs(running, groups, g);
    }
    forall g, h, i: nat | 0 <= g < h < |groups| && i in groups[g].1
      ensures i !in groups[h].1
    {
      GroupIs(running, groups, g);
      GroupIs(running, groups, h);
    }
    forall i: nat | i < |running| && running[i].Some? && !running[i].value.slot.finished
      ensures exists g :: 0 <= g < |groups| && i in groups[g].1
    {
      var g := GroupWith(running, groups, i);
    }
  }

  lemma GroupWith(running: seq<Option<RunningSlot>>, groups: Groups, i: nat) returns (g: nat)
    requires GroupedByStep(Active(running, |running|), groups)
    requires i < |running| && running[i].Some? && !running[i].value.slot.finished
    ensures g < |groups| && i in groups[g].1
  {
    var active := Active(running, |running|);
    ActiveAre(running, |running|);
    var j :| 0 <= j < |active| && active[j] == (i, running[i].value.slot.decodeStep);
    g :| 0 <= g < |groups| && groups[g].0 == active[j].1;
    GroupIs(running, groups, g);
  }
}
