/**
 The simple simulation: the acceptance rule `check_artifact` and the daily
 loop of `main`, where each of nine domain runs a day drops one artifact
 and every drop the rule accepts with policy 1 is levelled to 20 and kept
 in the list of its own slot.
 */
module Simulate {

  import opened Seqs
  import opened Stats
  import opened Artifacts
  import opened Loot

  /** `go_domain_per_day`: 180 resin a day at 20 a run. */
  const RunsPerDay: nat := 9

  /** The policy `main` passes to `check_artifact`. */
  const DailyPolicy: int := 1

  /** `k in artifact.sub_status`. */
  predicate HasSub(a: Artifact, k: Stat)
  {
    k in Keys(a.subs)
  }

  function Indicator(b: bool): nat
  {
    if b then 1 else 0
  }

  /**
   `nb_desired_status`: one for a crit main stat, one each for CR and CD
   among the sub-stats, and one for the desired sub-stat (so a desired CR
   or CD sub-stat counts twice).
   */
  function DesiredCount(a: Artifact, desired: Stat): (n: nat)
    ensures n <= 4
    ensures Valid(a) ==> n <= 3
    ensures n == 0 <==> !a.main.Cr? && !a.main.Cd? && !HasSub(a, Cr) && !HasSub(a, Cd) && !HasSub(a, desired)
  {
    Indicator(a.main == Cr || a.main == Cd) + Indicator(HasSub(a, Cr)) + Indicator(HasSub(a, Cd)) + Indicator(HasSub(a, desired))
  }

  /** What one sub-stat entry adds to the count: one each for being CR, CD and the desired sub-stat. */
  function EntryWeight(e: Roll, desired: Stat): nat
  {
    Indicator(e.stat == Cr) + Indicator(e.stat == Cd) + Indicator(e.stat == desired)
  }

  /** The count taken entry by entry over a sub-stat list. */
  function Hits(subs: seq<Roll>, desired: Stat): nat
  {
    if |subs| == 0 then 0 else EntryWeight(subs[0], desired) + Hits(subs[1..], desired)
  }

  lemma {:induction false} HitsCountsKeys(subs: seq<Roll>, desired: Stat)
    requires DistinctKeys(subs)
    ensures Hits(subs, desired)
      == Indicator(Cr in Keys(subs)) + Indicator(Cd in Keys(subs)) + Indicator(desired in Keys(subs))
  {
    if |subs| > 0 {
      var e := subs[0];
      var rest := subs[1..];
      assert DistinctKeys(rest) by {
        forall i, j | 0 <= i < j < |rest|
          ensures rest[i].stat != rest[j].stat
        {
          assert rest[i] == subs[i + 1] && rest[j] == subs[j + 1];
        }
      }
      HitsCountsKeys(rest, desired);
      assert Keys(subs) == [e.stat] + Keys(rest);
      assert e.stat !in Keys(rest) by {
        forall j | 0 <= j < |rest|
          ensures Keys(rest)[j] != e.stat
        {
          assert rest[j] == subs[j + 1];
        }
      }
    }
  }

  /**
   Since sub-stat keys are distinct, the count is the crit main stat plus,
   entry by entry, one for each CR, CD or desired sub-stat entry (a desired
   CR or CD entry adding two).
   */
  lemma DesiredCountIsHits(a: Artifact, desired: Stat)
    requires DistinctKeys(a.subs)
    ensures DesiredCount(a, desired) == Indicator(a.main == Cr || a.main == Cd) + Hits(a.subs, desired)
  {
    HitsCountsKeys(a.subs, desired);
  }

  /** `check_artifact`: the goal's main stat for the slot, and at least `policy` desired stats. */
  function CheckArtifact(a: Artifact, policy: int, goal: Goal, desired: Stat): (ok: bool)
    ensures a.main != goal(a.slot) ==> !ok
    ensures ok ==> DesiredCount(a, desired) >= policy
  {
    if a.main != goal(a.slot) then false
    else DesiredCount(a, desired) >= policy
  }

  /** Acceptance in terms of the entry-by-entry count: the goal's main stat, and enough desired entries. */
  lemma CheckArtifactCounts(a: Artifact, policy: int, goal: Goal, desired: Stat)
    requires DistinctKeys(a.subs)
    ensures CheckArtifact(a, policy, goal, desired)
      <==> a.main == goal(a.slot) && Indicator(a.main == Cr || a.main == Cd) + Hits(a.subs, desired) >= policy
  {
    DesiredCountIsHits(a, desired);
  }

  /** A stricter policy accepts fewer artifacts. */
  lemma CheckMonotone(a: Artifact, p: int, q: int, goal: Goal, desired: Stat)
    requires p <= q && CheckArtifact(a, q, goal, desired)
    ensures CheckArtifact(a, p, goal, desired)
  {
  }

  /**
   A policy of at most 0 only looks at the main stat; one of 5 or more
   accepts nothing, and for a valid artifact neither does one of 4.
   */
  lemma CheckPolicyBounds(a: Artifact, policy: int, goal: Goal, desired: Stat)
    ensures policy <= 0 ==> (CheckArtifact(a, policy, goal, desired) <==> a.main == goal(a.slot))
    ensures policy >= 5 ==> !CheckArtifact(a, policy, goal, desired)
    ensures Valid(a) && policy >= 4 ==> !CheckArtifact(a, policy, goal, desired)
  {
  }

  /** Sub-stats only ever grow, so a sub-stat present before is present after. */
  lemma KeysKept(before: seq<Roll>, after: seq<Roll>, k: Stat)
    requires Kept(before, after) && k in Keys(before)
    ensures k in Keys(after)
  {
    var j :| 0 <= j < |before| && Keys(before)[j] == k;
    assert Keys(after)[j] == k;
  }

  /** Levelling never lowers the count of desired stats. */
  lemma DesiredCountGrows(a: Artifact, b: Artifact, desired: Stat)
    requires Advanced(a, b)
    ensures DesiredCount(a, desired) <= DesiredCount(b, desired)
  {
    if HasSub(a, Cr) { KeysKept(a.subs, b.subs, Cr); }
    if HasSub(a, Cd) { KeysKept(a.subs, b.subs, Cd); }
    if HasSub(a, desired) { KeysKept(a.subs, b.subs, desired); }
  }

  /** An accepted artifact stays accepted however far it is levelled. */
  lemma CheckSurvivesLevelUp(a: Artifact, b: Artifact, policy: int, goal: Goal, desired: Stat)
    requires Advanced(a, b) && CheckArtifact(a, policy, goal, desired)
    ensures CheckArtifact(b, policy, goal, desired)
  {
    DesiredCountGrows(a, b, desired);
  }

  // ---------------------------------------------------------------------
  // The daily loop of `main`

  /** The drops of slot `slot` that `main` keeps. */
  function Accepts(slot: Slot, goal: Goal, desired: Stat): Artifact -> bool
  {
    (a: Artifact) => a.slot == slot && CheckArtifact(a, DailyPolicy, goal, desired)
  }

  /** `list` is `src`, each artifact put through `level_up(20)`. */
  ghost predicate Holds(list: seq<Artifact>, src: seq<Artifact>)
  {
    && |list| == |src|
    && forall k :: 0 <= k < |list| ==> Finished(src[k], list[k])
  }

  /** After the first `i` drops, every slot's list holds that slot's accepted drops, finished, in order. */
  ghost predicate HarvestInv(drops: seq<Artifact>, i: nat, lists: seq<seq<Artifact>>, goal: Goal, desired: Stat)
    requires i <= |drops|
  {
    && |lists| == SlotCount
    && forall t :: 0 <= t < SlotCount ==> Holds(lists[t], Filter(drops[..i], Accepts(Types[t], goal, desired)))
  }

  /** `artifacts[a.type].append(a)`. */
  function Stash(lists: seq<seq<Artifact>>, up: Artifact): (r: seq<seq<Artifact>>)
    requires |lists| == SlotCount
    ensures |r| == SlotCount
  {
    var t := SlotIndex(up.slot);
    lists[t := lists[t] + [up]]
  }

  /** Appending a finished artifact to a list and its source to the sources keeps them matched. */
  lemma HoldsAppend(list: seq<Artifact>, src: seq<Artifact>, a: Artifact, up: Artifact)
    requires Holds(list, src) && Finished(a, up)
    ensures Holds(list + [up], src + [a])
  {
  }

  /** An accepted drop, finished as `up`, joins its slot's list. */
  lemma HarvestAccept(drops: seq<Artifact>, i: nat, lists: seq<seq<Artifact>>, goal: Goal, desired: Stat, up: Artifact)
    requires i < |drops| && HarvestInv(drops, i, lists, goal, desired)
    requires CheckArtifact(drops[i], DailyPolicy, goal, desired)
    requires Finished(drops[i], up)
    ensures HarvestInv(drops, i + 1, Stash(lists, up), goal, desired)
  {
    var r := Stash(lists, up);
    forall t | 0 <= t < SlotCount
      ensures Holds(r[t], Filter(drops[..i + 1], Accepts(Types[t], goal, desired)))
    {
      TypesIndex(t);
      if Types[t] == drops[i].slot {
        HarvestAcceptHome(drops, i, lists[t], goal, desired, up);
      } else {
        HarvestAcceptOther(drops, i, Types[t], goal, desired);
      }
    }
  }

  /** The accepted drop joins the list of its own slot... */
  lemma HarvestAcceptHome(drops: seq<Artifact>, i: nat, list: seq<Artifact>, goal: Goal, desired: Stat, up: Artifact)
    requires i < |drops|
    requires Holds(list, Filter(drops[..i], Accepts(drops[i].slot, goal, desired)))
    requires CheckArtifact(drops[i], DailyPolicy, goal, desired)
    requires Finished(drops[i], up)
    ensures Holds(list + [up], Filter(drops[..i + 1], Accepts(drops[i].slot, goal, desired)))
  {
    var p := Accepts(drops[i].slot, goal, desired);
    FilterPrefixNext(drops, i, p);
    assert p(drops[i]);
    HoldsAppend(list, Filter(drops[..i], p), drops[i], up);
  }

  /** ...and leaves the lists of the other slots alone. */
  lemma HarvestAcceptOther(drops: seq<Artifact>, i: nat, slot: Slot, goal: Goal, desired: Stat)
    requires i < |drops| && slot != drops[i].slot
    ensures Filter(drops[..i + 1], Accepts(slot, goal, desired)) == Filter(drops[..i], Accepts(slot, goal, desired))
  {
    FilterPrefixSkip(drops, i, Accepts(slot, goal, desired));
  }

  /** A rejected drop changes no list. */
  lemma HarvestReject(drops: seq<Artifact>, i: nat, lists: seq<seq<Artifact>>, goal: Goal, desired: Stat)
    requires i < |drops| && HarvestInv(drops, i, lists, goal, desired)
    requires !CheckArtifact(drops[i], DailyPolicy, goal, desired)
    ensures HarvestInv(drops, i + 1, lists, goal, desired)
  {
    forall t | 0 <= t < SlotCount
      ensures Filter(drops[..i + 1], Accepts(Types[t], goal, desired)) == Filter(drops[..i], Accepts(Types[t], goal, desired))
    {
      FilterPrefixSkip(drops, i, Accepts(Types[t], goal, desired));
    }
  }

  /** What a slot's list holds: finished artifacts of that slot that pass the daily rule. */
  lemma HoldsStored(list: seq<Artifact>, drops: seq<Artifact>, slot: Slot, goal: Goal, desired: Stat)
    requires Holds(list, Filter(drops, Accepts(slot, goal, desired)))
    ensures forall k :: 0 <= k < |list| ==>
      list[k].slot == slot && list[k].level == MaxLevel && CheckArtifact(list[k], DailyPolicy, goal, desired)
  {
    var src := Filter(drops, Accepts(slot, goal, desired));
    forall k | 0 <= k < |list|
      ensures list[k].slot == slot && CheckArtifact(list[k], DailyPolicy, goal, desired)
    {
      assert src[k] in src;
      CheckSurvivesLevelUp(src[k], list[k], DailyPolicy, goal, desired);
    }
  }

  /**
   `main(max_days)`: the nine drops of each day in turn (`drops` holds all
   of them, day after day); an accepted drop is levelled to 20 and appended
   to its slot's list. Each slot's list ends up holding exactly that slot's
   accepted drops, in drop order, each finished and still accepted.
   */
  method Harvest(days: nat, drops: seq<Artifact>, goal: Goal, desired: Stat, rng: Rng) returns (lists: seq<seq<Artifact>>)
    requires |drops| == RunsPerDay * days
    requires forall i :: 0 <= i < |drops| ==> Fresh(drops[i])
    ensures |lists| == SlotCount
    ensures forall t :: 0 <= t < SlotCount ==> Holds(lists[t], Filter(drops, Accepts(Types[t], goal, desired)))
    ensures forall t, k :: 0 <= t < SlotCount && 0 <= k < |lists[t]| ==>
      lists[t][k].slot == Types[t] && lists[t][k].level == MaxLevel && CheckArtifact(lists[t][k], DailyPolicy, goal, desired)
  {
    lists := [[], [], [], [], []];
    var tick := 0;
    for i := 0 to |drops|
      invariant HarvestInv(drops, i, lists, goal, desired)
    {
      var a := drops[i];
      if CheckArtifact(a, DailyPolicy, goal, desired) {
        assert Fresh(a);
        var up := Finish(a, rng, tick);
        HarvestAccept(drops, i, lists, goal, desired, up);
        lists := Stash(lists, up);
        tick := tick + 1;
      } else {
        HarvestReject(drops, i, lists, goal, desired);
      }
    }
    assert drops[..|drops|] == drops;
    forall t | 0 <= t < SlotCount
      ensures forall k :: 0 <= k < |lists[t]| ==>
        lists[t][k].slot == Types[t] && lists[t][k].level == MaxLevel && CheckArtifact(lists[t][k], DailyPolicy, goal, desired)
    {
      HoldsStored(lists[t], drops, Types[t], goal, desired);
    }
  }
}
