/**
 What both upgrade schedulers share: the resin and EXP constants, the five
 per-slot bags a domain run fills, the routing of drops into the bag of
 their own slot, the main-stat filter, and the stable descending order by
 score that both schedulers rank bags with.

 A bag collection is a sequence of five bags indexed in the canonical slot
 order `Types` (the insertion order of the Python dictionaries).
 */
module Loot {

  import opened Seqs
  import opened Stats
  import opened Artifacts

  /** EXP to take a level-0 artifact to level 20. */
  const CostLevel20: int := 270475
  /** EXP to take a level-0 artifact to level 4. */
  const CostLevel4: int := 5900
  const ResinPerDomain: int := 20
  const ExpPerDay: int := 101957
  /** Natural recovery for a week, minus the weekly boss, plus transient resin. */
  const WeeklyResin: int := 180 * 7 - 90 + 60

  /** `desired_main_statuses`: the main stat wanted for each slot. */
  type Goal = Slot -> Stat

  /** A drop straight out of a domain: a valid artifact at level 0. */
  predicate Fresh(a: Artifact)
  {
    Valid(a) && a.level == 0
  }

  /** Every artifact of the bag is a drop nobody has levelled. */
  predicate Unlevelled(bag: seq<Artifact>)
  {
    forall i :: 0 <= i < |bag| ==> bag[i].level == 0
  }

  predicate AllUnlevelled(bags: seq<seq<Artifact>>)
  {
    forall t :: 0 <= t < |bags| ==> Unlevelled(bags[t])
  }

  /** Five bags in slot order, each holding valid artifacts of its own slot. */
  predicate BagsOk(bags: seq<seq<Artifact>>)
  {
    && |bags| == SlotCount
    && forall t :: 0 <= t < SlotCount ==> BagOk(bags[t], Types[t])
  }

  predicate BagOk(bag: seq<Artifact>, slot: Slot)
  {
    forall i :: 0 <= i < |bag| ==> Valid(bag[i]) && bag[i].slot == slot
  }

  /** Every bag entry has the goal's main stat for its slot. */
  predicate MainsMatch(bags: seq<seq<Artifact>>, goal: Goal)
    requires |bags| == SlotCount
  {
    forall t, i :: 0 <= t < SlotCount && 0 <= i < |bags[t]| ==> bags[t][i].main == goal(Types[t])
  }

  function SlotIs(t: Slot): Artifact -> bool
  {
    (a: Artifact) => a.slot == t
  }

  function MainIs(m: Stat): Artifact -> bool
  {
    (a: Artifact) => a.main == m
  }

  // ---------------------------------------------------------------------
  // Routing drops into bags

  /** `for artifact in artifacts: bag[artifact.type].append(artifact)`. */
  function Route(bags: seq<seq<Artifact>>, drops: seq<Artifact>): (r: seq<seq<Artifact>>)
    requires |bags| == SlotCount
    ensures |r| == SlotCount
    decreases |drops|
  {
    if |drops| == 0 then bags
    else
      var k := SlotIndex(drops[0].slot);
      Route(bags[k := bags[k] + [drops[0]]], drops[1..])
  }

  /** Appending the head drop to bag `k` extends bag `t` by it exactly when the drop belongs to `t`. */
  lemma RouteStep<T(!new)>(bags: seq<seq<T>>, drops: seq<T>, k: nat, t: nat, p: T -> bool)
    requires |drops| > 0 && k < |bags| && t < |bags| && (p(drops[0]) <==> t == k)
    ensures bags[k := bags[k] + [drops[0]]][t] + Filter(drops[1..], p) == bags[t] + Filter(drops, p)
  {
    var x := drops[0];
    var f := Filter(drops[1..], p);
    var b := bags[k := bags[k] + [x]][t];
    FilterHead(drops, p);
    if t == k {
      AppendAssoc(bags[t], [x], f);
    } else {
      assert Filter(drops, p) == [] + f;
      assert [] + f == f;
    }
  }

  /** Each bag ends with the drops of its own slot, in drop order, and nothing else. */
  lemma {:induction false} RoutePerSlot(bags: seq<seq<Artifact>>, drops: seq<Artifact>, t: nat)
    requires |bags| == SlotCount && t < SlotCount
    ensures Route(bags, drops)[t] == bags[t] + Filter(drops, SlotIs(Types[t]))
    decreases |drops|
  {
    if |drops| > 0 {
      var k := SlotIndex(drops[0].slot);
      RoutePerSlot(bags[k := bags[k] + [drops[0]]], drops[1..], t);
      TypesIndex(t);
      RouteStep(bags, drops, k, t, SlotIs(Types[t]));
    }
  }

  lemma RouteKeepsBagsOk(bags: seq<seq<Artifact>>, drops: seq<Artifact>)
    requires BagsOk(bags)
    requires forall i :: 0 <= i < |drops| ==> Valid(drops[i])
    ensures BagsOk(Route(bags, drops))
  {
    var r := Route(bags, drops);
    forall t, i | 0 <= t < SlotCount && 0 <= i < |r[t]|
      ensures Valid(r[t][i]) && r[t][i].slot == Types[t]
    {
      RoutePerSlot(bags, drops, t);
      var f := Filter(drops, SlotIs(Types[t]));
      if i >= |bags[t]| {
        assert r[t][i] == f[i - |bags[t]|];
        assert r[t][i] in f;
      }
    }
  }

  // ---------------------------------------------------------------------
  // _filter_main_status

  /**
   `_filter_main_status`: every bag keeps exactly the artifacts whose main
   stat is the goal's for that slot, in their original order.
   */
  function FilterMainStatus(bags: seq<seq<Artifact>>, goal: Goal): (r: seq<seq<Artifact>>)
    requires |bags| == SlotCount
    ensures |r| == SlotCount
    ensures forall t :: 0 <= t < SlotCount ==> IsSubseq(r[t], bags[t])
    ensures forall t, a :: 0 <= t < SlotCount ==>
      multiset(r[t])[a] == if a.main == goal(Types[t]) then multiset(bags[t])[a] else 0
    ensures MainsMatch(r, goal)
  {
    var r := seq(SlotCount, t requires 0 <= t < SlotCount => Filter(bags[t], MainIs(goal(Types[t]))));
    assert MainsMatch(r, goal) by {
      forall t, i | 0 <= t < SlotCount && 0 <= i < |r[t]|
        ensures r[t][i].main == goal(Types[t])
      {
        assert r[t][i] in r[t];
      }
    }
    r
  }

  /** Routing fresh drops into unlevelled bags and filtering them leaves every bag unlevelled. */
  lemma RouteUnlevelled(bags: seq<seq<Artifact>>, drops: seq<Artifact>, goal: Goal)
    requires BagsOk(bags) && AllUnlevelled(bags)
    requires forall i :: 0 <= i < |drops| ==> Fresh(drops[i])
    ensures AllUnlevelled(FilterMainStatus(Route(bags, drops), goal))
  {
    forall t | 0 <= t < SlotCount
      ensures Unlevelled(FilterMainStatus(Route(bags, drops), goal)[t])
    {
      RouteSlotUnlevelled(bags, drops, goal, t);
    }
  }

  lemma RouteSlotUnlevelled(bags: seq<seq<Artifact>>, drops: seq<Artifact>, goal: Goal, t: nat)
    requires BagsOk(bags) && AllUnlevelled(bags) && t < SlotCount
    requires forall i :: 0 <= i < |drops| ==> Fresh(drops[i])
    ensures Unlevelled(FilterMainStatus(Route(bags, drops), goal)[t])
  {
    var routed := Route(bags, drops);
    var r: seq<seq<Artifact>> := FilterMainStatus(routed, goal);
    RoutePerSlot(bags, drops, t);
    forall i | 0 <= i < |r[t]|
      ensures r[t][i].level == 0
    {
      var a := r[t][i];
      assert multiset(r[t])[a] > 0;
      assert a in routed[t];
      assert Unlevelled(bags[t]);
      if a !in bags[t] {
        assert a in Filter(drops, SlotIs(Types[t]));
      }
    }
  }

  /** Filtering by main stat keeps the bags well formed. */
  lemma FilterKeepsBagsOk(bags: seq<seq<Artifact>>, goal: Goal)
    requires BagsOk(bags)
    ensures BagsOk(FilterMainStatus(bags, goal))
  {
    var r := FilterMainStatus(bags, goal);
    forall t, i | 0 <= t < SlotCount && 0 <= i < |r[t]|
      ensures Valid(r[t][i]) && r[t][i].slot == Types[t]
    {
      var a := r[t][i];
      assert multiset(r[t])[a] > 0;
      assert a in bags[t];
    }
  }

  /** Filtering twice is filtering once. */
  lemma FilterMainStatusIdempotent(bags: seq<seq<Artifact>>, goal: Goal)
    requires |bags| == SlotCount
    ensures FilterMainStatus(FilterMainStatus(bags, goal), goal) == FilterMainStatus(bags, goal)
  {
    var r := FilterMainStatus(bags, goal);
    forall t | 0 <= t < SlotCount
      ensures FilterMainStatus(r, goal)[t] == r[t]
    {
      FilterIdempotent(bags[t], MainIs(goal(Types[t])));
    }
  }

  // ---------------------------------------------------------------------
  // Scores and the stable descending order

  /** `[a.get_score(sub) for a in bag]`. */
  function Scores(bag: seq<Artifact>, sub: Stat): (r: seq<real>)
    ensures |r| == |bag|
    ensures forall i :: 0 <= i < |bag| ==> r[i] == Score(bag[i], sub)
  {
    seq(|bag|, i requires 0 <= i < |bag| => Score(bag[i], sub))
  }

  /**
   `sorted(bag, key=get_score, reverse=True)`: Python's sort is stable, so
   equal scores keep their bag order.
   */
  function SortByScore(bag: seq<Artifact>, sub: Stat): (r: seq<Artifact>)
    ensures |r| == |bag|
    ensures forall i :: 0 <= i < |r| ==> r[i] == bag[Ranking(Scores(bag, sub))[i]]
  {
    Permute(bag, Ranking(Scores(bag, sub)))
  }

  /**
   The sorted bag holds the same artifacts, by non-increasing score, and
   artifacts of equal score stay in bag order.
   */
  lemma SortByScoreSpec(bag: seq<Artifact>, sub: Stat)
    ensures multiset(SortByScore(bag, sub)) == multiset(bag)
    ensures forall i, j :: 0 <= i < j < |bag| ==>
      Score(SortByScore(bag, sub)[i], sub) >= Score(SortByScore(bag, sub)[j], sub)
    ensures forall i, j :: 0 <= i < j < |bag| ==>
      Score(SortByScore(bag, sub)[i], sub) == Score(SortByScore(bag, sub)[j], sub) ==>
      Ranking(Scores(bag, sub))[i] < Ranking(Scores(bag, sub))[j]
  {
    var keys := Scores(bag, sub);
    var order := Ranking(keys);
    RankingPermutes(keys, bag);
    forall i, j | 0 <= i < j < |bag|
      ensures keys[order[i]] > keys[order[j]] || (keys[order[i]] == keys[order[j]] && order[i] < order[j])
    {
      assert Before(keys, order[i], order[j]);
    }
  }

  /** The head of the sorted bag is the first artifact of greatest score. */
  lemma SortedHeadIsArgMax(bag: seq<Artifact>, sub: Stat)
    requires |bag| > 0
    ensures SortByScore(bag, sub)[0] == bag[ArgMaxFirst(Scores(bag, sub))]
  {
    RankingHeadIsArgMax(Scores(bag, sub));
  }

  /** Every score of a valid artifact is at least 0. */
  lemma ScoresNonNegative(bag: seq<Artifact>, slot: Slot, sub: Stat)
    requires BagOk(bag, slot)
    ensures forall i :: 0 <= i < |bag| ==> Scores(bag, sub)[i] >= 0.0
  {
    forall i | 0 <= i < |bag|
      ensures Score(bag[i], sub) >= 0.0
    {
      ScoreNonNegative(bag[i], sub);
    }
  }

  /** The position of a bag's first artifact of greatest score: the head of `sorted(..., reverse=True)`. */
  function TopIndex(bag: seq<Artifact>, sub: Stat): (k: nat)
    requires |bag| > 0
    ensures k < |bag|
    ensures forall i :: 0 <= i < |bag| ==> Score(bag[i], sub) <= Score(bag[k], sub)
    ensures forall i :: 0 <= i < k ==> Score(bag[i], sub) < Score(bag[k], sub)
  {
    ArgMaxFirst(Scores(bag, sub))
  }

  /** The top artifact heads the bag sorted by descending score. */
  lemma TopIsSortedHead(bag: seq<Artifact>, sub: Stat)
    requires |bag| > 0
    ensures SortByScore(bag, sub)[0] == bag[TopIndex(bag, sub)]
  {
    SortedHeadIsArgMax(bag, sub);
  }

  // ---------------------------------------------------------------------
  // Levelling artifacts to the maximum

  /** `after` is `before` levelled: same identity, no lower level, sub-stats only grown. */
  predicate Advanced(before: Artifact, after: Artifact)
  {
    && after.setId == before.setId && after.slot == before.slot && after.main == before.main
    && after.level >= before.level
    && Kept(before.subs, after.subs)
  }

  /** `up` is an outcome of `level_up(20 - level)` on `a`: level 20 with four sub-stats. */
  ghost predicate Finished(a: Artifact, up: Artifact)
  {
    && Valid(up) && Advanced(a, up) && up.level == MaxLevel && |up.subs| == 4
    && LevelledUp(a, up, MaxLevel - a.level)
  }

  /** Raising an artifact at level 0 or 4 to level 20 (`level_up(20)` or `level_up(16)`). */
  function Finish(a: Artifact, rng: Rng, tick: nat): (r: Artifact)
    requires Valid(a) && (a.level == 0 || a.level == 4)
    ensures Valid(r) && Advanced(a, r) && r.level == MaxLevel
    ensures |r.subs| == 4
    ensures LevelledUp(a, r, MaxLevel - a.level)
  {
    LevelUpIsLevelledUp(a, MaxLevel - a.level, Chunk(rng, tick));
    LevelUp(a, MaxLevel - a.level, Chunk(rng, tick))
  }

  /** Finishing runs exactly five upgrade events from level 0 and four from level 4. */
  lemma FinishSteps(a: Artifact, rng: Rng, tick: nat)
    requires Valid(a) && (a.level == 0 || a.level == 4)
    ensures Steps(a.subs, Finish(a, rng, tick).subs, 5 - a.level / 4)
  {
    assert GrowthEvents(a.level, MaxLevel - a.level) == 5 - a.level / 4;
    LevelUpSteps(a, MaxLevel - a.level, Chunk(rng, tick));
  }

  /** `level_up(4)` run with the draws `cs`. */
  function Raise4(a: Artifact, cs: seq<Growth>): (r: Artifact)
    requires Valid(a) && |cs| == 5
    ensures Valid(r) && Advanced(a, r) && r.level == NewLevel(a.level, 4)
    ensures LevelledUp(a, r, 4)
  {
    LevelUpIsLevelledUp(a, 4, cs);
    LevelUp(a, 4, cs)
  }

  /** Entry `i` of `UpgradeFirst`: raised by four levels when among the first `nb`. */
  function UpgradeAt(bag: seq<Artifact>, nb: nat, rng: Rng, tick: nat, i: nat): (x: Artifact)
    requires i < |bag| && Valid(bag[i])
    ensures Valid(x) && Advanced(bag[i], x)
    ensures x.level == if i < nb then NewLevel(bag[i].level, 4) else bag[i].level
    ensures i >= nb ==> x == bag[i]
    ensures i < nb ==> LevelledUp(bag[i], x, 4)
  {
    if i < nb then Raise4(bag[i], Chunk(rng, tick + i)) else bag[i]
  }

  /** The first `nb` artifacts raised by four levels, the `j`-th one drawing chunk `tick + j`. */
  function UpgradeFirst(bag: seq<Artifact>, nb: nat, rng: Rng, tick: nat): (r: seq<Artifact>)
    requires nb <= |bag|
    requires forall i :: 0 <= i < |bag| ==> Valid(bag[i])
    ensures |r| == |bag|
    ensures forall i :: 0 <= i < |bag| ==> Valid(r[i]) && Advanced(bag[i], r[i])
    ensures forall i :: 0 <= i < |bag| ==> r[i].level == if i < nb then NewLevel(bag[i].level, 4) else bag[i].level
    ensures forall i :: nb <= i < |bag| ==> r[i] == bag[i]
    ensures forall i :: 0 <= i < nb ==> LevelledUp(bag[i], r[i], 4)
  {
    seq(|bag|, i requires 0 <= i < |bag| => UpgradeAt(bag, nb, rng, tick, i))
  }

  /** Finishing never lowers the score, whichever sub-stat is desired. */
  lemma FinishNeverLowersScore(a: Artifact, rng: Rng, tick: nat, sub: Stat)
    requires Valid(a) && (a.level == 0 || a.level == 4)
    ensures Score(Finish(a, rng, tick), sub) >= Score(a, sub)
  {
    LevelUpNeverLowersScore(a, MaxLevel - a.level, Chunk(rng, tick), sub);
  }
}
