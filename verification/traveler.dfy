/**
 The first scheduler (`Traveler`): resin carried between weeks, domain runs
 that may drop a second artifact and that discard half of the drops, a
 pass raising the best-scoring share of every bag to level 4, a bootstrap
 pass finishing the best artifact of every slot, a refinement loop that
 finishes the candidate with the smallest score gap to its slot's best
 until EXP runs out, and the final score with one free slot.

 Random draws are arguments: `Haul` holds a domain run's draws, and every
 level-up takes the next five upgrade draws `Chunk(rng, tick)`.
 */
module Traveler {

  import opened Seqs
  import opened Stats
  import opened Artifacts
  import opened Loot

  /** `resin`, `bag` and `exp` of a traveler; `tick` counts the level-ups run so far. */
  datatype State = State(resin: int, bags: seq<seq<Artifact>>, exp: int, tick: nat)

  /** A fresh traveler: no resin, empty bags (EXP is first set by `SpendWeeks`). */
  function Start(): (s: State)
    ensures BagsOk(s.bags) && s.resin == 0
    ensures forall t :: 0 <= t < SlotCount ==> |s.bags[t]| == 0
  {
    State(0, [[], [], [], [], []], 0, 0)
  }

  // ---------------------------------------------------------------------
  // go_domain and spend_weeks

  /**
   The draws of `go_domain(nb_pull)`: one bonus-drop bit per run, the
   artifacts dropped, and one discard bit per artifact (`randint(2) == 1`).
   */
  datatype Haul = Haul(extra: seq<bool>, drops: seq<Artifact>, skip: seq<bool>)

  /** The draws fit `nb_pull` runs (none when `nb_pull` is not positive). */
  predicate HaulFits(h: Haul, nbPull: int)
  {
    && |h.extra| == (if nbPull > 0 then nbPull else 0)
    && |h.drops| == |h.extra| + Count(h.extra)
    && |h.skip| == |h.drops|
    && forall i :: 0 <= i < |h.drops| ==> Fresh(h.drops[i])
  }

  /** `nb_pull` runs drop between `nb_pull` and `2 * nb_pull` artifacts. */
  lemma HaulSize(h: Haul, nbPull: int)
    requires HaulFits(h, nbPull) && nbPull >= 0
    ensures nbPull <= |h.drops| <= 2 * nbPull
  {
  }

  /** The drops whose discard bit is clear, in drop order. */
  function Survivors(drops: seq<Artifact>, skip: seq<bool>): (r: seq<Artifact>)
    requires |skip| == |drops|
    ensures |r| + Count(skip) == |drops|
    ensures forall a :: a in r ==> a in drops
  {
    if |drops| == 0 then []
    else (if skip[0] then [] else [drops[0]]) + Survivors(drops[1..], skip[1..])
  }

  /** The positions from `from` on whose discard bit is clear, ascending. */
  function Unskipped(skip: seq<bool>, from: nat): (r: seq<nat>)
    requires from <= |skip|
    ensures forall j :: 0 <= j < |r| ==> from <= r[j] < |skip| && !skip[r[j]]
    ensures forall i :: from <= i < |skip| && !skip[i] ==> i in r
    ensures forall j, k :: 0 <= j < k < |r| ==> r[j] < r[k]
    decreases |skip| - from
  {
    if from == |skip| then []
    else (if skip[from] then [] else [from]) + Unskipped(skip, from + 1)
  }

  lemma {:induction false} SurvivorsFrom(drops: seq<Artifact>, skip: seq<bool>, from: nat)
    requires |skip| == |drops| && from <= |drops|
    ensures Survivors(drops[from..], skip[from..]) == Permute(drops, Unskipped(skip, from))
    decreases |drops| - from
  {
    if from < |drops| {
      SurvivorsFrom(drops, skip, from + 1);
      assert drops[from..][1..] == drops[from + 1..];
      assert skip[from..][1..] == skip[from + 1..];
      if !skip[from] {
        PermuteCons(drops, from, Unskipped(skip, from + 1));
      }
    }
  }

  /**
   The survivors are exactly the drops at the positions whose discard bit
   is clear, taken in increasing position order.
   */
  lemma SurvivorsAreUnskipped(drops: seq<Artifact>, skip: seq<bool>)
    requires |skip| == |drops|
    ensures Survivors(drops, skip) == Permute(drops, Unskipped(skip, 0))
  {
    SurvivorsFrom(drops, skip, 0);
    assert drops[0..] == drops && skip[0..] == skip;
  }

  /** `go_domain(nb_pull)`: route the surviving drops to their bags, then filter by main stat. */
  function GoDomain(s: State, goal: Goal, nbPull: int, h: Haul): (r: State)
    requires BagsOk(s.bags) && HaulFits(h, nbPull)
    ensures BagsOk(r.bags) && MainsMatch(r.bags, goal)
    ensures AllUnlevelled(s.bags) ==> AllUnlevelled(r.bags)
    ensures r == s.(bags := r.bags)
  {
    var kept := Survivors(h.drops, h.skip);
    assert forall i :: 0 <= i < |kept| ==> Fresh(kept[i]) by {
      forall i | 0 <= i < |kept|
        ensures Fresh(kept[i])
      {
        assert kept[i] in h.drops;
      }
    }
    RouteKeepsBagsOk(s.bags, kept);
    var routed := Route(s.bags, kept);
    FilterKeepsBagsOk(routed, goal);
    assert AllUnlevelled(s.bags) ==> AllUnlevelled(FilterMainStatus(routed, goal)) by {
      if AllUnlevelled(s.bags) {
        RouteUnlevelled(s.bags, kept, goal);
      }
    }
    s.(bags := FilterMainStatus(routed, goal))
  }

  /**
   After a domain run, bag `t` holds exactly `[a for a in old bag + surviving
   drops of slot t if a.main == goal(t)]`, in that order.
   */
  lemma GoDomainContents(s: State, goal: Goal, nbPull: int, h: Haul, t: nat)
    requires BagsOk(s.bags) && HaulFits(h, nbPull) && t < SlotCount
    ensures GoDomain(s, goal, nbPull, h).bags[t]
      == Filter(s.bags[t] + Filter(Survivors(h.drops, h.skip), SlotIs(Types[t])), MainIs(goal(Types[t])))
  {
    RoutePerSlot(s.bags, Survivors(h.drops, h.skip), t);
  }

  /** The domain runs `resin` plus `weeks` of income pays for. */
  function Runs(resin: int, weeks: int): int
  {
    (resin + WeeklyResin * weeks) / ResinPerDomain
  }

  /**
   `spend_weeks(weeks)`: add the weeks' resin, run as many domains as it
   pays for, carry the remainder, and set (not add to) the EXP budget.
   */
  function SpendWeeks(s: State, goal: Goal, weeks: int, h: Haul): (r: State)
    requires BagsOk(s.bags)
    requires HaulFits(h, Runs(s.resin, weeks))
    ensures 0 <= r.resin < ResinPerDomain
    ensures r.resin + ResinPerDomain * Runs(s.resin, weeks) == s.resin + WeeklyResin * weeks
    ensures r.exp == ExpPerDay * 7 * weeks
    ensures BagsOk(r.bags) && MainsMatch(r.bags, goal) && r.tick == s.tick
    ensures AllUnlevelled(s.bags) ==> AllUnlevelled(r.bags)
  {
    var n := Runs(s.resin, weeks);
    var paid := s.(resin := s.resin + WeeklyResin * weeks - n * ResinPerDomain);
    GoDomain(paid, goal, n, h).(exp := ExpPerDay * 7 * weeks)
  }

  /** Resin carried over loses nothing: two spends run as many domains as one spend of both. */
  lemma RunsCarry(resin: int, w1: int, w2: int)
    ensures var left := resin + WeeklyResin * w1 - ResinPerDomain * Runs(resin, w1);
            Runs(resin, w1) + Runs(left, w2) == Runs(resin, w1 + w2)
  {
    var n1 := Runs(resin, w1);
    var left := resin + WeeklyResin * w1 - ResinPerDomain * n1;
    assert left + WeeklyResin * w2 == resin + WeeklyResin * (w1 + w2) - ResinPerDomain * n1;
    DivShift(resin + WeeklyResin * (w1 + w2), n1);
  }

  lemma DivShift(x: int, n: int)
    ensures (x - ResinPerDomain * n) / ResinPerDomain == x / ResinPerDomain - n
  {
  }

  // ---------------------------------------------------------------------
  // levelup_4

  /** Python's `math.ceil(x / d)` for integers. */
  function CeilDiv(x: int, d: int): (c: int)
    requires d > 0
    ensures d * (c - 1) < x <= d * c
  {
    (x + d - 1) / d
  }

  /** `len(s[:stop])` for a list of length `n`, negative `stop` counting from the end. */
  function SliceLen(n: nat, stop: int): (k: nat)
    ensures k <= n
    ensures stop >= 0 ==> k == if stop < n then stop else n
    ensures stop < 0 ==> k == if n + stop > 0 then n + stop else 0
  {
    if stop >= 0 then (if stop < n then stop else n)
    else if n + stop > 0 then n + stop else 0
  }

  /** How many of a bag of `n` artifacts `levelup_4(pct)` upgrades. */
  function UpgradeCount(n: nat, pct: int): (k: nat)
    ensures k <= n
    ensures n < 3 ==> k == n
    ensures n >= 3 && 0 <= pct <= 100 ==> 100 * (k - 1) < n * pct <= 100 * k
  {
    if n < 3 then n else SliceLen(n, CeilDiv(n * pct, 100))
  }

  lemma UpgradeCountBounds(n: nat, pct: int)
    requires n >= 3 && 0 <= pct <= 100
    ensures 0 <= n * pct <= 100 * n
  {
  }

  /** One bag of `levelup_4`: sorted by score, then the first `UpgradeCount` raised to level 4. */
  function Stage4(bag: seq<Artifact>, sub: Stat, pct: int, rng: Rng, tick: nat): (r: seq<Artifact>)
    requires forall i :: 0 <= i < |bag| ==> Valid(bag[i])
  {
    var sorted := SortByScore(bag, sub);
    UpgradeFirst(sorted, UpgradeCount(|bag|, pct), rng, tick)
  }

  /** Upgrades `levelup_4(pct)` runs on the bags before slot `t`. */
  function UpgradesBefore(bags: seq<seq<Artifact>>, pct: int, t: nat): (n: nat)
    requires t <= |bags|
  {
    if t == 0 then 0 else UpgradesBefore(bags, pct, t - 1) + UpgradeCount(|bags[t - 1]|, pct)
  }

  /**
   What `levelup_4` leaves in one bag: the bag re-ordered by descending
   pre-upgrade score, its first `UpgradeCount` entries each an outcome of
   `level_up(4)`.
   */
  ghost predicate Staged4(before: seq<Artifact>, after: seq<Artifact>, sub: Stat, pct: int)
  {
    var sorted := SortByScore(before, sub);
    var nb := UpgradeCount(|before|, pct);
    && |after| == |before|
    && forall i :: 0 <= i < |after| ==>
      && Advanced(sorted[i], after[i])
      && after[i].level == (if i < nb then NewLevel(sorted[i].level, 4) else sorted[i].level)
      && (i < nb ==> LevelledUp(sorted[i], after[i], 4))
      && (i >= nb ==> after[i] == sorted[i])
  }

  lemma Stage4Spec(bag: seq<Artifact>, slot: Slot, sub: Stat, pct: int, rng: Rng, tick: nat)
    requires BagOk(bag, slot)
    ensures BagOk(Stage4(bag, sub, pct, rng, tick), slot)
    ensures Staged4(bag, Stage4(bag, sub, pct, rng, tick), sub, pct)
  {
    var sorted := SortByScore(bag, sub);
    assert BagOk(sorted, slot);
  }

  /** `levelup_4` has staged the bags before `t` of `s`, reaching `bags` and `exp`. */
  ghost predicate Level4UpTo(s: State, bags: seq<seq<Artifact>>, exp: int, sub: Stat, pct: int, t: nat)
    requires |s.bags| == SlotCount && t <= SlotCount
  {
    && BagsOk(bags)
    && (forall u :: 0 <= u < t ==> Staged4(s.bags[u], bags[u], sub, pct))
    && (forall u :: t <= u < SlotCount ==> bags[u] == s.bags[u])
    && exp == s.exp - CostLevel4 * UpgradesBefore(s.bags, pct, t)
  }

  /** Staging bag `t` extends what `levelup_4` has done by one slot. */
  lemma Level4Step(s: State, bags: seq<seq<Artifact>>, exp: int, sub: Stat, pct: int, t: nat, staged: seq<Artifact>)
    requires |s.bags| == SlotCount && t < SlotCount && Level4UpTo(s, bags, exp, sub, pct, t)
    requires BagOk(staged, Types[t]) && Staged4(bags[t], staged, sub, pct)
    ensures Level4UpTo(s, bags[t := staged], exp - CostLevel4 * UpgradeCount(|bags[t]|, pct), sub, pct, t + 1)
  {
  }

  /** `levelup_4` on bag `t` extends what it has done by one slot. */
  lemma Level4Advance(s: State, bags: seq<seq<Artifact>>, exp: int, sub: Stat, pct: int, t: nat, rng: Rng, tick: nat)
    requires |s.bags| == SlotCount && t < SlotCount && Level4UpTo(s, bags, exp, sub, pct, t)
    ensures Level4UpTo(s, bags[t := Stage4(bags[t], sub, pct, rng, tick)],
                       exp - CostLevel4 * UpgradeCount(|bags[t]|, pct), sub, pct, t + 1)
  {
    Stage4Spec(bags[t], Types[t], sub, pct, rng, tick);
    Level4Step(s, bags, exp, sub, pct, t, Stage4(bags[t], sub, pct, rng, tick));
  }

  /**
   `levelup_4(pct)`: every bag re-ordered by descending score and its
   leading share raised to level 4, at 5900 EXP per upgrade.
   */
  method LevelUp4(s: State, sub: Stat, pct: int, rng: Rng) returns (r: State)
    requires BagsOk(s.bags)
    ensures BagsOk(r.bags) && r.resin == s.resin
    ensures forall t :: 0 <= t < SlotCount ==> Staged4(s.bags[t], r.bags[t], sub, pct)
    ensures r.exp == s.exp - CostLevel4 * UpgradesBefore(s.bags, pct, SlotCount)
  {
    var bags := s.bags;
    var exp := s.exp;
    var tick := s.tick;
    for t := 0 to SlotCount
      invariant Level4UpTo(s, bags, exp, sub, pct, t)
    {
      bags, exp, tick := Level4Slot(s, bags, exp, tick, sub, pct, rng, t);
    }
    r := State(s.resin, bags, exp, tick);
  }

  /** One pass of the `levelup_4` loop: bag `t` staged, its upgrades paid and their draws consumed. */
  method Level4Slot(s: State, bags: seq<seq<Artifact>>, exp: int, tick: nat, sub: Stat, pct: int, rng: Rng, t: nat)
    returns (bags': seq<seq<Artifact>>, exp': int, tick': nat)
    requires |s.bags| == SlotCount && t < SlotCount && Level4UpTo(s, bags, exp, sub, pct, t)
    ensures Level4UpTo(s, bags', exp', sub, pct, t + 1)
    ensures tick' == tick + UpgradeCount(|bags[t]|, pct)
  {
    var nb := UpgradeCount(|bags[t]|, pct);
    Level4Advance(s, bags, exp, sub, pct, t, rng, tick);
    bags' := bags[t := Stage4(bags[t], sub, pct, rng, tick)];
    exp' := exp - CostLevel4 * nb;
    tick' := tick + nb;
  }

  // ---------------------------------------------------------------------
  // EXP accounting over the levels {0, 4, 20}

  /** Every artifact of the bag is at level 0, 4 or 20: the levels this scheduler produces. */
  predicate StagedBag(bag: seq<Artifact>)
  {
    forall i :: 0 <= i < |bag| ==> bag[i].level in {0, 4, MaxLevel}
  }

  predicate LevelsStaged(bags: seq<seq<Artifact>>)
  {
    forall t :: 0 <= t < |bags| ==> StagedBag(bags[t])
  }

  /** Staging a bag of unlevelled drops leaves its leading share at level 4 and the rest at level 0. */
  lemma Staged4Levels(before: seq<Artifact>, after: seq<Artifact>, sub: Stat, pct: int)
    requires Unlevelled(before) && Staged4(before, after, sub, pct)
    ensures forall i :: 0 <= i < |after| ==>
      after[i].level == if i < UpgradeCount(|before|, pct) then 4 else 0
    ensures StagedBag(after)
  {
    var sorted := SortByScore(before, sub);
    forall i | 0 <= i < |after|
      ensures after[i].level == if i < UpgradeCount(|before|, pct) then 4 else 0
    {
      assert sorted[i] == before[Ranking(Scores(before, sub))[i]];
    }
  }

  /** `levelup_4` run on the unlevelled bags of `spend_weeks` leaves only the levels 0 and 4. */
  lemma LevelUp4Staged(before: seq<seq<Artifact>>, after: seq<seq<Artifact>>, sub: Stat, pct: int)
    requires |before| == SlotCount && |after| == SlotCount && AllUnlevelled(before)
    requires forall t :: 0 <= t < SlotCount ==> Staged4(before[t], after[t], sub, pct)
    ensures LevelsStaged(after)
  {
    forall t | 0 <= t < SlotCount
      ensures StagedBag(after[t])
    {
      Staged4Levels(before[t], after[t], sub, pct);
    }
  }

  /** Every artifact of `after` is the one at the same position of `before`, levelled. */
  predicate AdvancedBags(before: seq<seq<Artifact>>, after: seq<seq<Artifact>>)
  {
    && |after| == |before|
    && forall t :: 0 <= t < |before| ==> AdvancedBag(before[t], after[t])
  }

  predicate AdvancedBag(before: seq<Artifact>, after: seq<Artifact>)
  {
    && |after| == |before|
    && forall i :: 0 <= i < |before| ==> Advanced(before[i], after[i])
  }

  lemma AdvancedBagsTransitive(a: seq<seq<Artifact>>, b: seq<seq<Artifact>>, c: seq<seq<Artifact>>)
    requires AdvancedBags(a, b) && AdvancedBags(b, c)
    ensures AdvancedBags(a, c)
  {
    forall t, i | 0 <= t < |a| && 0 <= i < |a[t]|
      ensures Advanced(a[t][i], c[t][i])
    {
      assert AdvancedBag(a[t], b[t]) && AdvancedBag(b[t], c[t]);
      KeptTransitive(a[t][i].subs, b[t][i].subs, c[t][i].subs);
    }
  }

  /** EXP already invested in an artifact at level 0, 4 or 20. */
  function LevelCost(level: int): int
  {
    if level == MaxLevel then CostLevel20 else if level == 4 then CostLevel4 else 0
  }

  function BagSpent(bag: seq<Artifact>): int
  {
    if |bag| == 0 then 0 else LevelCost(bag[0].level) + BagSpent(bag[1..])
  }

  /** EXP invested in all bags. */
  function Spent(bags: seq<seq<Artifact>>): int
  {
    if |bags| == 0 then 0 else BagSpent(bags[0]) + Spent(bags[1..])
  }

  lemma {:induction false} BagSpentUpdate(bag: seq<Artifact>, i: nat, a: Artifact)
    requires i < |bag|
    ensures BagSpent(bag[i := a]) == BagSpent(bag) - LevelCost(bag[i].level) + LevelCost(a.level)
  {
    if i > 0 {
      assert bag[i := a][1..] == bag[1..][i - 1 := a];
      BagSpentUpdate(bag[1..], i - 1, a);
    }
  }

  lemma {:induction false} SpentReplace(bags: seq<seq<Artifact>>, t: nat, bag: seq<Artifact>)
    requires t < |bags|
    ensures Spent(bags[t := bag]) == Spent(bags) - BagSpent(bags[t]) + BagSpent(bag)
  {
    if t > 0 {
      assert bags[t := bag][1..] == bags[1..][t - 1 := bag];
      SpentReplace(bags[1..], t - 1, bag);
    }
  }

  /** What finishing costs: 270475 from level 0, 270475 - 5900 from level 4. */
  function FinishCost(level: int): (c: int)
    ensures level == 0 || level == 4 ==> c == LevelCost(MaxLevel) - LevelCost(level)
  {
    if level == 4 then CostLevel20 - CostLevel4 else CostLevel20
  }

  /** Finishing the artifact at position `i` of bag `t`; nothing else changes. */
  function FinishAt(bags: seq<seq<Artifact>>, t: nat, i: nat, rng: Rng, tick: nat): (r: seq<seq<Artifact>>)
    requires BagsOk(bags) && LevelsStaged(bags)
    requires t < SlotCount && i < |bags[t]| && bags[t][i].level < MaxLevel
    ensures |r| == |bags| && |r[t]| == |bags[t]|
    ensures r == bags[t := bags[t][i := r[t][i]]]
    ensures Valid(r[t][i]) && Advanced(bags[t][i], r[t][i]) && r[t][i].level == MaxLevel
  {
    assert Valid(bags[t][i]) && StagedBag(bags[t]);
    bags[t := bags[t][i := Finish(bags[t][i], rng, tick)]]
  }

  /** Putting a finished, levelled copy in place of one artifact keeps the bags well formed and staged. */
  lemma ReplaceKeepsReady(bags: seq<seq<Artifact>>, t: nat, i: nat, b: Artifact)
    requires BagsOk(bags) && LevelsStaged(bags) && t < SlotCount && i < |bags[t]|
    requires Valid(b) && Advanced(bags[t][i], b) && b.level == MaxLevel
    ensures BagsOk(bags[t := bags[t][i := b]]) && LevelsStaged(bags[t := bags[t][i := b]])
  {
    var r := bags[t := bags[t][i := b]];
    assert BagOk(r[t], Types[t]) by {
      assert BagOk(bags[t], Types[t]);
    }
    assert StagedBag(r[t]) by {
      assert StagedBag(bags[t]);
    }
  }

  lemma ReplaceAdvances(bags: seq<seq<Artifact>>, t: nat, i: nat, b: Artifact)
    requires t < |bags| && i < |bags[t]| && Advanced(bags[t][i], b)
    ensures AdvancedBags(bags, bags[t := bags[t][i := b]])
  {
    var r := bags[t := bags[t][i := b]];
    assert AdvancedBag(bags[t], r[t]);
  }

  /** Finishing one artifact adds exactly its finishing cost to the EXP invested. */
  lemma ReplaceSpent(bags: seq<seq<Artifact>>, t: nat, i: nat, b: Artifact)
    requires t < |bags| && i < |bags[t]| && bags[t][i].level in {0, 4} && b.level == MaxLevel
    ensures Spent(bags[t := bags[t][i := b]]) == Spent(bags) + FinishCost(bags[t][i].level)
  {
    SpentReplace(bags, t, bags[t][i := b]);
    BagSpentUpdate(bags[t], i, b);
  }

  /** `FinishAt` keeps the bags ready, only levels, and costs `FinishCost`. */
  lemma FinishAtSpec(bags: seq<seq<Artifact>>, t: nat, i: nat, rng: Rng, tick: nat)
    requires BagsOk(bags) && LevelsStaged(bags)
    requires t < SlotCount && i < |bags[t]| && bags[t][i].level < MaxLevel
    ensures var r := FinishAt(bags, t, i, rng, tick);
            && BagsOk(r) && LevelsStaged(r) && AdvancedBags(bags, r)
            && Spent(r) == Spent(bags) + FinishCost(bags[t][i].level)
  {
    var r := FinishAt(bags, t, i, rng, tick);
    var b := r[t][i];
    ReplaceKeepsReady(bags, t, i, b);
    ReplaceAdvances(bags, t, i, b);
    assert StagedBag(bags[t]);
    ReplaceSpent(bags, t, i, b);
  }

  // ---------------------------------------------------------------------
  // Bootstrap: finish the best artifact of every slot

  /** Replacing the top artifact by one scoring no less keeps it the top. */
  lemma TopStaysTop(bag: seq<Artifact>, sub: Stat, a: Artifact)
    requires |bag| > 0
    requires Score(a, sub) >= Score(bag[TopIndex(bag, sub)], sub)
    ensures TopIndex(bag[TopIndex(bag, sub) := a], sub) == TopIndex(bag, sub)
  {
    var k := TopIndex(bag, sub);
    var b := bag[k := a];
    ArgMaxFirstUnique(Scores(b, sub), k);
  }

  /**
   What the bootstrap leaves in one bag: its top artifact finished to level 20
   (or left alone when already there) and still the top, every other artifact
   untouched.
   */
  ghost predicate Bootstrapped(before: seq<Artifact>, after: seq<Artifact>, sub: Stat)
  {
    && |after| == |before|
    && (|before| == 0 || (
      && Advanced(before[TopIndex(before, sub)], after[TopIndex(before, sub)])
      && after[TopIndex(before, sub)].level == MaxLevel
      && (before[TopIndex(before, sub)].level < MaxLevel ==> Finished(before[TopIndex(before, sub)], after[TopIndex(before, sub)]))
      && (before[TopIndex(before, sub)].level >= MaxLevel ==> after[TopIndex(before, sub)] == before[TopIndex(before, sub)])
      && TopIndex(after, sub) == TopIndex(before, sub)
      && forall i :: 0 <= i < |before| && i != TopIndex(before, sub) ==> after[i] == before[i]))
  }

  /** The bootstrap has handled the slots before `t` of `s`, reaching `r`. */
  ghost predicate BootstrapUpTo(s: State, r: State, sub: Stat, t: nat)
    requires |s.bags| == SlotCount && t <= SlotCount
  {
    && BagsOk(r.bags) && LevelsStaged(r.bags) && r.resin == s.resin
    && (forall u :: 0 <= u < t ==> Bootstrapped(s.bags[u], r.bags[u], sub))
    && (forall u :: t <= u < SlotCount ==> r.bags[u] == s.bags[u])
    && r.exp + Spent(r.bags) == s.exp + Spent(s.bags)
  }

  /** Artifact `k` of bag `t` replaced by `up`, its level-up to 20, and that level-up paid. */
  function Upgrade(r: State, t: nat, k: nat, up: Artifact): State
    requires |r.bags| == SlotCount && t < SlotCount && k < |r.bags[t]|
  {
    r.(bags := r.bags[t := r.bags[t][k := up]], exp := r.exp - FinishCost(r.bags[t][k].level), tick := r.tick + 1)
  }

  /** Upgrading with a finished artifact keeps the bags ready and the EXP accounted. */
  lemma UpgradeKeepsReady(r: State, t: nat, k: nat, up: Artifact)
    requires BagsOk(r.bags) && LevelsStaged(r.bags) && t < SlotCount && k < |r.bags[t]| && r.bags[t][k].level < MaxLevel
    requires Valid(up) && Advanced(r.bags[t][k], up) && up.level == MaxLevel
    ensures var n := Upgrade(r, t, k, up);
            BagsOk(n.bags) && LevelsStaged(n.bags) && n.exp + Spent(n.bags) == r.exp + Spent(r.bags)
  {
    ReplaceKeepsReady(r.bags, t, k, up);
    assert StagedBag(r.bags[t]);
    ReplaceSpent(r.bags, t, k, up);
  }

  /** Putting a finished artifact scoring no less in place of a bag's top artifact bootstraps the bag. */
  lemma UpgradeTop(bag: seq<Artifact>, sub: Stat, up: Artifact)
    requires |bag| > 0 && up.level == MaxLevel && Score(up, sub) >= Score(bag[TopIndex(bag, sub)], sub)
    requires Advanced(bag[TopIndex(bag, sub)], up) && Finished(bag[TopIndex(bag, sub)], up)
    ensures Bootstrapped(bag, bag[TopIndex(bag, sub) := up], sub)
  {
    TopStaysTop(bag, sub, up);
  }

  /** The top artifact of slot `t`, below level 20, is replaced by its finished form. */
  lemma BootstrapUpgradeKeeps(s: State, r: State, sub: Stat, t: nat, up: Artifact)
    requires |s.bags| == SlotCount && t < SlotCount && BootstrapUpTo(s, r, sub, t)
    requires |r.bags[t]| > 0 && r.bags[t][TopIndex(r.bags[t], sub)].level < MaxLevel
    requires Finished(r.bags[t][TopIndex(r.bags[t], sub)], up)
    requires Score(up, sub) >= Score(r.bags[t][TopIndex(r.bags[t], sub)], sub)
    ensures BootstrapUpTo(s, Upgrade(r, t, TopIndex(r.bags[t], sub), up), sub, t + 1)
  {
    var k := TopIndex(r.bags[t], sub);
    var bag := r.bags[t][k := up];
    var n := Upgrade(r, t, k, up);
    assert BagsOk(n.bags) && LevelsStaged(n.bags) && n.exp + Spent(n.bags) == r.exp + Spent(r.bags) by {
      UpgradeKeepsReady(r, t, k, up);
    }
    assert Bootstrapped(s.bags[t], bag, sub) by {
      UpgradeTop(r.bags[t], sub, up);
      assert r.bags[t] == s.bags[t];
    }
    BootstrapExtend(s, r, n, sub, t, bag);
  }

  /** Bag `t` bootstrapped, and nothing else changed but the EXP paid for it, extends the bootstrap by one slot. */
  lemma BootstrapExtend(s: State, r: State, n: State, sub: Stat, t: nat, bag: seq<Artifact>)
    requires |s.bags| == SlotCount && t < SlotCount && BootstrapUpTo(s, r, sub, t)
    requires n.bags == r.bags[t := bag] && n.resin == r.resin
    requires BagsOk(n.bags) && LevelsStaged(n.bags) && n.exp + Spent(n.bags) == r.exp + Spent(r.bags)
    requires Bootstrapped(s.bags[t], bag, sub)
    ensures BootstrapUpTo(s, n, sub, t + 1)
  {
    forall u | 0 <= u < t + 1
      ensures Bootstrapped(s.bags[u], n.bags[u], sub)
    {
      if u < t {
        assert n.bags[u] == r.bags[u];
      }
    }
  }

  /** A slot whose bag is empty or whose top artifact is at level 20 already is left alone. */
  lemma BootstrapSkipKeeps(s: State, r: State, sub: Stat, t: nat)
    requires |s.bags| == SlotCount && t < SlotCount && BootstrapUpTo(s, r, sub, t)
    requires |r.bags[t]| == 0 || r.bags[t][TopIndex(r.bags[t], sub)].level >= MaxLevel
    ensures BootstrapUpTo(s, r, sub, t + 1)
  {
    assert Bootstrapped(s.bags[t], r.bags[t], sub) by {
      assert BagOk(r.bags[t], Types[t]);
    }
  }

  /**
   First half of `levelup_until_exp`: in every non-empty bag the top-scoring
   artifact is finished to level 20, paying for it whatever the budget.
   */
  method Bootstrap(s: State, sub: Stat, rng: Rng) returns (r: State)
    requires BagsOk(s.bags) && LevelsStaged(s.bags)
    ensures BagsOk(r.bags) && LevelsStaged(r.bags) && r.resin == s.resin
    ensures forall t :: 0 <= t < SlotCount ==> Bootstrapped(s.bags[t], r.bags[t], sub)
    ensures r.exp + Spent(r.bags) == s.exp + Spent(s.bags)
  {
    r := s;
    for t := 0 to SlotCount
      invariant BootstrapUpTo(s, r, sub, t)
    {
      if |r.bags[t]| > 0 && r.bags[t][TopIndex(r.bags[t], sub)].level < MaxLevel {
        var k := TopIndex(r.bags[t], sub);
        var a := r.bags[t][k];
        assert Valid(a) && StagedBag(r.bags[t]);
        var up := Finish(a, rng, r.tick);
        FinishNeverLowersScore(a, rng, r.tick, sub);
        BootstrapUpgradeKeeps(s, r, sub, t, up);
        r := Upgrade(r, t, k, up);
      } else {
        BootstrapSkipKeeps(s, r, sub, t);
      }
    }
  }

  // ---------------------------------------------------------------------
  // _get_max_diff_artifact

  /** Every artifact at positions `from..to` of the sorted bag is at level 20. */
  predicate FinishedBetween(sorted: seq<Artifact>, from: nat, to: nat)
    requires to <= |sorted|
  {
    forall q :: from <= q < to ==> sorted[q].level >= MaxLevel
  }

  /** The first position from `from` on whose artifact is below level 20. */
  function FirstBelowMax(sorted: seq<Artifact>, from: nat): (r: Option<nat>)
    requires 1 <= from
    ensures r.Some? ==> from <= r.value < |sorted| && sorted[r.value].level < MaxLevel
    ensures r.Some? ==> FinishedBetween(sorted, from, r.value)
    ensures r.None? ==> from >= |sorted| || FinishedBetween(sorted, from, |sorted|)
    decreases |sorted| - from
  {
    if from >= |sorted| then None
    else if sorted[from].level < MaxLevel then Some(from)
    else FirstBelowMax(sorted, from + 1)
  }

  /** A slot's gap to its runner-up and the runner-up's position in the bag. */
  datatype Candidate = Candidate(gap: real, pick: Option<nat>)

  /** The gap a slot has when it offers no candidate. */
  const NoGap: real := 1000.0

  /**
   The best score minus the score of the highest-ranked other artifact below
   level 20, with that artifact's position; `NoGap` and no position when the
   bag is empty or every other artifact is at level 20.
   */
  function Gap(bag: seq<Artifact>, sub: Stat): (c: Candidate)
    ensures c.pick.None? ==> c.gap == NoGap
    ensures c.pick.Some? ==> c.pick.value < |bag| && bag[c.pick.value].level < MaxLevel
    ensures c.pick.Some? ==> c.gap == Score(bag[TopIndex(bag, sub)], sub) - Score(bag[c.pick.value], sub)
    ensures c.pick.Some? ==> c.gap >= 0.0
  {
    if |bag| == 0 then Candidate(NoGap, None)
    else
      var order := Ranking(Scores(bag, sub));
      var sorted := SortByScore(bag, sub);
      match FirstBelowMax(sorted, 1)
      case None => Candidate(NoGap, None)
      case Some(p) =>
        SortByScoreSpec(bag, sub);
        TopIsSortedHead(bag, sub);
        Candidate(Score(sorted[0], sub) - Score(sorted[p], sub), Some(order[p]))
  }

  /** The runner-up `Gap` names is the first artifact below level 20 in sorted order after the head. */
  lemma GapPicksRunnerUp(bag: seq<Artifact>, sub: Stat)
    requires |bag| > 0
    ensures var sorted := SortByScore(bag, sub);
            var c := Gap(bag, sub);
            && (c.pick.Some? <==> exists q :: 1 <= q < |sorted| && sorted[q].level < MaxLevel)
            && (c.pick.Some? ==>
                  exists p :: 1 <= p < |sorted| && sorted[p] == bag[c.pick.value] && FinishedBetween(sorted, 1, p))
  {
    var sorted := SortByScore(bag, sub);
    var order := Ranking(Scores(bag, sub));
    match FirstBelowMax(sorted, 1)
    case None =>
    case Some(p) =>
      assert sorted[p] == bag[order[p]];
  }

  /** Slot `t` has the least gap of all five slots. */
  predicate LeastGap(bags: seq<seq<Artifact>>, sub: Stat, t: nat)
    requires |bags| == SlotCount && t < SlotCount
  {
    forall u :: 0 <= u < SlotCount ==> Gap(bags[t], sub).gap <= Gap(bags[u], sub).gap
  }

  /** Gaps of the five slots, in slot order. */
  function Gaps(bags: seq<seq<Artifact>>, sub: Stat): (g: seq<real>)
    requires |bags| == SlotCount
    ensures |g| == SlotCount
    ensures forall t :: 0 <= t < SlotCount ==> g[t] == Gap(bags[t], sub).gap
  {
    seq(SlotCount, t requires 0 <= t < SlotCount => Gap(bags[t], sub).gap)
  }

  /**
   `_get_max_diff_artifact`: the slot with the least gap (the first such in
   slot order) and its runner-up, or `None` when that slot has none (the
   source then returns `None` and the caller fails).
   */
  function MaxDiffPick(bags: seq<seq<Artifact>>, sub: Stat): (r: Option<(nat, nat)>)
    requires |bags| == SlotCount
    ensures r.Some? ==> var (t, i) := r.value;
      && t < SlotCount && i < |bags[t]| && bags[t][i].level < MaxLevel
      && Gap(bags[t], sub).pick == Some(i)
      && LeastGap(bags, sub, t)
      && (forall u :: 0 <= u < t ==> Gap(bags[u], sub).gap > Gap(bags[t], sub).gap)
    ensures r.None? ==>
      exists t :: 0 <= t < SlotCount && Gap(bags[t], sub).pick.None? && LeastGap(bags, sub, t)
    ensures r.None? ==> Gap(bags[ArgMinFirst(Gaps(bags, sub))], sub).pick.None?
  {
    var g := Gaps(bags, sub);
    var t := ArgMinFirst(g);
    match Gap(bags[t], sub).pick
    case None => None
    case Some(i) => Some((t, i))
  }

  // ---------------------------------------------------------------------
  // Refinement loop

  /** What the refinement loop keeps: ready bags, levelled artifacts, EXP plus investment constant. */
  predicate RefineInv(s: State, r: State)
    requires |s.bags| == SlotCount
  {
    && BagsOk(r.bags) && LevelsStaged(r.bags) && r.resin == s.resin
    && AdvancedBags(s.bags, r.bags)
    && r.exp + Spent(r.bags) == s.exp + Spent(s.bags)
  }

  /** One paid refinement: artifact `i` of bag `t` finished and its cost deducted. */
  function RefineStep(r: State, t: nat, i: nat, rng: Rng): (n: State)
    requires BagsOk(r.bags) && LevelsStaged(r.bags)
    requires t < SlotCount && i < |r.bags[t]| && r.bags[t][i].level < MaxLevel
    ensures n.exp == r.exp - FinishCost(r.bags[t][i].level)
  {
    r.(bags := FinishAt(r.bags, t, i, rng, r.tick), exp := r.exp - FinishCost(r.bags[t][i].level), tick := r.tick + 1)
  }

  lemma RefineStepKeeps(s: State, r: State, t: nat, i: nat, rng: Rng)
    requires |s.bags| == SlotCount && RefineInv(s, r)
    requires t < SlotCount && i < |r.bags[t]| && r.bags[t][i].level < MaxLevel
    ensures RefineInv(s, RefineStep(r, t, i, rng))
  {
    FinishAtSpec(r.bags, t, i, rng, r.tick);
    AdvancedBagsTransitive(s.bags, r.bags, FinishAt(r.bags, t, i, rng, r.tick));
  }

  lemma AdvancedBagsReflexive(bags: seq<seq<Artifact>>)
    ensures AdvancedBags(bags, bags)
  {
    forall t | 0 <= t < |bags|
      ensures AdvancedBag(bags[t], bags[t])
    {
    }
  }

  /** One turn of the refinement loop: go on with the next state, or stop at a final one. */
  datatype Turn = Continue(next: State) | Stop(last: State)

  /**
   One turn of the refinement loop: no candidate stops as is; a candidate
   whose cost overdraws the budget stops with the cost deducted; otherwise
   the candidate is finished and paid for.
   */
  function RefineTurn(r: State, sub: Stat, rng: Rng): (turn: Turn)
    requires BagsOk(r.bags) && LevelsStaged(r.bags)
  {
    match MaxDiffPick(r.bags, sub)
    case None => Stop(r)
    case Some((t, i)) =>
      var cost := FinishCost(r.bags[t][i].level);
      if r.exp - cost < 0 then Stop(r.(exp := r.exp - cost))
      else Continue(RefineStep(r, t, i, rng))
  }

  /**
   A turn keeps the loop invariant and spends at least the cheaper finishing
   cost; a final state has run out of budget or of candidates, and lost at
   most the one cost it could not pay.
   */
  lemma RefineTurnSpec(s: State, r: State, sub: Stat, rng: Rng)
    requires |s.bags| == SlotCount && RefineInv(s, r)
    ensures RefineTurn(r, sub, rng).Continue? ==>
      var n := RefineTurn(r, sub, rng).next;
      RefineInv(s, n) && 0 <= n.exp <= r.exp - (CostLevel20 - CostLevel4)
    ensures RefineTurn(r, sub, rng).Stop? ==>
      var n := RefineTurn(r, sub, rng).last;
      && BagsOk(n.bags) && LevelsStaged(n.bags) && n.resin == s.resin && AdvancedBags(s.bags, n.bags)
      && (n.exp < 0 || MaxDiffPick(n.bags, sub).None?)
      && var lost := s.exp + Spent(s.bags) - (n.exp + Spent(n.bags));
         lost == 0 || (n.exp < 0 && (lost == CostLevel20 || lost == CostLevel20 - CostLevel4))
  {
    match MaxDiffPick(r.bags, sub)
    case None =>
    case Some((t, i)) =>
      assert r.bags[t][i].level in {0, 4} by {
        assert StagedBag(r.bags[t]);
      }
      if r.exp - FinishCost(r.bags[t][i].level) >= 0 {
        RefineStepKeeps(s, r, t, i, rng);
      }
  }

  /**
   The refinement loop as a recursion: turn after turn, until one stops.
   Every turn finishes the candidate `MaxDiffPick` names, so the artifacts
   finished, and their order, are the greedy choices of the source's loop.
   */
  function RefineRun(r: State, sub: Stat, rng: Rng): State
    requires BagsOk(r.bags) && LevelsStaged(r.bags)
    decreases if r.exp < 0 then 0 else r.exp + 1
  {
    AdvancedBagsReflexive(r.bags);
    RefineTurnSpec(r, r, sub, rng);
    match RefineTurn(r, sub, rng)
    case Stop(last) => last
    case Continue(next) => RefineRun(next, sub, rng)
  }

  /**
   Second half of `levelup_until_exp`: repeatedly pick the runner-up with
   the least gap, deduct the cost of finishing it, and stop as soon as the
   budget goes negative (without upgrading) or no slot offers a candidate.
   */
  method Refine(s: State, sub: Stat, rng: Rng) returns (r: State)
    requires BagsOk(s.bags) && LevelsStaged(s.bags)
    ensures r == RefineRun(s, sub, rng)
    ensures BagsOk(r.bags) && LevelsStaged(r.bags) && r.resin == s.resin
    ensures AdvancedBags(s.bags, r.bags)
    ensures r.exp < 0 || MaxDiffPick(r.bags, sub).None?
    ensures var lost := s.exp + Spent(s.bags) - (r.exp + Spent(r.bags));
            lost == 0 || (r.exp < 0 && (lost == CostLevel20 || lost == CostLevel20 - CostLevel4))
  {
    r := s;
    AdvancedBagsReflexive(s.bags);
    while true
      invariant RefineInv(s, r)
      invariant RefineRun(r, sub, rng) == RefineRun(s, sub, rng)
      decreases if r.exp < 0 then 0 else r.exp + 1
    {
      RefineTurnSpec(s, r, sub, rng);
      match RefineTurn(r, sub, rng)
      case Stop(last) =>
        r := last;
        return;
      case Continue(next) =>
        r := next;
    }
  }

  /**
   The scheduler's script: a fresh traveler spends `weeks` weeks of resin
   on domains, runs `levelup_4(pct)`, then both halves of
   `levelup_until_exp`. The bags of fresh drops satisfy what each step
   needs of the one before.
   */
  method Season(goal: Goal, sub: Stat, weeks: int, pct: int, h: Haul, rng: Rng) returns (r: State)
    requires HaulFits(h, Runs(0, weeks))
    ensures BagsOk(r.bags) && LevelsStaged(r.bags)
    ensures 0 <= r.resin < ResinPerDomain && r.resin + ResinPerDomain * Runs(0, weeks) == WeeklyResin * weeks
    ensures r.exp < 0 || MaxDiffPick(r.bags, sub).None?
  {
    var begun := Start();
    var farmed := SpendWeeks(begun, goal, weeks, h);
    var staged := LevelUp4(farmed, sub, pct, rng);
    LevelUp4Staged(farmed.bags, staged.bags, sub, pct);
    var booted := Bootstrap(staged, sub, rng);
    r := Refine(booted, sub, rng);
  }

  // ---------------------------------------------------------------------
  // get_scores

  /** The best score of a bag, `-1` when it is empty. */
  function TopScore(bag: seq<Artifact>, slot: Slot, sub: Stat): (r: real)
    requires BagOk(bag, slot)
    ensures r < 0.0 <==> |bag| == 0
    ensures |bag| == 0 ==> r == -1.0
    ensures |bag| > 0 ==> r == Score(bag[TopIndex(bag, sub)], sub)
    ensures forall i :: 0 <= i < |bag| ==> Score(bag[i], sub) <= r
  {
    if |bag| == 0 then -1.0
    else
      var k := TopIndex(bag, sub);
      ScoreNonNegative(bag[k], sub);
      Score(bag[k], sub)
  }

  /** `max(scores)` of every slot, in slot order. */
  function TopScores(bags: seq<seq<Artifact>>, sub: Stat): (r: seq<real>)
    requires BagsOk(bags)
    ensures |r| == SlotCount
    ensures forall t :: 0 <= t < SlotCount ==> r[t] == TopScore(bags[t], Types[t], sub)
  {
    seq(SlotCount, t requires 0 <= t < SlotCount => TopScore(bags[t], Types[t], sub))
  }

  /** The slots whose score marks them missing (`< 0`), in slot order. */
  function Missing(scores: seq<real>): (m: seq<nat>)
    ensures forall i :: i in m <==> 0 <= i < |scores| && scores[i] < 0.0
    ensures forall i, j :: 0 <= i < j < |m| ==> m[i] < m[j]
    ensures forall i :: 0 <= i < |m| ==> m[i] < |scores|
  {
    if |scores| == 0 then []
    else
      var n := |scores| - 1;
      Missing(scores[..n]) + (if scores[n] < 0.0 then [n] else [])
  }

  /** A total score and the per-slot scores it sums. */
  datatype Outcome = Outcome(total: real, scores: seq<real>)

  /** The scores with slot `k` given its free score, and their total. */
  function SwapIn(scores: seq<real>, free: seq<real>, k: nat): (o: Outcome)
    requires |scores| == |free| && k < |scores|
    ensures |o.scores| == |scores| && o.total == Sum(o.scores)
  {
    var out := scores[k := free[k]];
    Outcome(Sum(out), out)
  }

  /**
   `get_scores(free)`: `None` when two or more slots are missing; one missing
   slot takes its free score; with none missing, the free score replaces the
   slot where it gains most, unless it gains nothing there.
   */
  function GetScores(scores: seq<real>, free: seq<real>): (r: Option<Outcome>)
    requires |scores| == SlotCount && |free| == SlotCount
    ensures r.None? <==> |Missing(scores)| > 1
    ensures r.Some? ==> |r.value.scores| == SlotCount && r.value.total == Sum(r.value.scores)
  {
    var miss := Missing(scores);
    if |miss| > 1 then None
    else if |miss| == 1 then Some(SwapIn(scores, free, miss[0]))
    else
      var d := Diff(free, scores);
      var k := ArgMaxFirst(d);
      if d[k] < 0.0 then Some(Outcome(Sum(scores), scores))
      else Some(SwapIn(scores, free, k))
  }

  /** With one slot missing, every other slot has a score of at least 0. */
  lemma OnlyMissing(scores: seq<real>)
    requires |Missing(scores)| == 1
    ensures forall i :: 0 <= i < |scores| && i != Missing(scores)[0] ==> scores[i] >= 0.0
  {
  }

  /** With exactly one slot missing, that slot takes its free score and the others keep theirs. */
  lemma GetScoresOneMissing(scores: seq<real>, free: seq<real>)
    requires |scores| == SlotCount && |free| == SlotCount
    requires |Missing(scores)| == 1
    ensures GetScores(scores, free).Some?
    ensures forall i :: 0 <= i < SlotCount ==>
      GetScores(scores, free).value.scores[i] == if scores[i] < 0.0 then free[i] else scores[i]
  {
    var m := Missing(scores)[0];
    var out := scores[m := free[m]];
    assert GetScores(scores, free) == Some(Outcome(Sum(out), out));
    assert scores[m] < 0.0 by {
      assert m in Missing(scores);
    }
    OnlyMissing(scores);
  }

  /**
   With every slot present, the total is the best of keeping all five scores
   and of putting the free score in any one slot.
   */
  lemma GetScoresIsBestSwap(scores: seq<real>, free: seq<real>)
    requires |scores| == SlotCount && |free| == SlotCount
    requires |Missing(scores)| == 0
    ensures GetScores(scores, free).Some?
    ensures var total := GetScores(scores, free).value.total;
            && total >= Sum(scores)
            && (forall k :: 0 <= k < SlotCount ==> total >= Sum(scores[k := free[k]]))
            && (total == Sum(scores) || exists k :: 0 <= k < SlotCount && total == Sum(scores[k := free[k]]))
  {
    var d := Diff(free, scores);
    var k := ArgMaxFirst(d);
    SumUpdate(scores, k, free[k]);
    forall j | 0 <= j < SlotCount
      ensures GetScores(scores, free).value.total >= Sum(scores[j := free[j]])
    {
      SumUpdate(scores, j, free[j]);
    }
  }

  // ---------------------------------------------------------------------
  // get_scores as written

  /**
   The score `get_scores` as written gives slot `t` once the first bag has
   an artifact: the sorted list of the last non-empty bag up to `t` stays in
   `temp_artifacts`, so an empty bag takes that bag's best score instead of
   `-1`.
   */
  function StaleScore(bags: seq<seq<Artifact>>, sub: Stat, t: nat): (r: real)
    requires BagsOk(bags) && t < SlotCount && |bags[0]| > 0
    ensures r >= 0.0
    ensures |bags[t]| > 0 ==> r == TopScore(bags[t], Types[t], sub)
    ensures t > 0 && |bags[t]| == 0 ==> r == StaleScore(bags, sub, t - 1)
    decreases t
  {
    if |bags[t]| > 0 || t == 0 then TopScore(bags[t], Types[t], sub)
    else StaleScore(bags, sub, t - 1)
  }

  /**
   The scores loop of `get_scores` as written: an empty first bag leaves
   `temp_artifacts` unbound (a `NameError`, here `None`); otherwise every
   empty bag repeats the best score of the last non-empty bag before it.
   */
  function TopScoresAsWritten(bags: seq<seq<Artifact>>, sub: Stat): (r: Option<seq<real>>)
    requires BagsOk(bags)
    ensures r.None? <==> |bags[0]| == 0
    ensures r.Some? ==> |r.value| == SlotCount
    ensures r.Some? ==> forall t :: 0 <= t < SlotCount && |bags[t]| > 0 ==> r.value[t] == TopScore(bags[t], Types[t], sub)
  {
    if |bags[0]| == 0 then None
    else Some(seq(SlotCount, t requires 0 <= t < SlotCount => StaleScore(bags, sub, t)))
  }

  /** No score below 0, no slot missing. */
  lemma {:induction false} NoneMissing(scores: seq<real>)
    requires forall i :: 0 <= i < |scores| ==> scores[i] >= 0.0
    ensures Missing(scores) == []
    decreases |scores|
  {
    if |scores| > 0 {
      NoneMissing(scores[..|scores| - 1]);
    }
  }

  /** As written, no slot is ever missing once the first bag has an artifact. */
  lemma StaleScoresNeverMissing(bags: seq<seq<Artifact>>, sub: Stat)
    requires BagsOk(bags) && |bags[0]| > 0
    ensures TopScoresAsWritten(bags, sub).Some?
    ensures Missing(TopScoresAsWritten(bags, sub).value) == []
  {
    var sc := TopScoresAsWritten(bags, sub).value;
    assert forall i :: 0 <= i < |sc| ==> sc[i] == StaleScore(bags, sub, i);
    NoneMissing(sc);
  }

  /** Corrected: the slots `get_scores` finds missing are exactly the empty bags. */
  lemma MissingIsEmptyBags(bags: seq<seq<Artifact>>, sub: Stat)
    requires BagsOk(bags)
    ensures forall t :: t in Missing(TopScores(bags, sub)) <==> 0 <= t < SlotCount && |bags[t]| == 0
  {
  }

  /**
   The two disagree on any empty bag after a non-empty first one: the
   corrected scores report it missing, the scores as written do not.
   */
  lemma StaleScoresHideEmptyBag(bags: seq<seq<Artifact>>, sub: Stat, t: nat)
    requires BagsOk(bags) && |bags[0]| > 0 && 0 < t < SlotCount && |bags[t]| == 0
    ensures t in Missing(TopScores(bags, sub))
    ensures t !in Missing(TopScoresAsWritten(bags, sub).value)
  {
    MissingIsEmptyBags(bags, sub);
    StaleScoresNeverMissing(bags, sub);
  }

  /**
   The final step of `get_scores` as written: with no slot missing, the
   swap writes `scores[free_type]` and reads `free_artifacts[free_type]`
   with the integer position as key, and the free scores are keyed by slot
   name, so the lookup fails (a `KeyError`, here `None`) whenever the swap
   would happen.
   */
  function GetScoresAsWritten(scores: seq<real>, free: seq<real>): (r: Option<Outcome>)
    requires |scores| == SlotCount && |free| == SlotCount
    ensures r.Some? ==> |r.value.scores| == SlotCount && r.value.total == Sum(r.value.scores)
    ensures |Missing(scores)| == 0 ==> (r.None? <==> exists k :: 0 <= k < SlotCount && free[k] >= scores[k])
  {
    var miss := Missing(scores);
    if |miss| > 1 then None
    else if |miss| == 1 then Some(SwapIn(scores, free, miss[0]))
    else
      var d := Diff(free, scores);
      var k := ArgMaxFirst(d);
      if d[k] < 0.0 then Some(Outcome(Sum(scores), scores))
      else None
  }

  /** As written, a free score that gains anything in a full set makes the lookup fail; corrected, it is swapped in. */
  lemma GetScoresAsWrittenFails(scores: seq<real>, free: seq<real>, j: nat)
    requires |scores| == SlotCount && |free| == SlotCount
    requires |Missing(scores)| == 0 && j < SlotCount && free[j] >= scores[j]
    ensures GetScoresAsWritten(scores, free).None?
    ensures GetScores(scores, free).Some? && GetScores(scores, free).value.total >= Sum(scores[j := free[j]])
  {
    GetScoresIsBestSwap(scores, free);
  }
}
