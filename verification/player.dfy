/**
 The second scheduler (`Player`): domain runs that drop one artifact each,
 no resin carried between calls, a bootstrap pass moving the best artifact
 of every slot out of its bag into a best set at level 20, a refinement
 loop that keeps finishing one more bag artifact while EXP is positive, and
 the final score with one free slot.

 The bags only ever hold unlevelled drops; levelled artifacts leave the bag.
 */
module Player {

  import opened Seqs
  import opened Stats
  import opened Artifacts
  import opened Loot

  /** `free_artifact_scores`: what a freely obtained artifact scores in each slot. */
  const FreeScores: seq<real> := [32.0, 32.0, 23.0, 15.0, 15.0]

  /** `bag`, `best_set` and `exp` of a player; `tick` counts the level-ups run so far. */
  datatype State = State(bags: seq<seq<Artifact>>, best: seq<Option<Artifact>>, exp: int, tick: nat)

  /** A member of the best set: a valid artifact of its slot at level 20. */
  predicate BestOk(best: Option<Artifact>, slot: Slot)
  {
    best.Some? ==> Valid(best.value) && best.value.slot == slot && best.value.level == MaxLevel
  }

  predicate BestsOk(best: seq<Option<Artifact>>)
  {
    |best| == SlotCount && forall t :: 0 <= t < SlotCount ==> BestOk(best[t], Types[t])
  }

  /** Bags of unlevelled drops of their slots, and a best set of finished artifacts. */
  predicate Ready(s: State)
  {
    BagsOk(s.bags) && AllUnlevelled(s.bags) && BestsOk(s.best)
  }

  /** Putting a well-formed bag in place of bag `t`. */
  lemma ReplaceBag(bags: seq<seq<Artifact>>, t: nat, bag: seq<Artifact>)
    requires BagsOk(bags) && AllUnlevelled(bags) && t < SlotCount
    requires BagOk(bag, Types[t]) && Unlevelled(bag)
    ensures BagsOk(bags[t := bag]) && AllUnlevelled(bags[t := bag])
    ensures Size(bags[t := bag]) == Size(bags) - |bags[t]| + |bag|
  {
    SizeReplace(bags, t, bag);
  }

  lemma ReplaceBest(best: seq<Option<Artifact>>, t: nat, b: Option<Artifact>)
    requires BestsOk(best) && t < SlotCount && BestOk(b, Types[t])
    ensures BestsOk(best[t := b])
  {
  }

  /** Every slot that still has bag artifacts has a best one. */
  predicate Covered(s: State)
    requires |s.bags| == SlotCount && |s.best| == SlotCount
  {
    forall t :: 0 <= t < SlotCount && |s.bags[t]| > 0 ==> s.best[t].Some?
  }

  /** A fresh player: empty bags, no best artifacts (EXP is first set by `SpendWeeks`). */
  function Start(): (s: State)
    ensures Ready(s) && Covered(s)
    ensures forall t :: 0 <= t < SlotCount ==> |s.bags[t]| == 0 && s.best[t].None?
  {
    State([[], [], [], [], []], [None, None, None, None, None], 0, 0)
  }

  // ---------------------------------------------------------------------
  // go_domain and spend_weeks

  /** `go_domain(nb_pull)` with the `nb_pull` drops given: route each to its bag, then filter. */
  function GoDomain(s: State, goal: Goal, drops: seq<Artifact>): (r: State)
    requires Ready(s)
    requires forall i :: 0 <= i < |drops| ==> Fresh(drops[i])
    ensures Ready(r) && MainsMatch(r.bags, goal)
    ensures r == s.(bags := r.bags)
  {
    assert forall i :: 0 <= i < |drops| ==> Valid(drops[i]) by {
      forall i | 0 <= i < |drops|
        ensures Valid(drops[i])
      {
        assert Fresh(drops[i]);
      }
    }
    RouteKeepsBagsOk(s.bags, drops);
    var routed := Route(s.bags, drops);
    FilterKeepsBagsOk(routed, goal);
    var r := s.(bags := FilterMainStatus(routed, goal));
    RouteUnlevelled(s.bags, drops, goal);
    r
  }

  /**
   After a domain run, bag `t` holds exactly `[a for a in old bag + drops of
   slot t if a.main == goal(t)]`, in that order.
   */
  lemma GoDomainContents(s: State, goal: Goal, drops: seq<Artifact>, t: nat)
    requires Ready(s) && t < SlotCount
    requires forall i :: 0 <= i < |drops| ==> Fresh(drops[i])
    ensures GoDomain(s, goal, drops).bags[t]
      == Filter(s.bags[t] + Filter(drops, SlotIs(Types[t])), MainIs(goal(Types[t])))
  {
    RoutePerSlot(s.bags, drops, t);
  }

  /** The domain runs a spend of `weeks` pays for. */
  function Runs(weeks: int): int
  {
    (WeeklyResin * weeks) / ResinPerDomain
  }

  /**
   `spend_weeks(weeks)`: the weeks' resin pays for `Runs(weeks)` domain runs
   (leftover resin is dropped), and the EXP budget is set, not added to.
   */
  function SpendWeeks(s: State, goal: Goal, weeks: int, drops: seq<Artifact>): (r: State)
    requires Ready(s)
    requires |drops| == if Runs(weeks) > 0 then Runs(weeks) else 0
    requires forall i :: 0 <= i < |drops| ==> Fresh(drops[i])
    ensures Ready(r) && MainsMatch(r.bags, goal)
    ensures r.exp == ExpPerDay * 7 * weeks
    ensures r.best == s.best && r.tick == s.tick
    ensures weeks >= 0 ==> ResinPerDomain * |drops| <= WeeklyResin * weeks < ResinPerDomain * (|drops| + 1)
  {
    GoDomain(s, goal, drops).(exp := ExpPerDay * 7 * weeks)
  }

  // ---------------------------------------------------------------------
  // _get_best_artifact_index and the bootstrap

  /** `_get_best_artifact_index`: none for an empty bag, else the first position of the greatest score. */
  function BestIndex(bag: seq<Artifact>, sub: Stat): (r: Option<nat>)
    ensures r.None? <==> |bag| == 0
    ensures r.Some? ==> r.value < |bag|
    ensures r.Some? ==> forall j :: 0 <= j < |bag| ==> Score(bag[j], sub) <= Score(bag[r.value], sub)
    ensures r.Some? ==> forall j :: 0 <= j < r.value ==> Score(bag[j], sub) < Score(bag[r.value], sub)
  {
    if |bag| == 0 then None else Some(TopIndex(bag, sub))
  }

  /** The player bootstraps with the artifact the traveler ranks first. */
  lemma BestIndexIsSortedHead(bag: seq<Artifact>, sub: Stat)
    requires |bag| > 0
    ensures SortByScore(bag, sub)[0] == bag[BestIndex(bag, sub).value]
  {
    TopIsSortedHead(bag, sub);
  }

  /** `list.pop(i)`: the bag without its `i`-th artifact. */
  function Pop(bag: seq<Artifact>, i: nat): (r: seq<Artifact>)
    requires i < |bag|
    ensures |r| == |bag| - 1
    ensures multiset(r) + multiset{bag[i]} == multiset(bag)
    ensures forall j :: 0 <= j < |r| ==> r[j] == if j < i then bag[j] else bag[j + 1]
  {
    assert bag == bag[..i] + [bag[i]] + bag[i + 1..];
    bag[..i] + bag[i + 1..]
  }

  lemma PopKeepsBag(bag: seq<Artifact>, i: nat, slot: Slot)
    requires i < |bag| && BagOk(bag, slot) && Unlevelled(bag)
    ensures BagOk(Pop(bag, i), slot) && Unlevelled(Pop(bag, i))
  {
  }

  /** Artifacts in all bags. */
  function Size(bags: seq<seq<Artifact>>): nat
  {
    if |bags| == 0 then 0 else |bags[0]| + Size(bags[1..])
  }

  lemma {:induction false} SizeReplace(bags: seq<seq<Artifact>>, t: nat, bag: seq<Artifact>)
    requires t < |bags|
    ensures Size(bags[t := bag]) == Size(bags) - |bags[t]| + |bag|
  {
    if t > 0 {
      assert bags[t := bag][1..] == bags[1..][t - 1 := bag];
      SizeReplace(bags[1..], t - 1, bag);
    }
  }

  /** Taking artifact `i` out of bag `t` keeps the bags well formed and removes one artifact. */
  lemma PopFromBags(bags: seq<seq<Artifact>>, t: nat, i: nat)
    requires BagsOk(bags) && AllUnlevelled(bags) && t < SlotCount && i < |bags[t]|
    ensures BagsOk(bags[t := Pop(bags[t], i)]) && AllUnlevelled(bags[t := Pop(bags[t], i)])
    ensures Size(bags[t := Pop(bags[t], i)]) == Size(bags) - 1
  {
    assert BagOk(bags[t], Types[t]) && Unlevelled(bags[t]);
    PopKeepsBag(bags[t], i, Types[t]);
    ReplaceBag(bags, t, Pop(bags[t], i));
  }

  /**
   What the bootstrap does to slot `t`: with no best artifact and a
   non-empty bag, the bag's top artifact leaves it and, finished, becomes
   the best; otherwise nothing changes.
   */
  ghost predicate SlotBootstrapped(bag: seq<Artifact>, best: Option<Artifact>, bag': seq<Artifact>, best': Option<Artifact>, sub: Stat)
  {
    if best.None? && |bag| > 0 then
      var i := BestIndex(bag, sub).value;
      && bag' == Pop(bag, i)
      && best'.Some? && Finished(bag[i], best'.value)
    else
      bag' == bag && best' == best
  }

  /**
   Artifact `i` leaves bag `t` (`bag[type].pop(i)`), its level-up to 20 is
   paid, and `b` becomes the slot's best.
   */
  function Take(s: State, t: nat, i: nat, b: Option<Artifact>): State
    requires |s.bags| == SlotCount && |s.best| == SlotCount && t < SlotCount && i < |s.bags[t]|
  {
    State(s.bags[t := Pop(s.bags[t], i)], s.best[t := b], s.exp - CostLevel20, s.tick + 1)
  }

  /** Taking an artifact out and installing a finished best keeps the state ready, one artifact lighter. */
  lemma TakeKeepsReady(s: State, t: nat, i: nat, b: Option<Artifact>)
    requires Ready(s) && t < SlotCount && i < |s.bags[t]| && BestOk(b, Types[t])
    ensures Ready(Take(s, t, i, b))
    ensures Size(Take(s, t, i, b).bags) == Size(s.bags) - 1
  {
    PopFromBags(s.bags, t, i);
    ReplaceBest(s.best, t, b);
  }

  /** The bootstrap has handled the slots before `t` of `s`, reaching `r`. */
  ghost predicate BootstrapUpTo(s: State, r: State, sub: Stat, t: nat)
    requires |s.bags| == SlotCount && |s.best| == SlotCount && t <= SlotCount
  {
    && Ready(r)
    && (forall u :: 0 <= u < t ==> SlotBootstrapped(s.bags[u], s.best[u], r.bags[u], r.best[u], sub))
    && (forall u :: 0 <= u < t && |r.bags[u]| > 0 ==> r.best[u].Some?)
    && (forall u :: t <= u < SlotCount ==> r.bags[u] == s.bags[u] && r.best[u] == s.best[u])
    && r.exp - CostLevel20 * Size(r.bags) == s.exp - CostLevel20 * Size(s.bags)
  }

  /** Popping the top artifact of a bag and installing its finished form is what the bootstrap does. */
  lemma TakeBootstraps(bag: seq<Artifact>, i: nat, up: Artifact, sub: Stat)
    requires BestIndex(bag, sub) == Some(i) && Finished(bag[i], up)
    ensures SlotBootstrapped(bag, None, Pop(bag, i), Some(up), sub)
  {
  }

  /** Slot `t` is bootstrapped with `up`, the finished form of its top artifact. */
  lemma BootstrapTakeKeeps(s: State, r: State, sub: Stat, t: nat, i: nat, up: Artifact)
    requires |s.bags| == SlotCount && |s.best| == SlotCount && t < SlotCount && BootstrapUpTo(s, r, sub, t)
    requires BestIndex(r.bags[t], sub) == Some(i) && r.best[t].None?
    requires BestOk(Some(up), Types[t]) && Finished(r.bags[t][i], up)
    ensures BootstrapUpTo(s, Take(r, t, i, Some(up)), sub, t + 1)
  {
    var n := Take(r, t, i, Some(up));
    TakeKeepsReady(r, t, i, Some(up));
    TakeBootstraps(r.bags[t], i, up, sub);
    BootstrapExtend(s, r, n, sub, t, Pop(r.bags[t], i), Some(up));
  }

  /** Slot `t` bootstrapped, and nothing else changed but the EXP paid for it, extends the bootstrap by one slot. */
  lemma BootstrapExtend(s: State, r: State, n: State, sub: Stat, t: nat, bag: seq<Artifact>, best: Option<Artifact>)
    requires |s.bags| == SlotCount && |s.best| == SlotCount && t < SlotCount && BootstrapUpTo(s, r, sub, t)
    requires n.bags == r.bags[t := bag] && n.best == r.best[t := best] && Ready(n)
    requires n.exp - CostLevel20 * Size(n.bags) == r.exp - CostLevel20 * Size(r.bags)
    requires SlotBootstrapped(s.bags[t], s.best[t], bag, best, sub) && best.Some?
    ensures BootstrapUpTo(s, n, sub, t + 1)
  {
    SlotsElsewhere(r, n, t, bag, best);
    forall u | 0 <= u < t + 1
      ensures SlotBootstrapped(s.bags[u], s.best[u], n.bags[u], n.best[u], sub)
    {
    }
  }

  /** Replacing slot `t`'s bag and best leaves every other slot as it was. */
  lemma SlotsElsewhere(r: State, n: State, t: nat, bag: seq<Artifact>, best: Option<Artifact>)
    requires |r.bags| == SlotCount && |r.best| == SlotCount && t < SlotCount
    requires n.bags == r.bags[t := bag] && n.best == r.best[t := best]
    ensures n.bags[t] == bag && n.best[t] == best
    ensures forall u :: 0 <= u < SlotCount && u != t ==> n.bags[u] == r.bags[u] && n.best[u] == r.best[u]
  {
  }

  /** Slot `t` has a best artifact already, or nothing to offer: it stays as it is. */
  lemma BootstrapSkipKeeps(s: State, r: State, sub: Stat, t: nat)
    requires |s.bags| == SlotCount && |s.best| == SlotCount && t < SlotCount && BootstrapUpTo(s, r, sub, t)
    requires BestIndex(r.bags[t], sub).None? || r.best[t].Some?
    ensures BootstrapUpTo(s, r, sub, t + 1)
  {
  }

  /**
   First half of `levelup_until_exp`: every slot without a best artifact
   whose bag is non-empty moves its top artifact, finished, into the best
   set, at 270475 EXP each whatever the budget.
   */
  method Bootstrap(s: State, sub: Stat, rng: Rng) returns (r: State)
    requires Ready(s)
    ensures Ready(r) && Covered(r)
    ensures forall t :: 0 <= t < SlotCount ==> SlotBootstrapped(s.bags[t], s.best[t], r.bags[t], r.best[t], sub)
    ensures r.exp == s.exp - CostLevel20 * (Size(s.bags) - Size(r.bags))
  {
    r := s;
    for t := 0 to SlotCount
      invariant BootstrapUpTo(s, r, sub, t)
    {
      var pick := BestIndex(r.bags[t], sub);
      if pick.Some? && r.best[t].None? {
        var i := pick.value;
        assert Valid(r.bags[t][i]) && Unlevelled(r.bags[t]);
        var up := Finish(r.bags[t][i], rng, r.tick);
        BootstrapTakeKeeps(s, r, sub, t, i, up);
        r := Take(r, t, i, Some(up));
      } else {
        BootstrapSkipKeeps(s, r, sub, t);
      }
    }
  }

  // ---------------------------------------------------------------------
  // _get_next_artifact

  /** Where a slot's name falls in string order: Circlet < Flower < Goblet < Plume < Sands. */
  function NameRank(t: Slot): nat
  {
    match t
    case Circlet => 0
    case Flower => 1
    case Goblet => 2
    case Plume => 3
    case Sands => 4
  }

  /** Comparing slot names as strings is comparing their `NameRank`. */
  lemma NameOrder()
    ensures forall a, b :: LexLess(SlotName(a), SlotName(b)) <==> NameRank(a) < NameRank(b)
  {
    forall a, b
      ensures LexLess(SlotName(a), SlotName(b)) <==> NameRank(a) < NameRank(b)
    {
      NameOrderPair(a, b);
    }
  }

  lemma NameOrderPair(a: Slot, b: Slot)
    ensures LexLess(SlotName(a), SlotName(b)) <==> NameRank(a) < NameRank(b)
  {
    if a == b {
      LexLessIrreflexive(SlotName(a));
    } else {
      assert SlotName(a)[0] != SlotName(b)[0];
    }
  }

  /**
   `max(score_diff)`: `max` over a dict compares its keys, so among the
   slots from `t` on with artifacts left this is the one whose name is
   greatest as a string, against the best `cur` found before `t`.
   */
  function MaxName(bags: seq<seq<Artifact>>, t: nat, cur: Option<nat>): (r: Option<nat>)
    requires |bags| == SlotCount && t <= SlotCount
    requires cur.Some? ==> cur.value < t && |bags[cur.value]| > 0
    ensures r.None? <==> cur.None? && forall u :: t <= u < SlotCount ==> |bags[u]| == 0
    ensures r.Some? ==> r.value < SlotCount && |bags[r.value]| > 0
    ensures r.Some? ==> forall u :: t <= u < SlotCount && |bags[u]| > 0 ==> NameRank(Types[u]) <= NameRank(Types[r.value])
    ensures r.Some? && cur.Some? ==> NameRank(Types[cur.value]) <= NameRank(Types[r.value])
    decreases SlotCount - t
  {
    if t == SlotCount then cur
    else
      NameOrderPair(Types[if cur.Some? then cur.value else t], Types[t]);
      if |bags[t]| > 0 && (cur.None? || LexLess(SlotName(Types[cur.value]), SlotName(Types[t]))) then
        MaxName(bags, t + 1, Some(t))
      else
        MaxName(bags, t + 1, cur)
  }

  /** The slots in decreasing name order: the order in which the refinement empties bags. */
  const NameDescending: seq<Slot> := [Sands, Plume, Goblet, Flower, Circlet]

  /** The first slot of `NameDescending`, from position `j` on, whose bag is non-empty. */
  function FirstNonEmpty(bags: seq<seq<Artifact>>, j: nat): (r: Option<Slot>)
    requires |bags| == SlotCount && j <= SlotCount
    decreases SlotCount - j
  {
    if j == SlotCount then None
    else if |bags[SlotIndex(NameDescending[j])]| > 0 then Some(NameDescending[j])
    else FirstNonEmpty(bags, j + 1)
  }

  /** The slot `max(score_diff)` picks is the first non-empty one in the order Sands, Plume, Goblet, Flower, Circlet. */
  lemma MaxNameIsFirstByName(bags: seq<seq<Artifact>>)
    requires |bags| == SlotCount
    ensures var m := MaxName(bags, 0, None);
            var f := FirstNonEmpty(bags, 0);
            m.None? == f.None? && (m.Some? ==> Types[m.value] == f.value)
  {
    var m := MaxName(bags, 0, None);
    var f := FirstNonEmpty(bags, 0);
    if m.Some? {
      var k := m.value;
      TypesIndex(k);
      FirstNonEmptyRank(bags, 0, Types[k]);
    } else {
      FirstNonEmptyNone(bags, 0);
    }
  }

  lemma {:induction false} FirstNonEmptyRank(bags: seq<seq<Artifact>>, j: nat, w: Slot)
    requires |bags| == SlotCount && j <= SlotCount
    requires |bags[SlotIndex(w)]| > 0 && NameRank(w) <= 4 - j
    requires forall u :: 0 <= u < SlotCount && |bags[u]| > 0 ==> NameRank(Types[u]) <= NameRank(w)
    ensures FirstNonEmpty(bags, j) == Some(w)
    decreases SlotCount - j
  {
    var s := NameDescending[j];
    assert NameRank(s) == 4 - j;
    if NameRank(w) < 4 - j {
      assert s != w;
      var k := SlotIndex(s);
      assert NameRank(Types[k]) == 4 - j;
      assert |bags[k]| == 0;
      FirstNonEmptyRank(bags, j + 1, w);
    }
  }

  lemma {:induction false} FirstNonEmptyNone(bags: seq<seq<Artifact>>, j: nat)
    requires |bags| == SlotCount && j <= SlotCount
    requires forall u :: 0 <= u < SlotCount ==> |bags[u]| == 0
    ensures FirstNonEmpty(bags, j).None?
    decreases SlotCount - j
  {
    if j < SlotCount {
      FirstNonEmptyNone(bags, j + 1);
    }
  }

  /**
   `_get_next_artifact`: the slot `max(score_diff)` names and, within it,
   `argmax(best - score)`: the first lowest-scoring bag artifact. `None`
   when every bag is empty (the source then fails on an empty `max`).
   */
  function NextPick(s: State, sub: Stat): (r: Option<(nat, nat)>)
    requires Ready(s) && Covered(s)
    ensures r.None? <==> forall t :: 0 <= t < SlotCount ==> |s.bags[t]| == 0
    ensures r.Some? ==> var (t, i) := r.value;
      && t < SlotCount && i < |s.bags[t]|
      && (forall u :: 0 <= u < SlotCount && |s.bags[u]| > 0 ==> NameRank(Types[u]) <= NameRank(Types[t]))
      && i == ArgMinFirst(Scores(s.bags[t], sub))
  {
    match MaxName(s.bags, 0, None)
    case None => None
    case Some(t) =>
      var top := Score(s.best[t].value, sub);
      ArgMaxOfGapIsArgMin(top, Scores(s.bags[t], sub));
      Some((t, ArgMaxFirst(SubFrom(top, Scores(s.bags[t], sub)))))
  }

  // ---------------------------------------------------------------------
  // The refinement loop

  /** Each best artifact of `before` is still there in `after` or replaced by a better one. */
  predicate BestNotWorse(before: seq<Option<Artifact>>, after: seq<Option<Artifact>>, sub: Stat)
  {
    && |after| == |before|
    && forall t :: 0 <= t < |before| && before[t].Some? ==>
      after[t].Some? && Score(after[t].value, sub) >= Score(before[t].value, sub)
  }

  /**
   One refinement: artifact `i` leaves bag `t`, and `up`, its finished
   form, replaces the slot's best only if it scores strictly more; so the
   slot's best afterwards scores the larger of the two.
   */
  function RefineStep(s: State, t: nat, i: nat, sub: Stat, up: Artifact): (r: State)
    requires |s.bags| == SlotCount && |s.best| == SlotCount && t < SlotCount && i < |s.bags[t]| && s.best[t].Some?
    ensures |r.best| == SlotCount && r.best[t].Some?
    ensures Score(r.best[t].value, sub) >= Score(s.best[t].value, sub) && Score(r.best[t].value, sub) >= Score(up, sub)
    ensures Score(s.best[t].value, sub) < Score(up, sub) ==> r.best[t] == Some(up)
    ensures Score(up, sub) <= Score(s.best[t].value, sub) ==> r.best[t] == s.best[t]
  {
    Take(s, t, i, if Score(s.best[t].value, sub) < Score(up, sub) then Some(up) else s.best[t])
  }

  /** What the refinement loop keeps. */
  predicate RefineInv(s: State, r: State, sub: Stat)
    requires |s.bags| == SlotCount
  {
    && Ready(r) && Covered(r)
    && r.exp - CostLevel20 * Size(r.bags) == s.exp - CostLevel20 * Size(s.bags)
    && BestNotWorse(s.best, r.best, sub)
  }

  /** A refinement with a finished artifact keeps the loop's invariant and pays one level-up. */
  lemma RefineInvStep(s: State, r: State, t: nat, i: nat, sub: Stat, up: Artifact)
    requires |s.bags| == SlotCount && RefineInv(s, r, sub) && t < SlotCount && i < |r.bags[t]|
    requires BestOk(Some(up), Types[t])
    ensures RefineInv(s, RefineStep(r, t, i, sub, up), sub)
    ensures RefineStep(r, t, i, sub, up).exp == r.exp - CostLevel20
  {
    var n := RefineStep(r, t, i, sub, up);
    var b := n.best[t];
    assert n == Take(r, t, i, b);
    TakeKeepsReady(r, t, i, b);
    TakeKeepsCovered(r, t, i, b);
    BestNotWorseStep(s.best, r.best, t, b, sub);
  }

  /** Taking an artifact out of a covered state and installing a best keeps it covered. */
  lemma TakeKeepsCovered(s: State, t: nat, i: nat, b: Option<Artifact>)
    requires |s.bags| == SlotCount && |s.best| == SlotCount && t < SlotCount && i < |s.bags[t]|
    requires Covered(s) && b.Some?
    ensures Covered(Take(s, t, i, b))
  {
  }

  /** Installing a best that scores at least the slot's old one keeps every best not worse. */
  lemma BestNotWorseStep(before: seq<Option<Artifact>>, mid: seq<Option<Artifact>>, t: nat, b: Option<Artifact>, sub: Stat)
    requires BestNotWorse(before, mid, sub) && t < |mid| && b.Some?
    requires mid[t].Some? ==> Score(b.value, sub) >= Score(mid[t].value, sub)
    ensures BestNotWorse(before, mid[t := b], sub)
  {
  }

  /**
   One turn of the refinement loop: `None` when every bag is empty;
   otherwise the artifact `NextPick` names is finished, paid for, and
   competes with its slot's best.
   */
  function RefineTurn(r: State, sub: Stat, rng: Rng): (n: Option<State>)
    requires Ready(r) && Covered(r)
    ensures n.None? <==> forall t :: 0 <= t < SlotCount ==> |r.bags[t]| == 0
    ensures n.Some? ==>
      && Ready(n.value) && Covered(n.value)
      && n.value.exp == r.exp - CostLevel20 && Size(n.value.bags) == Size(r.bags) - 1
      && BestNotWorse(r.best, n.value.best, sub)
  {
    match NextPick(r, sub)
    case None => None
    case Some((t, i)) =>
      assert Valid(r.bags[t][i]) && Unlevelled(r.bags[t]);
      var up := Finish(r.bags[t][i], rng, r.tick);
      RefineInvStep(r, r, t, i, sub, up);
      Some(RefineStep(r, t, i, sub, up))
  }

  lemma BestNotWorseTransitive(a: seq<Option<Artifact>>, b: seq<Option<Artifact>>, c: seq<Option<Artifact>>, sub: Stat)
    requires BestNotWorse(a, b, sub) && BestNotWorse(b, c, sub)
    ensures BestNotWorse(a, c, sub)
  {
  }

  /**
   The refinement loop as a recursion: while EXP is positive, take turns
   until the bags are empty. Every turn finishes the artifact `NextPick`
   names, so the artifacts finished, their order, and every new best are
   drawn from the bags in the source's order.
   */
  function RefineRun(r: State, sub: Stat, rng: Rng): State
    requires Ready(r) && Covered(r)
    decreases if r.exp < 0 then 0 else r.exp
  {
    if r.exp <= 0 then r
    else
      match RefineTurn(r, sub, rng)
      case None => r
      case Some(n) => RefineRun(n, sub, rng)
  }

  /**
   Second half of `levelup_until_exp`: while EXP is positive, finish the
   artifact `_get_next_artifact` names, paying 270475 each time; stop when
   the budget is gone or no bag artifact is left.
   */
  method Refine(s: State, sub: Stat, rng: Rng) returns (r: State)
    requires Ready(s) && Covered(s)
    ensures r == RefineRun(s, sub, rng)
    ensures Ready(r) && Covered(r)
    ensures r.exp <= 0 || forall t :: 0 <= t < SlotCount ==> |r.bags[t]| == 0
    ensures r.exp == s.exp - CostLevel20 * (Size(s.bags) - Size(r.bags))
    ensures BestNotWorse(s.best, r.best, sub)
  {
    r := s;
    while r.exp > 0
      invariant RefineInv(s, r, sub)
      invariant RefineRun(r, sub, rng) == RefineRun(s, sub, rng)
      decreases r.exp
    {
      match RefineTurn(r, sub, rng)
      case None =>
        return;
      case Some(n) =>
        BestNotWorseTransitive(s.best, r.best, n.best, sub);
        r := n;
    }
  }

  // ---------------------------------------------------------------------
  // get_max_scores

  /** How many slots have no best artifact. */
  function NoneCount(best: seq<Option<Artifact>>): (n: nat)
    ensures n <= |best|
    ensures n == 0 <==> forall t :: 0 <= t < |best| ==> best[t].Some?
  {
    if |best| == 0 then 0 else (if best[0].None? then 1 else 0) + NoneCount(best[1..])
  }

  /** The best artifact's score per slot, the free score where there is none. */
  function Current(best: seq<Option<Artifact>>, sub: Stat): (r: seq<real>)
    requires |best| == SlotCount
    ensures |r| == SlotCount
    ensures forall t :: 0 <= t < SlotCount ==> r[t] == if best[t].Some? then Score(best[t].value, sub) else FreeScores[t]
  {
    seq(SlotCount, t requires 0 <= t < SlotCount => if best[t].Some? then Score(best[t].value, sub) else FreeScores[t])
  }

  /**
   `get_max_scores`: empty when two or more slots have no best artifact;
   with one missing, that slot takes its free score; with none missing, the
   free score replaces the slot where it gains most, even when it gains
   nothing there.
   */
  function MaxScores(best: seq<Option<Artifact>>, sub: Stat): (r: seq<real>)
    requires |best| == SlotCount
    ensures |r| == 0 <==> NoneCount(best) > 1
    ensures NoneCount(best) == 1 ==> r == Current(best, sub)
  {
    var n := NoneCount(best);
    if n > 1 then []
    else if n == 1 then Current(best, sub)
    else
      var cur := Current(best, sub);
      var k := ArgMaxFirst(Diff(FreeScores, cur));
      cur[k := FreeScores[k]]
  }

  /**
   With every slot present, exactly one slot is replaced by its free score:
   the first slot with the largest gain (which may be negative). No
   other single replacement would give a larger total.
   */
  lemma MaxScoresSwap(best: seq<Option<Artifact>>, sub: Stat)
    requires |best| == SlotCount && NoneCount(best) == 0
    ensures var cur := Current(best, sub);
            var r := MaxScores(best, sub);
            && |r| == SlotCount
            && (exists k :: 0 <= k < SlotCount && r == cur[k := FreeScores[k]]
                 && (forall j :: 0 <= j < SlotCount ==> FreeScores[j] - cur[j] <= FreeScores[k] - cur[k])
                 && (forall j :: 0 <= j < k ==> FreeScores[j] - cur[j] < FreeScores[k] - cur[k]))
            && (forall j :: 0 <= j < SlotCount ==> Sum(r) >= Sum(cur[j := FreeScores[j]]))
  {
    var cur := Current(best, sub);
    var k := ArgMaxFirst(Diff(FreeScores, cur));
    SumUpdate(cur, k, FreeScores[k]);
    forall j | 0 <= j < SlotCount
      ensures Sum(MaxScores(best, sub)) >= Sum(cur[j := FreeScores[j]])
    {
      SumUpdate(cur, j, FreeScores[j]);
    }
  }

  /** Unlike keeping the current scores, the unconditional swap lowers the total when every slot beats its free score. */
  lemma MaxScoresCanLower(best: seq<Option<Artifact>>, sub: Stat)
    requires |best| == SlotCount && NoneCount(best) == 0
    requires forall t :: 0 <= t < SlotCount ==> FreeScores[t] < Score(best[t].value, sub)
    ensures Sum(MaxScores(best, sub)) < Sum(Current(best, sub))
  {
    var cur := Current(best, sub);
    var k := ArgMaxFirst(Diff(FreeScores, cur));
    SumUpdate(cur, k, FreeScores[k]);
  }
}
