/**
 One artifact: its level, set, slot, main stat and the insertion-ordered
 sub-stat dictionary, with the three operations the simulators use:
 adding a fresh sub-stat, levelling up, and scoring.

 Every random draw is an explicit argument. A `Growth` carries the two
 draws one upgrade event makes (which sub-stat, which roll); a stream of
 them is a function `Rng` from positions to draws.
 */
module Artifacts {
  import opened Seqs
  import opened Stats

  /** One `stat: value` entry of the sub-stat dictionary. */
  datatype Roll = Roll(stat: Stat, value: real)

  /** `subs` lists the sub-stat dictionary in insertion order. */
  datatype Artifact = Artifact(level: int, setId: int, slot: Slot, main: Stat, subs: seq<Roll>)

  /** The two draws of one upgrade event: an index and a roll index, each reduced modulo its range. */
  datatype Growth = Growth(pick: nat, roll: nat)

  /** An infinite stream of upgrade draws. */
  type Rng = nat -> Growth

  /** The dictionary's keys, `list(sub_status)`. */
  function Keys(subs: seq<Roll>): (ks: seq<Stat>)
    ensures |ks| == |subs|
    ensures forall i :: 0 <= i < |subs| ==> ks[i] == subs[i].stat
  {
    if |subs| == 0 then [] else [subs[0].stat] + Keys(subs[1..])
  }

  predicate DistinctKeys(subs: seq<Roll>)
  {
    forall i, j :: 0 <= i < j < |subs| ==> subs[i].stat != subs[j].stat
  }

  /** `sub_status.get(k)`. */
  function Lookup(subs: seq<Roll>, k: Stat): (r: Option<real>)
    ensures r.Some? <==> k in Keys(subs)
    ensures r.Some? ==> Roll(k, r.value) in subs
  {
    if |subs| == 0 then None
    else if subs[0].stat == k then Some(subs[0].value)
    else
      assert Keys(subs) == [subs[0].stat] + Keys(subs[1..]);
      Lookup(subs[1..], k)
  }

  /** `sub_status.get(k, 0)`. */
  function Val(subs: seq<Roll>, k: Stat): real
  {
    match Lookup(subs, k)
    case Some(v) => v
    case None => 0.0
  }

  /** In a dictionary the entry of key `subs[i].stat` is at position `i`. */
  lemma ValAt(subs: seq<Roll>, i: nat)
    requires DistinctKeys(subs) && i < |subs|
    ensures Val(subs, subs[i].stat) == subs[i].value
  {
    if i > 0 {
      ValAt(subs[1..], i - 1);
    }
  }

  /**
   A sub-stat `main`'s chance table can draw: by `Stats.ChanceSupport` these
   are exactly the positive-weight entries of the table.
   */
  predicate Drawable(main: Stat, s: Stat)
  {
    IsSubStat(s) && s != main
  }

  /** Well-formed sub-stats: distinct drawable keys with positive values. */
  predicate SubsOk(main: Stat, subs: seq<Roll>)
  {
    && DistinctKeys(subs)
    && forall i :: 0 <= i < |subs| ==> Drawable(main, subs[i].stat) && subs[i].value > 0.0
  }

  /** `x` is a single roll of its stat: one of the four magnitudes of `RollRange`. */
  predicate OneRoll(x: Roll)
  {
    IsSubStat(x.stat) && x.value in RollRange(x.stat)
  }

  /** The states an artifact can reach: created by `NewArtifact` and levelled by `LevelUp`. */
  predicate Valid(a: Artifact)
  {
    && CanBeMain(a.slot, a.main)
    && 0 <= a.setId <= 1
    && 0 <= a.level <= MaxLevel
    && 3 <= |a.subs| <= 4
    && SubsOk(a.main, a.subs)
  }

  // ---------------------------------------------------------------------
  // generate_subset

  /** `[s for s in order if s != main and s not in ks]`. */
  function FreshOf(order: seq<Stat>, main: Stat, ks: seq<Stat>): (r: seq<Stat>)
    ensures forall s :: s in r <==> s in order && s != main && s !in ks
  {
    if |order| == 0 then []
    else
      var rest := FreshOf(order[1..], main, ks);
      assert forall s :: s in order <==> s == order[0] || s in order[1..] by {
        assert order == [order[0]] + order[1..];
      }
      if order[0] != main && order[0] !in ks then [order[0]] + rest else rest
  }

  /**
   The sub-stats a fresh draw may add: drawable and not yet present, in the
   tables' key order.
   */
  function Candidates(main: Stat, subs: seq<Roll>): (r: seq<Stat>)
    ensures forall s :: s in r <==> Drawable(main, s) && s !in Keys(subs)
  {
    forall s
      ensures s in SubStatOrder <==> IsSubStat(s)
    {
      SubStatOrderCoversSubStats(s);
    }
    FreshOf(SubStatOrder, main, Keys(subs))
  }

  /** With at most three sub-stats present there is always one left to add. */
  lemma CandidatesNonEmpty(main: Stat, subs: seq<Roll>)
    requires |subs| <= 3
    ensures |Candidates(main, subs)| > 0
  {
    var c := SomeFresh(main, Keys(subs));
    assert IsSubStat(c);
    var cs := Candidates(main, subs);
    assert c in cs;
  }

  /** Five distinct sub-stats cannot all be the main stat or one of at most three keys. */
  lemma SomeFresh(main: Stat, ks: seq<Stat>) returns (c: Stat)
    requires |ks| <= 3
    ensures c in [Hp, Atk, Def, HpPct, AtkPct] && c != main && c !in ks
  {
    var k0 := if |ks| > 0 then ks[0] else main;
    var k1 := if |ks| > 1 then ks[1] else main;
    var k2 := if |ks| > 2 then ks[2] else main;
    assert forall x :: x in ks ==> x == k0 || x == k1 || x == k2;
    if Hp != main && Hp != k0 && Hp != k1 && Hp != k2 {
      c := Hp;
    } else if Atk != main && Atk != k0 && Atk != k1 && Atk != k2 {
      c := Atk;
    } else if Def != main && Def != k0 && Def != k1 && Def != k2 {
      c := Def;
    } else if HpPct != main && HpPct != k0 && HpPct != k1 && HpPct != k2 {
      c := HpPct;
    } else {
      c := AtkPct;
    }
  }

  /**
   The rejection loop of `generate_subset`: given the successive weighted
   draws, the position of the first one that is not already a key.
   */
  function FirstAccepted(draws: seq<Stat>, present: seq<Stat>): (r: Option<nat>)
    ensures r.Some? ==> r.value < |draws| && draws[r.value] !in present
    ensures r.Some? ==> forall j :: 0 <= j < r.value ==> draws[j] in present
    ensures r.None? <==> forall j :: 0 <= j < |draws| ==> draws[j] in present
  {
    if |draws| == 0 then None
    else if draws[0] !in present then Some(0)
    else
      match FirstAccepted(draws[1..], present)
      case None => None
      case Some(j) => Some(j + 1)
  }

  /**
   A draw the loop accepts is one of `Candidates`, so choosing among
   `Candidates` covers every outcome of the loop.
   */
  lemma AcceptedDrawIsCandidate(main: Stat, subs: seq<Roll>, draws: seq<Stat>)
    requires forall j :: 0 <= j < |draws| ==> Drawable(main, draws[j])
    requires FirstAccepted(draws, Keys(subs)).Some?
    ensures draws[FirstAccepted(draws, Keys(subs)).value] in Candidates(main, subs)
  {
  }

  /** Appending a fresh drawable entry keeps the sub-stats well formed. */
  lemma AppendFresh(main: Stat, subs: seq<Roll>, x: Roll)
    requires SubsOk(main, subs)
    requires Drawable(main, x.stat) && x.stat !in Keys(subs) && x.value > 0.0
    ensures SubsOk(main, subs + [x])
    ensures Keys(subs + [x]) == Keys(subs) + [x.stat]
  {
    assert forall i :: 0 <= i < |subs| ==> subs[i].stat != x.stat by {
      assert forall i :: 0 <= i < |subs| ==> Keys(subs)[i] == subs[i].stat;
    }
  }

  /** Record a fresh sub-stat `stat` with roll number `roll` (`sub_status[stat] = ...`). */
  function GenerateSubset(a: Artifact, stat: Stat, roll: nat): (r: Artifact)
    requires SubsOk(a.main, a.subs)
    requires stat in Candidates(a.main, a.subs)
    requires roll < 4
    ensures r == a.(subs := r.subs)
    ensures |r.subs| == |a.subs| + 1 && r.subs[..|a.subs|] == a.subs
    ensures Keys(r.subs) == Keys(a.subs) + [stat]
    ensures IsSubStat(stat) && r.subs[|a.subs|].value in RollRange(stat)
    ensures r.subs[|a.subs|].value >= MinRoll
    ensures SubsOk(a.main, r.subs)
  {
    var rr := RollRange(stat);
    var x := Roll(stat, rr[roll]);
    AppendFresh(a.main, a.subs, x);
    assert (a.subs + [x])[..|a.subs|] == a.subs;
    a.(subs := a.subs + [x])
  }

  /** `generate_subset` driven by one upgrade draw: the candidate and roll it selects. */
  function AddSub(a: Artifact, g: Growth): (r: Artifact)
    requires SubsOk(a.main, a.subs) && |a.subs| <= 3
    ensures r == a.(subs := r.subs)
    ensures |r.subs| == |a.subs| + 1 && r.subs[..|a.subs|] == a.subs
    ensures var s := r.subs[|a.subs|].stat; IsSubStat(s) && s != a.main && s !in Keys(a.subs)
    ensures OneRoll(r.subs[|a.subs|])
    ensures r.subs[|a.subs|].value >= MinRoll
    ensures SubsOk(a.main, r.subs)
  {
    GenerateSubset(a, Pick(a.main, a.subs, g.pick), g.roll % 4)
  }

  /** The candidate an index draw selects, reduced modulo the number of candidates. */
  function Pick(main: Stat, subs: seq<Roll>, pick: nat): (s: Stat)
    requires |subs| <= 3
    ensures s in Candidates(main, subs)
  {
    var cands := Candidates(main, subs);
    CandidatesNonEmpty(main, subs);
    cands[pick % |cands|]
  }

  /** Every fresh candidate is the outcome of some draw. */
  lemma AddSubReachesEveryCandidate(a: Artifact, stat: Stat, roll: nat)
    requires SubsOk(a.main, a.subs) && |a.subs| <= 3
    requires stat in Candidates(a.main, a.subs) && roll < 4
    ensures exists g: Growth :: AddSub(a, g) == GenerateSubset(a, stat, roll)
  {
    var cands := Candidates(a.main, a.subs);
    var p :| 0 <= p < |cands| && cands[p] == stat;
    ModSmall(p, |cands|);
    ModSmall(roll, 4);
    assert Pick(a.main, a.subs, p) == stat;
    var g := Growth(p, roll);
    assert AddSub(a, g) == GenerateSubset(a, stat, roll);
  }

  lemma ModSmall(x: nat, n: nat)
    requires x < n
    ensures x % n == x
  {
  }

  // ---------------------------------------------------------------------
  // level_up

  function Total(subs: seq<Roll>): real
  {
    if |subs| == 0 then 0.0 else subs[0].value + Total(subs[1..])
  }

  lemma {:induction false} TotalAppend(s: seq<Roll>, x: Roll)
    ensures Total(s + [x]) == Total(s) + x.value
  {
    if |s| > 0 {
      assert (s + [x])[1..] == s[1..] + [x];
      TotalAppend(s[1..], x);
    }
  }

  lemma {:induction false} TotalUpdate(s: seq<Roll>, i: nat, x: Roll)
    requires i < |s|
    ensures Total(s[i := x]) == Total(s) - s[i].value + x.value
  {
    if i > 0 {
      assert s[i := x][1..] == s[1..][i - 1 := x];
      TotalUpdate(s[1..], i - 1, x);
    }
  }

  /** `after` is `before` with exactly the entry at `i` raised by one roll of its stat. */
  predicate GrewAt(before: seq<Roll>, after: seq<Roll>, i: nat)
  {
    && |after| == |before| && i < |before|
    && after[i].stat == before[i].stat
    && IsSubStat(before[i].stat)
    && after[i].value - before[i].value in RollRange(before[i].stat)
    && forall j :: 0 <= j < |before| && j != i ==> after[j] == before[j]
  }

  /** Positions keep their keys and values only grow. */
  predicate Kept(before: seq<Roll>, after: seq<Roll>)
  {
    && |before| <= |after|
    && forall i :: 0 <= i < |before| ==> after[i].stat == before[i].stat && after[i].value >= before[i].value
  }

  lemma KeptTransitive(a: seq<Roll>, b: seq<Roll>, c: seq<Roll>)
    requires Kept(a, b) && Kept(b, c)
    ensures Kept(a, c)
  {
  }

  lemma AppendGrows(subs: seq<Roll>, x: Roll)
    requires x.value >= MinRoll
    ensures Kept(subs, subs + [x])
    ensures Total(subs + [x]) >= Total(subs) + MinRoll
  {
    TotalAppend(subs, x);
  }

  /** Raising entry `i` by roll number `k` of its stat. */
  function Bump(subs: seq<Roll>, i: nat, k: nat): (r: seq<Roll>)
    requires i < |subs| && IsSubStat(subs[i].stat) && k < 4
  {
    subs[i := Roll(subs[i].stat, subs[i].value + RollRange(subs[i].stat)[k])]
  }

  lemma BumpGrows(main: Stat, subs: seq<Roll>, i: nat, k: nat)
    requires SubsOk(main, subs) && i < |subs| && k < 4
    ensures SubsOk(main, Bump(subs, i, k))
    ensures GrewAt(subs, Bump(subs, i, k), i)
    ensures Kept(subs, Bump(subs, i, k))
    ensures Total(Bump(subs, i, k)) >= Total(subs) + MinRoll
  {
    var r := Bump(subs, i, k);
    TotalUpdate(subs, i, r[i]);
  }

  /**
   `after` is `before` after one upgrade event: a fresh fourth entry holding
   one roll of its stat, or one more roll on one of four entries.
   */
  predicate Step(before: seq<Roll>, after: seq<Roll>)
  {
    || (&& |before| == 3 && |after| == 4 && after[..3] == before
        && after[3].stat !in Keys(before) && OneRoll(after[3]))
    || (|before| == 4 && exists i :: 0 <= i < 4 && GrewAt(before, after, i))
  }

  /** `after` is `before` after exactly `n` upgrade events. */
  ghost predicate Steps(before: seq<Roll>, after: seq<Roll>, n: nat)
    decreases n
  {
    if n == 0 then after == before
    else exists mid :: Step(before, mid) && Steps(mid, after, n - 1)
  }

  /** One event followed by `n` more is `n + 1` events. */
  lemma StepsCons(before: seq<Roll>, mid: seq<Roll>, after: seq<Roll>, n: nat)
    requires Step(before, mid) && Steps(mid, after, n)
    ensures Steps(before, after, n + 1)
  {
  }

  /** One upgrade event: a fourth sub-stat when there are three, else one roll on one of the four. */
  function Grow(a: Artifact, g: Growth): (r: Artifact)
    requires Valid(a)
    ensures Valid(r)
    ensures r == a.(subs := r.subs)
    ensures |a.subs| == 3 ==> |r.subs| == 4 && r.subs[..3] == a.subs && r.subs[3].stat !in Keys(a.subs)
    ensures |a.subs| == 4 ==> exists i :: 0 <= i < 4 && GrewAt(a.subs, r.subs, i)
    ensures Step(a.subs, r.subs)
    ensures Kept(a.subs, r.subs)
    ensures Total(r.subs) >= Total(a.subs) + MinRoll
  {
    if |a.subs| == 3 then
      var r := AddSub(a, g);
      assert r.subs == a.subs + [r.subs[3]];
      AppendGrows(a.subs, r.subs[3]);
      r
    else
      var i := g.pick % 4;
      BumpGrows(a.main, a.subs, i, g.roll % 4);
      a.(subs := Bump(a.subs, i, g.roll % 4))
  }

  /** A run of upgrade events, in order. */
  function ApplyGrowths(a: Artifact, gs: seq<Growth>): (r: Artifact)
    requires Valid(a)
    ensures Valid(r)
    ensures r == a.(subs := r.subs)
    ensures |r.subs| == (if |a.subs| == 3 && |gs| > 0 then 4 else |a.subs|)
    ensures Kept(a.subs, r.subs)
    ensures Total(r.subs) >= Total(a.subs) + MinRoll * |gs| as real
    decreases |gs|
  {
    if |gs| == 0 then a
    else
      var b := Grow(a, gs[0]);
      var r := ApplyGrowths(b, gs[1..]);
      KeptTransitive(a.subs, b.subs, r.subs);
      r
  }

  /** A run of `|gs|` draws is exactly `|gs|` upgrade events. */
  lemma {:induction false} ApplyGrowthsSteps(a: Artifact, gs: seq<Growth>)
    requires Valid(a)
    ensures Steps(a.subs, ApplyGrowths(a, gs).subs, |gs|)
    decreases |gs|
  {
    if |gs| == 0 {
      assert ApplyGrowths(a, gs) == a;
    } else {
      var b := Grow(a, gs[0]);
      var rest := ApplyGrowths(b, gs[1..]).subs;
      assert |gs[1..]| + 1 == |gs|;
      assert ApplyGrowths(a, gs).subs == rest;
      ApplyGrowthsSteps(b, gs[1..]);
      StepsCons(a.subs, b.subs, rest, |gs[1..]|);
    }
  }

  lemma {:induction false} ApplyGrowthsAppend(a: Artifact, g1: seq<Growth>, g2: seq<Growth>)
    requires Valid(a)
    ensures ApplyGrowths(ApplyGrowths(a, g1), g2) == ApplyGrowths(a, g1 + g2)
    decreases |g1|
  {
    if |g1| > 0 {
      assert (g1 + g2)[1..] == g1[1..] + g2;
      ApplyGrowthsAppend(Grow(a, g1[0]), g1[1..], g2);
    } else {
      assert g1 + g2 == g2;
    }
  }

  /** Upgrade draws do not look at the level. */
  lemma {:induction false} ApplyGrowthsIgnoresLevel(a: Artifact, gs: seq<Growth>, level: int)
    requires Valid(a) && 0 <= level <= MaxLevel
    ensures ApplyGrowths(a.(level := level), gs) == ApplyGrowths(a, gs).(level := level)
    decreases |gs|
  {
    if |gs| > 0 {
      assert Grow(a.(level := level), gs[0]) == Grow(a, gs[0]).(level := level);
      ApplyGrowthsIgnoresLevel(Grow(a, gs[0]), gs[1..], level);
    }
  }

  /** `min(level + levels, max_level)`. */
  function NewLevel(level: int, levels: int): (l: int)
    ensures l <= MaxLevel && l <= level + levels
    ensures l == MaxLevel || l == level + levels
  {
    if level + levels < MaxLevel then level + levels else MaxLevel
  }

  /** `floor(new / 4) - floor(old / 4)` upgrade events; a negative count runs none. */
  function GrowthEvents(level: int, levels: int): (n: nat)
    ensures 0 <= level <= MaxLevel && 0 <= levels ==> n == NewLevel(level, levels) / 4 - level / 4
    ensures 0 <= level <= MaxLevel ==> n <= 5
    ensures 0 <= level && NewLevel(level, levels) < level / 4 * 4 + 4 ==> n == 0
  {
    var d := NewLevel(level, levels) / 4 - level / 4;
    if d > 0 then d else 0
  }

  /**
   `level_up(levels)`: the level rises by `levels`, capped at 20, and one
   upgrade event runs for every multiple of four crossed. `cs` holds the
   draws; only the first `GrowthEvents` are used.
   */
  function LevelUp(a: Artifact, levels: int, cs: seq<Growth>): (r: Artifact)
    requires Valid(a)
    requires a.level + levels >= 0
    requires |cs| >= GrowthEvents(a.level, levels)
    ensures Valid(r)
    ensures r.level <= MaxLevel && r.level <= a.level + levels
    ensures r.level == MaxLevel || r.level == a.level + levels
    ensures r.setId == a.setId && r.slot == a.slot && r.main == a.main
    ensures |r.subs| == (if |a.subs| == 3 && GrowthEvents(a.level, levels) > 0 then 4 else |a.subs|)
    ensures Kept(a.subs, r.subs)
    ensures Total(r.subs) >= Total(a.subs) + MinRoll * GrowthEvents(a.level, levels) as real
    ensures GrowthEvents(a.level, levels) == 0 ==> r.subs == a.subs
    ensures levels == 0 ==> r == a
    ensures a.level == MaxLevel && levels >= 0 ==> r == a
  {
    var n := GrowthEvents(a.level, levels);
    ApplyGrowths(a, cs[..n]).(level := NewLevel(a.level, levels))
  }

  /** A level-up runs exactly one upgrade event per multiple of four crossed. */
  lemma LevelUpSteps(a: Artifact, levels: int, cs: seq<Growth>)
    requires Valid(a)
    requires a.level + levels >= 0
    requires |cs| >= GrowthEvents(a.level, levels)
    ensures Steps(a.subs, LevelUp(a, levels, cs).subs, GrowthEvents(a.level, levels))
  {
    ApplyGrowthsSteps(a, cs[..GrowthEvents(a.level, levels)]);
  }

  /**
   `y` is an outcome of `level_up(levels)` on `x`: the level-up run with
   some run of upgrade draws, one per event.
   */
  ghost predicate LevelledUp(x: Artifact, y: Artifact, levels: int)
  {
    && Valid(x) && x.level + levels >= 0
    && exists cs: seq<Growth> :: |cs| == GrowthEvents(x.level, levels) && y == LevelUp(x, levels, cs)
  }

  /** Whatever draws it is given, a level-up yields one of its outcomes. */
  lemma LevelUpIsLevelledUp(x: Artifact, levels: int, cs: seq<Growth>)
    requires Valid(x) && x.level + levels >= 0
    requires |cs| >= GrowthEvents(x.level, levels)
    ensures LevelledUp(x, LevelUp(x, levels, cs), levels)
  {
    var c := cs[..GrowthEvents(x.level, levels)];
    LevelUpRunsAll(x, levels, c);
    assert LevelUp(x, levels, c) == LevelUp(x, levels, cs);
  }

  /**
   An outcome of `level_up(levels)` is a valid artifact of the same identity
   at the capped level, reached by exactly `GrowthEvents` upgrade events.
   */
  lemma LevelledUpSteps(x: Artifact, y: Artifact, levels: int)
    requires LevelledUp(x, y, levels)
    ensures Valid(y) && y.setId == x.setId && y.slot == x.slot && y.main == x.main
    ensures y.level == NewLevel(x.level, levels)
    ensures Steps(x.subs, y.subs, GrowthEvents(x.level, levels))
  {
    var cs :| |cs| == GrowthEvents(x.level, levels) && y == LevelUp(x, levels, cs);
    LevelUpSteps(x, levels, cs);
    LevelUpRunsAll(x, levels, cs);
  }

  /**
   Two level-ups by non-negative amounts are one level-up by their sum,
   drawing the first one's upgrade draws and then the second one's.
   */
  lemma LevelUpComposes(a: Artifact, x: int, y: int, c1: seq<Growth>, c2: seq<Growth>)
    requires Valid(a) && 0 <= x && 0 <= y
    requires |c1| == GrowthEvents(a.level, x)
    requires |c2| == GrowthEvents(NewLevel(a.level, x), y)
    ensures LevelUp(LevelUp(a, x, c1), y, c2) == LevelUp(a, x + y, c1 + c2)
  {
    var b := LevelUp(a, x, c1);
    var l1 := NewLevel(a.level, x);
    var l2 := NewLevel(a.level, x + y);
    var g := ApplyGrowths(a, c1);
    assert b == g.(level := l1) by {
      LevelUpRunsAll(a, x, c1);
    }
    assert NewLevel(l1, y) == l2 && |c1 + c2| == GrowthEvents(a.level, x + y) by {
      EventsAdd(a.level, x, y);
    }
    assert LevelUp(b, y, c2) == ApplyGrowths(b, c2).(level := l2) by {
      LevelUpRunsAll(b, y, c2);
    }
    assert LevelUp(a, x + y, c1 + c2) == ApplyGrowths(a, c1 + c2).(level := l2) by {
      LevelUpRunsAll(a, x + y, c1 + c2);
    }
    ComposeGrowths(a, c1, c2, l1, l2);
  }

  /** With exactly as many draws as events, a level-up runs all of them. */
  lemma LevelUpRunsAll(a: Artifact, levels: int, cs: seq<Growth>)
    requires Valid(a) && a.level + levels >= 0
    requires |cs| == GrowthEvents(a.level, levels)
    ensures LevelUp(a, levels, cs) == ApplyGrowths(a, cs).(level := NewLevel(a.level, levels))
  {
    assert cs[..|cs|] == cs;
  }

  /** Two runs of upgrade events, with the level reset between them, are one run. */
  lemma ComposeGrowths(a: Artifact, g1: seq<Growth>, g2: seq<Growth>, l1: int, l2: int)
    requires Valid(a) && 0 <= l1 <= MaxLevel
    ensures ApplyGrowths(ApplyGrowths(a, g1).(level := l1), g2).(level := l2)
            == ApplyGrowths(a, g1 + g2).(level := l2)
  {
    ApplyGrowthsIgnoresLevel(ApplyGrowths(a, g1), g2, l1);
    ApplyGrowthsAppend(a, g1, g2);
  }

  /** Level and upgrade-event counts add up over successive level-ups. */
  lemma EventsAdd(level: int, x: int, y: int)
    requires 0 <= level <= MaxLevel && 0 <= x && 0 <= y
    ensures NewLevel(NewLevel(level, x), y) == NewLevel(level, x + y)
    ensures GrowthEvents(level, x + y) == GrowthEvents(level, x) + GrowthEvents(NewLevel(level, x), y)
  {
  }

  // ---------------------------------------------------------------------
  // __init__

  /** `for _ in range(n): generate_subset()`, one draw per sub-stat. */
  function AddSubs(a: Artifact, gs: seq<Growth>): (r: Artifact)
    requires SubsOk(a.main, a.subs) && |a.subs| + |gs| <= 4
    ensures r == a.(subs := r.subs)
    ensures |r.subs| == |a.subs| + |gs| && r.subs[..|a.subs|] == a.subs
    ensures SubsOk(a.main, r.subs)
    ensures forall i :: |a.subs| <= i < |r.subs| ==> OneRoll(r.subs[i])
    decreases |gs|
  {
    if |gs| == 0 then a
    else
      var b := AddSub(a, gs[0]);
      var r := AddSubs(b, gs[1..]);
      RolledTail(a.subs, b.subs, r.subs);
      r
  }

  /** Appending one roll and then more rolls keeps the prefix, and every appended entry is a single roll. */
  lemma RolledTail(a: seq<Roll>, b: seq<Roll>, r: seq<Roll>)
    requires |b| == |a| + 1 && b[..|a|] == a && OneRoll(b[|a|])
    requires |b| <= |r| && r[..|b|] == b
    requires forall i :: |b| <= i < |r| ==> OneRoll(r[i])
    ensures r[..|a|] == a
    ensures forall i :: |a| <= i < |r| ==> OneRoll(r[i])
  {
  }

  /**
   A fresh artifact: level 0, set `setId`, slot `Types[slotDraw]`, main stat
   `main` (a positive-weight draw of the slot's table), and four sub-stats
   when `countDraw` (a draw from 1 to 5) is 1, three otherwise.
   */
  function NewArtifact(setId: int, slotDraw: int, main: Stat, countDraw: int, gs: seq<Growth>): (r: Artifact)
    requires 0 <= setId <= 1
    requires 0 <= slotDraw < SlotCount
    requires CanBeMain(Types[slotDraw], main)
    requires 1 <= countDraw <= 5
    requires |gs| >= 4
    ensures Valid(r)
    ensures r.level == 0 && r.setId == setId && r.slot == Types[slotDraw] && r.main == main
    ensures |r.subs| == 4 <==> countDraw == 1
    ensures forall i :: 0 <= i < |r.subs| ==> r.subs[i].stat != main
    ensures forall i :: 0 <= i < |r.subs| ==> OneRoll(r.subs[i])
  {
    var n := if countDraw == 1 then 4 else 3;
    AddSubs(Artifact(0, setId, Types[slotDraw], main, []), gs[..n])
  }

  /** The five upgrade draws reserved for the `u`-th level-up of a run. */
  function Chunk(rng: Rng, u: nat): (cs: seq<Growth>)
    ensures |cs| == 5
    ensures forall j :: 0 <= j < 5 ==> cs[j] == rng(5 * u + j)
  {
    seq(5, j requires 0 <= j < 5 => rng(5 * u + j))
  }

  // ---------------------------------------------------------------------
  // get_score

  /**
   `get_score(desired)`: twice the CR roll, plus the CD roll, plus the
   desired sub-stat's roll (a quarter of it when that is EM), each only when
   the artifact has that sub-stat.
   */
  function Score(a: Artifact, desired: Stat): real
  {
    SubsScore(a.subs, desired)
  }

  function SubsScore(subs: seq<Roll>, desired: Stat): real
  {
    var crit :=
      (if Cr in Keys(subs) then Val(subs, Cr) * 2.0 else 0.0)
      + (if Cd in Keys(subs) then Val(subs, Cd) else 0.0);
    if desired in Keys(subs) then
      if desired == Em then crit + Val(subs, Em) / 4.0 else crit + Val(subs, desired)
    else crit
  }

  /** What one unit of sub-stat `k` is worth to the score. */
  function Weight(k: Stat, desired: Stat): (w: real)
    ensures w >= 0.0
  {
    (if k == Cr then 2.0 else 0.0)
    + (if k == Cd then 1.0 else 0.0)
    + (if k == desired then (if desired == Em then 0.25 else 1.0) else 0.0)
  }

  /** What one entry adds to the score, written without variable products. */
  function Worth(x: Roll, desired: Stat): real
  {
    (if x.stat == Cr then 2.0 * x.value else 0.0)
    + (if x.stat == Cd then x.value else 0.0)
    + (if x.stat == desired then (if desired == Em then x.value / 4.0 else x.value) else 0.0)
  }

  lemma WorthIsWeight(k: Stat, v: real, desired: Stat)
    ensures Worth(Roll(k, v), desired) == Weight(k, desired) * v
  {
    if k == desired && desired == Em {
      assert Worth(Roll(k, v), desired) == v / 4.0;
    } else if k == desired && k == Cr {
      assert Worth(Roll(k, v), desired) == 3.0 * v;
    } else if k == desired && k == Cd {
      assert Worth(Roll(k, v), desired) == 2.0 * v;
    }
  }

  /** The score as the sum of every entry's worth: the reference definition. */
  function WeightedSum(subs: seq<Roll>, desired: Stat): real
  {
    if |subs| == 0 then 0.0 else Worth(subs[0], desired) + WeightedSum(subs[1..], desired)
  }

  /** The score read off the per-key values (absent keys count 0). */
  function Linear(subs: seq<Roll>, desired: Stat): real
  {
    2.0 * Val(subs, Cr) + Val(subs, Cd)
    + (if desired == Em then Val(subs, desired) / 4.0 else Val(subs, desired))
  }

  lemma SubsScoreLinear(subs: seq<Roll>, desired: Stat)
    ensures SubsScore(subs, desired) == Linear(subs, desired)
  {
  }

  lemma ValCons(x: Roll, t: seq<Roll>, k: Stat)
    ensures Val([x] + t, k) == if x.stat == k then x.value else Val(t, k)
  {
    assert ([x] + t)[1..] == t;
  }

  /** In a dictionary the first key does not occur again. */
  lemma HeadFresh(subs: seq<Roll>)
    requires DistinctKeys(subs) && |subs| > 0
    ensures subs[0].stat !in Keys(subs[1..])
  {
    var t := subs[1..];
    forall i | 0 <= i < |t|
      ensures Keys(t)[i] != subs[0].stat
    {
      assert subs[i + 1] == t[i];
    }
  }

  /** Prepending an entry with a fresh key adds exactly that entry's worth. */
  lemma LinearCons(x: Roll, t: seq<Roll>, desired: Stat)
    requires x.stat !in Keys(t)
    ensures Linear([x] + t, desired) == Linear(t, desired) + Worth(x, desired)
  {
    assert Val(t, x.stat) == 0.0;
    ValCons(x, t, Cr);
    ValCons(x, t, Cd);
    ValCons(x, t, desired);
  }

  /** Summing the per-key reading over a dictionary's entries gives the weighted sum. */
  lemma {:induction false} LinearIsWeightedSum(subs: seq<Roll>, desired: Stat)
    requires DistinctKeys(subs)
    ensures Linear(subs, desired) == WeightedSum(subs, desired)
  {
    if |subs| > 0 {
      var x := subs[0];
      var t := subs[1..];
      assert subs == [x] + t;
      LinearIsWeightedSum(t, desired);
      HeadFresh(subs);
      LinearCons(x, t, desired);
    }
  }

  /** For a dictionary, the Python branches compute exactly the sum of the entries' worth. */
  lemma ScoreIsWeightedSum(subs: seq<Roll>, desired: Stat)
    requires DistinctKeys(subs)
    ensures SubsScore(subs, desired) == WeightedSum(subs, desired)
  {
    SubsScoreLinear(subs, desired);
    LinearIsWeightedSum(subs, desired);
  }

  /** In a dictionary an entry's value is what lookup returns for its key. */
  lemma ValOfEntry(subs: seq<Roll>, x: Roll)
    requires DistinctKeys(subs) && x in subs
    ensures Val(subs, x.stat) == x.value
  {
    var i :| 0 <= i < |subs| && subs[i] == x;
    ValAt(subs, i);
  }

  /** Two dictionaries holding the same entries agree on every key. */
  lemma ValSameEntries(s: seq<Roll>, t: seq<Roll>, k: Stat)
    requires DistinctKeys(s) && DistinctKeys(t)
    requires forall x :: x in s <==> x in t
    ensures Val(s, k) == Val(t, k)
  {
    match Lookup(s, k)
    case Some(v) =>
      ValOfEntry(t, Roll(k, v));
    case None =>
      match Lookup(t, k)
      case Some(w) =>
        ValOfEntry(s, Roll(k, w));
        assert false;
      case None =>
  }

  /**
   The score depends on the entries only, not on their insertion order:
   reordering a dictionary's entries leaves the score unchanged.
   */
  lemma ScoreOrderIndependent(a: Artifact, b: Artifact, desired: Stat)
    requires DistinctKeys(a.subs) && DistinctKeys(b.subs)
    requires multiset(a.subs) == multiset(b.subs)
    ensures Score(a, desired) == Score(b, desired)
  {
    SameMembers(a.subs, b.subs);
    ValSameEntries(a.subs, b.subs, Cr);
    ValSameEntries(a.subs, b.subs, Cd);
    ValSameEntries(a.subs, b.subs, desired);
    SubsScoreLinear(a.subs, desired);
    SubsScoreLinear(b.subs, desired);
    assert Linear(a.subs, desired) == Linear(b.subs, desired);
  }

  /** Replacing one entry changes the weighted sum by the difference of the two entries' worth. */
  lemma {:induction false} WeightedSumUpdate(subs: seq<Roll>, i: nat, y: Roll, desired: Stat)
    requires i < |subs|
    ensures WeightedSum(subs[i := y], desired) == WeightedSum(subs, desired) - Worth(subs[i], desired) + Worth(y, desired)
  {
    if i > 0 {
      assert subs[i := y][1..] == subs[1..][i - 1 := y];
      WeightedSumUpdate(subs[1..], i - 1, y, desired);
    }
  }

  lemma WorthAdds(k: Stat, v: real, delta: real, desired: Stat)
    ensures Worth(Roll(k, v + delta), desired) == Worth(Roll(k, v), desired) + Worth(Roll(k, delta), desired)
  {
  }

  /**
   One roll of `delta` on entry `i` changes the score by that entry's weight
   times `delta` (`Worth(Roll(k, delta))` is that product by `WorthIsWeight`).
   */
  lemma ScoreBump(a: Artifact, i: nat, delta: real, desired: Stat)
    requires DistinctKeys(a.subs) && i < |a.subs|
    ensures var b := a.(subs := a.subs[i := Roll(a.subs[i].stat, a.subs[i].value + delta)]);
            Score(b, desired) == Score(a, desired) + Worth(Roll(a.subs[i].stat, delta), desired)
  {
    var k := a.subs[i].stat;
    var y := Roll(k, a.subs[i].value + delta);
    var bs := a.subs[i := y];
    var gain := Worth(Roll(k, delta), desired);
    assert WeightedSum(bs, desired) == WeightedSum(a.subs, desired) + gain by {
      WeightedSumUpdate(a.subs, i, y, desired);
      assert a.subs[i] == Roll(k, a.subs[i].value);
      WorthAdds(k, a.subs[i].value, delta, desired);
    }
    assert DistinctKeys(bs);
    ScoreIsWeightedSum(a.subs, desired);
    ScoreIsWeightedSum(bs, desired);
  }

  /** Absent keys read 0 and present ones their (positive) value. */
  lemma ValNonNegative(subs: seq<Roll>, k: Stat)
    requires forall i :: 0 <= i < |subs| ==> subs[i].value > 0.0
    ensures Val(subs, k) >= 0.0
  {
    if Lookup(subs, k).Some? {
      var x := Roll(k, Lookup(subs, k).value);
      var i :| 0 <= i < |subs| && subs[i] == x;
    }
  }

  lemma ScoreNonNegative(a: Artifact, desired: Stat)
    requires Valid(a)
    ensures Score(a, desired) >= 0.0
  {
    SubsScoreLinear(a.subs, desired);
    ValNonNegative(a.subs, Cr);
    ValNonNegative(a.subs, Cd);
    ValNonNegative(a.subs, desired);
  }

  /** Under `Kept`, every key's value can only grow. */
  lemma KeptVal(before: seq<Roll>, after: seq<Roll>, k: Stat)
    requires DistinctKeys(before) && DistinctKeys(after) && Kept(before, after)
    requires forall i :: 0 <= i < |after| ==> after[i].value > 0.0
    ensures Val(after, k) >= Val(before, k)
  {
    ValNonNegative(after, k);
    if Lookup(before, k).Some? {
      var x := Roll(k, Lookup(before, k).value);
      var i :| 0 <= i < |before| && before[i] == x;
      ValAt(before, i);
      ValAt(after, i);
    }
  }

  /** Growing values in place and appending entries never lowers the score. */
  lemma KeptScoreMonotone(before: seq<Roll>, after: seq<Roll>, desired: Stat)
    requires DistinctKeys(before) && DistinctKeys(after) && Kept(before, after)
    requires forall i :: 0 <= i < |after| ==> after[i].value > 0.0
    ensures SubsScore(after, desired) >= SubsScore(before, desired)
  {
    KeptVal(before, after, Cr);
    KeptVal(before, after, Cd);
    KeptVal(before, after, desired);
    SubsScoreLinear(before, desired);
    SubsScoreLinear(after, desired);
  }

  /** Levelling up never lowers the score: rolls only add and existing entries keep their place. */
  lemma LevelUpNeverLowersScore(a: Artifact, levels: int, cs: seq<Growth>, desired: Stat)
    requires Valid(a) && a.level + levels >= 0
    requires |cs| >= GrowthEvents(a.level, levels)
    ensures Score(LevelUp(a, levels, cs), desired) >= Score(a, desired)
  {
    var r := LevelUp(a, levels, cs);
    KeptScoreMonotone(a.subs, r.subs, desired);
  }
}
