/**
 The attribute tables of an artifact: the five slot types, the stat names,
 the weighted main-stat table per slot, the four-entry roll range of every
 sub-stat, and the sub-stat chance tables keyed by main-stat name (with one
 shared table for every elemental-damage main stat).

 Weights and roll magnitudes are decimal literals in the game data and are
 kept exact as `real`.
 */
module Stats {

  import opened Seqs

  datatype Slot = Flower | Plume | Sands | Goblet | Circlet

  /** The canonical slot order; every per-slot sequence is indexed by it. */
  const Types: seq<Slot> := [Flower, Plume, Sands, Goblet, Circlet]

  const SlotCount: nat := 5

  function SlotName(t: Slot): string
  {
    match t
    case Flower => "Flower"
    case Plume => "Plume"
    case Sands => "Sands"
    case Goblet => "Goblet"
    case Circlet => "Circlet"
  }

  function SlotIndex(t: Slot): (i: nat)
    ensures i < SlotCount && Types[i] == t
  {
    match t
    case Flower => 0
    case Plume => 1
    case Sands => 2
    case Goblet => 3
    case Circlet => 4
  }

  /** The seven damage-bonus kinds a Goblet can roll as main stat. */
  datatype Element = Pyro | Electro | Cryo | Hydro | Anemo | Geo | Physical

  /** The three-letter prefix of an element's damage-bonus key. */
  function ElementCode(e: Element): string
  {
    match e
    case Pyro => "PYR"
    case Electro => "ELE"
    case Cryo => "CRY"
    case Hydro => "HYD"
    case Anemo => "ANE"
    case Geo => "GEO"
    case Physical => "PHY"
  }

  /** `Types` lists each slot once: `SlotIndex` inverts it. */
  lemma TypesIndex(t: nat)
    requires t < SlotCount
    ensures SlotIndex(Types[t]) == t
  {
  }

  datatype Stat =
    | Hp | Atk | Def | HpPct | AtkPct | DefPct | Em | Er | Cr | Cd | Hb
    | Dmg(element: Element)

  /** The stat's key in the game-data dictionaries. */
  function Name(s: Stat): string
  {
    match s
    case Hp => "HP"
    case Atk => "ATK"
    case Def => "DEF"
    case HpPct => "HP%"
    case AtkPct => "ATK%"
    case DefPct => "DEF%"
    case Em => "EM"
    case Er => "ER"
    case Cr => "CR"
    case Cd => "CD"
    case Hb => "HB"
    case Dmg(e) => ElementCode(e) + "_DMG"
  }

  predicate IsElementalDmg(s: Stat)
  {
    s.Dmg?
  }

  const MaxLevel: int := 20

  /** The main-stat table of a slot: main stat -> drop weight. */
  function ArtifactMainStats(slot: Slot): map<Stat, real>
  {
    match slot
    case Flower => map[Hp := 100.0]
    case Plume => map[Atk := 100.0]
    case Sands => map[HpPct := 26.68, AtkPct := 26.66, DefPct := 26.66, Er := 10.0, Em := 10.0]
    case Goblet => map[
      HpPct := 21.25, AtkPct := 21.25, DefPct := 20.0,
      Dmg(Pyro) := 5.0, Dmg(Electro) := 5.0, Dmg(Cryo) := 5.0, Dmg(Hydro) := 5.0,
      Dmg(Anemo) := 5.0, Dmg(Geo) := 5.0, Dmg(Physical) := 5.0, Em := 2.5]
    case Circlet => map[HpPct := 22.0, AtkPct := 22.0, DefPct := 22.0, Cr := 10.0, Cd := 10.0, Hb := 10.0, Em := 4.0]
  }

  /**
   The main stats a slot can roll, as a plain case split (`MainStatTable`
   shows these are exactly the positive-weight keys of `ArtifactMainStats`).
   */
  predicate CanBeMain(slot: Slot, main: Stat)
  {
    match slot
    case Flower => main.Hp?
    case Plume => main.Atk?
    case Sands => main.HpPct? || main.AtkPct? || main.DefPct? || main.Er? || main.Em?
    case Goblet => main.HpPct? || main.AtkPct? || main.DefPct? || main.Em? || main.Dmg?
    case Circlet => main.HpPct? || main.AtkPct? || main.DefPct? || main.Cr? || main.Cd? || main.Hb? || main.Em?
  }

  /** The ten stats that can appear as sub-stats, in the tables' key order. */
  const SubStatOrder: seq<Stat> := [Hp, Atk, Def, HpPct, AtkPct, DefPct, Er, Em, Cr, Cd]

  /** The key of a sub-stat chance table: a main stat's own name, or the shared "ELEM_DMG". */
  datatype TableKey = Named(main: Stat) | ElemDmg

  /** One chance table per key of the game data. */
  const HpChance: map<Stat, real> :=
    map[Hp := 0.0, Atk := 15.79, Def := 15.79, HpPct := 10.53, AtkPct := 10.53, DefPct := 10.53, Er := 10.53, Em := 10.53, Cr := 7.89, Cd := 7.89]
  const AtkChance: map<Stat, real> :=
    map[Hp := 15.79, Atk := 0.0, Def := 15.79, HpPct := 10.53, AtkPct := 10.53, DefPct := 10.53, Er := 10.53, Em := 10.53, Cr := 7.89, Cd := 7.89]
  const HpPctChance: map<Stat, real> :=
    map[Hp := 15.0, Atk := 15.0, Def := 15.0, HpPct := 0.0, AtkPct := 10.0, DefPct := 10.0, Er := 10.0, Em := 10.0, Cr := 7.5, Cd := 7.5]
  const AtkPctChance: map<Stat, real> :=
    map[Hp := 15.0, Atk := 15.0, Def := 15.0, HpPct := 10.0, AtkPct := 0.0, DefPct := 10.0, Er := 10.0, Em := 10.0, Cr := 7.5, Cd := 7.5]
  const DefPctChance: map<Stat, real> :=
    map[Hp := 15.0, Atk := 15.0, Def := 15.0, HpPct := 10.0, AtkPct := 10.0, DefPct := 0.0, Er := 10.0, Em := 10.0, Cr := 7.5, Cd := 7.5]
  const ElemDmgChance: map<Stat, real> :=
    map[Hp := 13.64, Atk := 13.64, Def := 13.64, HpPct := 9.09, AtkPct := 9.09, DefPct := 9.09, Er := 9.09, Em := 9.09, Cr := 6.82, Cd := 6.82]
  const ErChance: map<Stat, real> :=
    map[Hp := 15.0, Atk := 15.0, Def := 15.0, HpPct := 10.0, AtkPct := 10.0, DefPct := 10.0, Er := 0.0, Em := 10.0, Cr := 7.5, Cd := 7.5]
  const CrChance: map<Stat, real> :=
    map[Hp := 14.63, Atk := 14.63, Def := 14.63, HpPct := 9.76, AtkPct := 9.76, DefPct := 9.76, Er := 9.76, Em := 9.76, Cr := 0.0, Cd := 7.32]
  const CdChance: map<Stat, real> :=
    map[Hp := 14.63, Atk := 14.63, Def := 14.63, HpPct := 9.76, AtkPct := 9.76, DefPct := 9.76, Er := 9.76, Em := 9.76, Cr := 7.32, Cd := 0.0]
  const EmChance: map<Stat, real> :=
    map[Hp := 15.0, Atk := 15.0, Def := 15.0, HpPct := 10.0, AtkPct := 10.0, DefPct := 10.0, Er := 10.0, Em := 0.0, Cr := 7.5, Cd := 7.5]
  const HbChance: map<Stat, real> :=
    map[Hp := 13.64, Atk := 13.64, Def := 13.64, HpPct := 9.09, AtkPct := 9.09, DefPct := 9.09, Er := 9.09, Em := 9.09, Cr := 6.82, Cd := 6.82]

  /**
   Sub-stat chance tables by key: sub-stat -> weight. `None` for a key the
   tables do not list (DEF, and the damage bonuses under their own names).
   */
  function SubStatsChance(key: TableKey): Option<map<Stat, real>>
  {
    match key
    case ElemDmg => Some(ElemDmgChance)
    case Named(m) =>
      match m
      case Hp => Some(HpChance)
      case Atk => Some(AtkChance)
      case HpPct => Some(HpPctChance)
      case AtkPct => Some(AtkPctChance)
      case DefPct => Some(DefPctChance)
      case Er => Some(ErChance)
      case Cr => Some(CrChance)
      case Cd => Some(CdChance)
      case Em => Some(EmChance)
      case Hb => Some(HbChance)
      case _ => None
  }

  /** Python's `name[-3:]`: the last three characters, or the whole string when shorter. */
  function Last3(name: string): string
  {
    if |name| >= 3 then name[|name| - 3..] else name
  }

  /** The chance-table key used for a main stat: "ELEM_DMG" for names ending in "DMG". */
  function ChanceKey(main: Stat): (key: TableKey)
    ensures key == ElemDmg <==> IsElementalDmg(main)
    ensures !IsElementalDmg(main) ==> key == Named(main)
  {
    DmgSuffix(main);
    if Last3(Name(main)) == "DMG" then ElemDmg else Named(main)
  }

  /** `name[-3:] == "DMG"`, character by character. */
  predicate EndsInDmg(name: string)
  {
    |name| >= 3 && name[|name| - 3] == 'D' && name[|name| - 2] == 'M' && name[|name| - 1] == 'G'
  }

  lemma Last3Dmg(name: string)
    ensures Last3(name) == "DMG" <==> EndsInDmg(name)
  {
  }

  /** Every damage bonus is named by a three-letter element code and "_DMG". */
  lemma DmgNameShape(e: Element)
    ensures EndsInDmg(Name(Dmg(e)))
  {
    var code := ElementCode(e);
    assert |code| == 3;
    var n := code + "_DMG";
    assert n[4] == 'D' && n[5] == 'M' && n[6] == 'G';
  }

  /** No other stat's name ends in 'G'. */
  lemma OtherNameShape(s: Stat)
    requires !s.Dmg?
    ensures !EndsInDmg(Name(s))
  {
    match s
    case Hp =>
    case Atk =>
    case Def =>
    case HpPct =>
    case AtkPct =>
    case DefPct =>
    case Em =>
    case Er =>
    case Cr =>
    case Cd =>
    case Hb =>
  }

  /** A stat's name ends in "DMG" exactly when it is an elemental or physical damage bonus. */
  lemma DmgSuffix(s: Stat)
    ensures Last3(Name(s)) == "DMG" <==> IsElementalDmg(s)
  {
    Last3Dmg(Name(s));
    if s.Dmg? {
      DmgNameShape(s.element);
    } else {
      OtherNameShape(s);
    }
  }

  /** The weight the chance table of `main` gives to sub-stat `s` (0 when absent). */
  function ChanceWeight(main: Stat, s: Stat): real
  {
    match SubStatsChance(ChanceKey(main))
    case Some(table) => if s in table then table[s] else 0.0
    case None => 0.0
  }

  /** A weighted draw with positive weight for `main` and `slot`'s table. */
  predicate IsMainStatOf(slot: Slot, main: Stat)
  {
    main in ArtifactMainStats(slot) && ArtifactMainStats(slot)[main] > 0.0
  }

  /** The stats that can roll as sub-stats: the keys of the roll-range table. */
  predicate IsSubStat(s: Stat)
  {
    s.Hp? || s.Atk? || s.Def? || s.HpPct? || s.AtkPct? || s.DefPct? || s.Em? || s.Er? || s.Cr? || s.Cd?
  }

  /** The smallest magnitude any roll adds (the lowest CR roll). */
  const MinRoll: real := 2.72

  /** The four magnitudes one roll of a sub-stat can add. */
  function RollRange(s: Stat): (r: seq<real>)
    requires IsSubStat(s)
    ensures |r| == 4
    ensures forall i :: 0 <= i < 4 ==> r[i] >= MinRoll
    ensures forall i, j :: 0 <= i < j < 4 ==> r[i] < r[j]
  {
    match s
    case Hp => [209.13, 239.0, 268.88, 298.75]
    case Atk => [13.62, 15.56, 17.51, 19.45]
    case Def => [16.20, 18.52, 20.83, 23.15]
    case HpPct => [4.08, 4.66, 5.25, 5.83]
    case AtkPct => [4.08, 4.66, 5.25, 5.83]
    case DefPct => [5.10, 5.83, 6.56, 7.29]
    case Em => [16.32, 18.65, 20.98, 23.31]
    case Er => [4.53, 5.18, 5.83, 6.48]
    case Cr => [2.72, 3.11, 3.50, 3.89]
    case Cd => [5.44, 6.22, 6.99, 7.77]
  }

  /** Every main stat of every slot has a chance table. */
  lemma ChanceTableExists(slot: Slot, main: Stat)
    requires CanBeMain(slot, main)
    ensures SubStatsChance(ChanceKey(main)).Some?
  {
    match main
    case Def => assert false;
    case _ =>
  }

  /**
   The positive-weight draws of a main stat's chance table are exactly the ten
   sub-stats other than the main stat itself: the table gives the main stat
   weight 0 (or does not list it), so a draw never duplicates the main stat.
   */
  lemma ChanceSupport(slot: Slot, main: Stat, s: Stat)
    requires CanBeMain(slot, main)
    ensures ChanceWeight(main, s) > 0.0 <==> IsSubStat(s) && s != main
    ensures ChanceWeight(main, main) == 0.0
  {
    assert main != Def by {
      match slot
      case Flower =>
      case Plume =>
      case Sands =>
      case Goblet =>
      case Circlet =>
    }
    ChanceSupportOf(main, s);
    ChanceSupportOf(main, main);
  }

  /**
   Whatever the main stat, a draw with positive weight is one of the ten
   sub-stats and differs from the main stat (DEF has no table at all).
   */
  lemma PositiveWeightIsSubStat(main: Stat, s: Stat)
    requires ChanceWeight(main, s) > 0.0
    ensures IsSubStat(s) && s != main
  {
    if main != Def {
      ChanceSupportOf(main, s);
    }
  }

  /** The chance table of every stat except DEF, which is no slot's main stat. */
  lemma ChanceSupportOf(main: Stat, s: Stat)
    requires main != Def
    ensures ChanceWeight(main, s) > 0.0 <==> IsSubStat(s) && s != main
    ensures ChanceWeight(main, s) >= 0.0
  {
    if IsElementalDmg(main) {
      ElemDmgChanceSupport(main);
      SupportFromTable(main, s, ElemDmgChance);
    } else {
      assert ChanceKey(main) == Named(main);
      match main
      case Hp => HpChanceSupport(); SupportFromTable(main, s, HpChance);
      case Atk => AtkChanceSupport(); SupportFromTable(main, s, AtkChance);
      case HpPct => HpPctChanceSupport(); SupportFromTable(main, s, HpPctChance);
      case AtkPct => AtkPctChanceSupport(); SupportFromTable(main, s, AtkPctChance);
      case DefPct => DefPctChanceSupport(); SupportFromTable(main, s, DefPctChance);
      case Er => ErChanceSupport(); SupportFromTable(main, s, ErChance);
      case Cr => CrChanceSupport(); SupportFromTable(main, s, CrChance);
      case Cd => CdChanceSupport(); SupportFromTable(main, s, CdChance);
      case Em => EmChanceSupport(); SupportFromTable(main, s, EmChance);
      case Hb => HbChanceSupport(); SupportFromTable(main, s, HbChance);
    }
  }

  lemma SupportFromTable(main: Stat, s: Stat, t: map<Stat, real>)
    requires SubStatsChance(ChanceKey(main)) == Some(t)
    requires PositiveExactlyOn(t, main)
    ensures ChanceWeight(main, s) > 0.0 <==> IsSubStat(s) && s != main
    ensures ChanceWeight(main, s) >= 0.0
  {
  }

  /** A chance table gives non-negative weights, positive exactly to the sub-stats other than `main`. */
  ghost predicate PositiveExactlyOn(t: map<Stat, real>, main: Stat)
  {
    forall s :: (s in t ==> t[s] >= 0.0) && ((s in t && t[s] > 0.0) <==> IsSubStat(s) && s != main)
  }

  lemma HpChanceSupport()
    ensures PositiveExactlyOn(HpChance, Hp)
  {
  }

  lemma AtkChanceSupport()
    ensures PositiveExactlyOn(AtkChance, Atk)
  {
  }

  lemma HpPctChanceSupport()
    ensures PositiveExactlyOn(HpPctChance, HpPct)
  {
  }

  lemma AtkPctChanceSupport()
    ensures PositiveExactlyOn(AtkPctChance, AtkPct)
  {
  }

  lemma DefPctChanceSupport()
    ensures PositiveExactlyOn(DefPctChance, DefPct)
  {
  }

  lemma ErChanceSupport()
    ensures PositiveExactlyOn(ErChance, Er)
  {
  }

  lemma CrChanceSupport()
    ensures PositiveExactlyOn(CrChance, Cr)
  {
  }

  lemma CdChanceSupport()
    ensures PositiveExactlyOn(CdChance, Cd)
  {
  }

  lemma EmChanceSupport()
    ensures PositiveExactlyOn(EmChance, Em)
  {
  }

  lemma ElemDmgChanceSupport(main: Stat)
    requires !IsSubStat(main)
    ensures PositiveExactlyOn(ElemDmgChance, main)
  {
  }

  lemma HbChanceSupport()
    ensures PositiveExactlyOn(HbChance, Hb)
  {
  }

  /** `CanBeMain` lists exactly the positive-weight entries of each slot's main-stat table. */
  lemma MainStatTable(slot: Slot, main: Stat)
    ensures IsMainStatOf(slot, main) <==> CanBeMain(slot, main)
  {
    match slot
    case Flower =>
    case Plume =>
    case Sands =>
    case Goblet => GobletTable(main);
    case Circlet =>
  }

  lemma GobletTable(main: Stat)
    ensures IsMainStatOf(Goblet, main) <==> CanBeMain(Goblet, main)
  {
    if main.Dmg? {
      match main.element
      case Pyro =>
      case Electro =>
      case Cryo =>
      case Hydro =>
      case Anemo =>
      case Geo =>
      case Physical =>
    }
  }

  /** Flower always rolls HP and Plume always rolls ATK as main stat. */
  lemma FixedMainStats(slot: Slot, main: Stat)
    requires IsMainStatOf(slot, main)
    ensures slot == Flower ==> main == Hp
    ensures slot == Plume ==> main == Atk
  {
  }

  lemma SubStatOrderCoversSubStats(s: Stat)
    ensures s in SubStatOrder <==> IsSubStat(s)
  {
  }
}
