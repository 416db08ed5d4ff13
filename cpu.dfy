/**
 * The computer opponent (src/cpu.js): a profile of weights per difficulty, the
 * target category chosen after each roll, the dice held to chase it, the
 * category finally filled, and one whole computer turn.
 */
module Cpu {
  import opened Wrappers
  import opened Scoring
  import opened Game

  /** The five weights of a difficulty. */
  datatype Profile = Profile(risk: real, zeroHate: real, upperBias: real, highRoleBias: real, straightBias: real)

  const Easy: Profile := Profile(0.2, 2.5, 1.5, 0.8, 0.7)
  const Normal: Profile := Profile(0.5, 1.8, 1.0, 1.0, 1.0)
  const Hard: Profile := Profile(0.85, 1.2, 0.85, 1.25, 1.35)
  const Expert: Profile := Profile(1.0, 0.9, 0.65, 1.45, 1.25)
  const Secret: Profile := Profile(1.1, 0.8, 0.55, 1.55, 1.25)

  /** The profiles of the MODE table. */
  predicate TableProfile(p: Profile) {
    p == Easy || p == Normal || p == Hard || p == Expert || p == Secret
  }

  /** `cfg`: the profile of a mode name, `normal` for any unknown name. */
  function Cfg(mode: string): (p: Profile)
    ensures TableProfile(p)
    ensures mode !in {"easy", "normal", "hard", "expert", "secret"} ==> p == Normal
    ensures p == Easy <==> mode == "easy"
    ensures p == Hard <==> mode == "hard"
    ensures p == Expert <==> mode == "expert"
    ensures p == Secret <==> mode == "secret"
    ensures p == Normal <==> mode !in {"easy", "hard", "expert", "secret"}
  {
    if mode == "easy" then Easy
    else if mode == "hard" then Hard
    else if mode == "expert" then Expert
    else if mode == "secret" then Secret
    else Normal
  }

  // ---------------------------------------------------------------------------
  // The `if (v > bestValue)` scans
  // ---------------------------------------------------------------------------

  /**
   * The state `(index, value)` a left-to-right scan `if (s[k] > value) { value := s[k]; index := k }`
   * ends in, started from index 0 and value `floor`: the first strict maximum
   * above the floor, or index 0 when nothing beats the floor.
   */
  function Best(s: seq<real>, floor: real): (r: (nat, real))
    ensures r.1 >= floor
    ensures forall j :: 0 <= j < |s| ==> s[j] <= r.1
    ensures r.1 == floor ==> r.0 == 0
    ensures r.1 > floor ==> r.0 < |s| && s[r.0] == r.1 && forall j :: 0 <= j < r.0 ==> s[j] < r.1
    decreases |s|
  {
    if |s| == 0 then (0, floor)
    else
      var b := Best(s[..|s| - 1], floor);
      if s[|s| - 1] > b.1 then (|s| - 1, s[|s| - 1]) else b
  }

  /** One more step of the scan: entry `k` is taken exactly when it beats the best so far. */
  lemma BestStep(s: seq<real>, floor: real, k: nat)
    requires k < |s|
    ensures Best(s[..k + 1], floor) == (if s[k] > Best(s[..k], floor).1 then (k, s[k]) else Best(s[..k], floor))
  {
    assert s[..k + 1][..k] == s[..k];
  }

  // ---------------------------------------------------------------------------
  // chooseTargetCategory
  // ---------------------------------------------------------------------------

  /** The chase order of the profiles that like high hands. */
  const PrefHigh: seq<Category> := [Yahtzee, LargeStraight, FullHouse, FourKind, Choice]

  /** The chase order of the profiles that like the upper section. */
  const PrefSafe: seq<Category> := [Six, Five, Four, Three, Two, A, Choice, FourKind, FullHouse]

  /** `arr.find(c => avCats.includes(c))`: the first entry of `pref` that is still open. */
  function FirstIn(pref: seq<Category>, av: seq<Category>): (r: Option<Category>)
    ensures r.None? <==> forall k :: 0 <= k < |pref| ==> pref[k] !in av
    ensures r.Some? ==> exists k :: 0 <= k < |pref| && pref[k] == r.value && r.value in av
                                    && forall j :: 0 <= j < k ==> pref[j] !in av
  {
    if |pref| == 0 then None
    else if pref[0] in av then Some(pref[0])
    else
      var r := FirstIn(pref[1..], av);
      assert forall k :: 1 <= k < |pref| ==> pref[k] == pref[1..][k - 1];
      if r.Some? then
        var k :| 0 <= k < |pref[1..]| && pref[1..][k] == r.value && r.value in av
                 && forall j :: 0 <= j < k ==> pref[1..][j] !in av;
        assert pref[k + 1] == r.value;
        r
      else r
  }

  /** `found ?? avCats[0]`. */
  function OrFirst(found: Option<Category>, av: seq<Category>): Option<Category> {
    if found.Some? then found else if |av| == 0 then None else Some(av[0])
  }

  /** The current points of each open category, as the fallback scan sees them. */
  function ScoresOf(av: seq<Category>, dice: seq<int>): (s: seq<real>)
    ensures |s| == |av|
  {
    seq(|av|, k requires 0 <= k < |av| => Score(dice, av[k]) as real)
  }

  /** The run of the roll already in hand that the target keeps, when one is open. */
  predicate MadeHand(av: seq<Category>, dice: seq<int>) {
    (Yahtzee in av && Score(dice, Yahtzee) == 50)
    || (LargeStraight in av && IsLargeStraight(dice))
    || (SmallStraight in av && IsSmallStraight(dice))
  }

  /** `chooseTargetCategory`; `None` where the source returns `undefined` (nothing open). */
  function Target(av: seq<Category>, dice: seq<int>, p: Profile): (r: Option<Category>)
    ensures r.None? <==> |av| == 0
    ensures r.Some? ==> r.value in av
  {
    if Yahtzee in av && Score(dice, Yahtzee) == 50 then Some(Yahtzee)
    else if LargeStraight in av && IsLargeStraight(dice) then Some(LargeStraight)
    else if SmallStraight in av && IsSmallStraight(dice) then Some(SmallStraight)
    else if p.straightBias >= 1.3 && LargeStraight in av then Some(LargeStraight)
    else if p.straightBias >= 1.3 && SmallStraight in av then Some(SmallStraight)
    else if p.highRoleBias >= 1.2 then OrFirst(FirstIn(PrefHigh, av), av)
    else if p.upperBias >= 1.2 then OrFirst(FirstIn(PrefSafe, av), av)
    else if |av| == 0 then None
    else Some(av[Best(ScoresOf(av, dice), -1.0).0])
  }

  /** `chooseTargetCategory`, with its fallback loop over the open categories. */
  method ChooseTargetCategory(av: seq<Category>, dice: seq<int>, p: Profile) returns (target: Option<Category>)
    ensures target == Target(av, dice, p)
  {
    if Yahtzee in av && Score(dice, Yahtzee) == 50 { return Some(Yahtzee); }
    if LargeStraight in av && IsLargeStraight(dice) { return Some(LargeStraight); }
    if SmallStraight in av && IsSmallStraight(dice) { return Some(SmallStraight); }
    if p.straightBias >= 1.3 {
      if LargeStraight in av { return Some(LargeStraight); }
      if SmallStraight in av { return Some(SmallStraight); }
    }
    if p.highRoleBias >= 1.2 { return OrFirst(FirstIn(PrefHigh, av), av); }
    if p.upperBias >= 1.2 { return OrFirst(FirstIn(PrefSafe, av), av); }
    if |av| == 0 { return None; }
    ghost var scores := ScoresOf(av, dice);
    var best := 0;
    var bestScore := -1.0;
    for k := 0 to |av|
      invariant (best, bestScore) == Best(scores[..k], -1.0)
    {
      BestStep(scores, -1.0, k);
      var s := Score(dice, av[k]) as real;
      if s > bestScore {
        bestScore := s;
        best := k;
      }
    }
    assert scores[..|av|] == scores;
    target := Some(av[best]);
  }

  /** A Yahtzee in hand with its category open is always the target. */
  lemma TargetKeepsYahtzee(av: seq<Category>, dice: seq<int>, p: Profile)
    requires ValidDice(dice) && Yahtzee in av && forall i :: 0 <= i < 5 ==> dice[i] == dice[0]
    ensures Target(av, dice, p) == Some(Yahtzee)
  {
    YahtzeeScore(dice);
  }

  /** A straight in hand with its category open is the target unless a Yahtzee is. */
  lemma TargetKeepsStraight(av: seq<Category>, dice: seq<int>, p: Profile)
    requires Score(dice, Yahtzee) != 50 || Yahtzee !in av
    ensures LargeStraight in av && IsLargeStraight(dice) ==> Target(av, dice, p) == Some(LargeStraight)
    ensures (LargeStraight !in av || !IsLargeStraight(dice)) && SmallStraight in av && IsSmallStraight(dice) ==>
              Target(av, dice, p) == Some(SmallStraight)
  {
  }

  /** The hard profile chases an open straight whenever no hand is made. */
  lemma HardChasesStraights(av: seq<Category>, dice: seq<int>)
    requires !MadeHand(av, dice)
    ensures LargeStraight in av ==> Target(av, dice, Hard) == Some(LargeStraight)
    ensures LargeStraight !in av && SmallStraight in av ==> Target(av, dice, Hard) == Some(SmallStraight)
  {
  }

  /** The expert and secret profiles chase the first open high hand, else the first open category. */
  lemma ExpertChasesHighHands(av: seq<Category>, dice: seq<int>, p: Profile)
    requires p == Expert || p == Secret
    requires !MadeHand(av, dice)
    ensures Target(av, dice, p) == OrFirst(FirstIn(PrefHigh, av), av)
  {
  }

  /** The easy profile chases the open upper category with the highest face first. */
  lemma EasyChasesUpper(av: seq<Category>, dice: seq<int>)
    requires !MadeHand(av, dice)
    ensures Six in av ==> Target(av, dice, Easy) == Some(Six)
    ensures Six !in av && Five in av ==> Target(av, dice, Easy) == Some(Five)
  {
    assert PrefSafe[0] == Six && PrefSafe[1..][0] == Five;
    if Six !in av {
      assert FirstIn(PrefSafe, av) == FirstIn(PrefSafe[1..], av);
    }
  }

  /**
   * The normal profile, with no hand made, targets an open category that pays
   * the most right now, the first in CATS order among equals.
   */
  lemma NormalTargetsBestNow(av: seq<Category>, dice: seq<int>)
    requires ValidDice(dice) && |av| > 0 && !MadeHand(av, dice)
    ensures Target(av, dice, Normal).Some?
    ensures var c := Target(av, dice, Normal).value;
      exists k :: 0 <= k < |av| && av[k] == c
        && (forall j :: 0 <= j < |av| ==> Score(dice, av[j]) <= Score(dice, c))
        && (forall j :: 0 <= j < k ==> Score(dice, av[j]) < Score(dice, c))
  {
    var s := ScoresOf(av, dice);
    var b := Best(s, -1.0);
    assert s[0] >= 0.0;
    assert b.1 > -1.0;
    var c := av[b.0];
    assert Target(av, dice, Normal) == Some(c);
    assert forall j :: 0 <= j < |av| ==> s[j] == Score(dice, av[j]) as real;
    assert forall j :: 0 <= j < |av| ==> Score(dice, av[j]) <= Score(dice, c);
    assert forall j :: 0 <= j < b.0 ==> Score(dice, av[j]) < Score(dice, c);
  }

  // ---------------------------------------------------------------------------
  // applyHoldStrategy
  // ---------------------------------------------------------------------------

  /** How often each face of the count map occurs, in Map order. */
  function CountReals(dice: seq<int>): (s: seq<real>)
    ensures |s| == |Distinct(dice)|
  {
    var u := Distinct(dice);
    seq(|u|, k requires 0 <= k < |u| => Occurrences(dice, u[k]) as real)
  }

  lemma CountRealsAboveFloor(dice: seq<int>)
    ensures forall k :: 0 <= k < |Distinct(dice)| ==> CountReals(dice)[k] >= 1.0
  {
    var u := Distinct(dice);
    forall k | 0 <= k < |u|
      ensures CountReals(dice)[k] >= 1.0
    {
      OccurrencesPositive(dice, u[k]);
    }
  }

  /** Position in Map order of `entries[0]` after the stable sort by count, descending. */
  function MostIndex(dice: seq<int>): (m: nat)
    requires |dice| > 0
    ensures m < |Distinct(dice)|
  {
    assert dice[0] in Distinct(dice);
    CountRealsAboveFloor(dice);
    Best(CountReals(dice), -1.0).0
  }

  /** `entries[0][0]`: the face the sorted Map entries start with. */
  function Most(dice: seq<int>): (m: int)
    requires |dice| > 0
    ensures m in dice
  {
    Distinct(dice)[MostIndex(dice)]
  }

  /**
   * The face `Most` picks occurs most often, and among the faces occurring
   * that often it is the one that appears first.
   */
  lemma MostIsMostFrequent(dice: seq<int>)
    requires |dice| > 0
    ensures forall v :: v in dice ==> Occurrences(dice, v) <= Occurrences(dice, Most(dice))
    ensures forall v :: v in dice && Occurrences(dice, v) == Occurrences(dice, Most(dice)) ==>
              FirstIndex(dice, Most(dice)) <= FirstIndex(dice, v)
  {
    var u := Distinct(dice);
    var s := CountReals(dice);
    var m := MostIndex(dice);
    FirstMaxOfCounts(dice, s, Best(s, -1.0), m);
    forall v | v in dice
      ensures Occurrences(dice, v) <= Occurrences(dice, u[m])
      ensures Occurrences(dice, v) == Occurrences(dice, u[m]) ==> FirstIndex(dice, u[m]) <= FirstIndex(dice, v)
    {
      var k :| 0 <= k < |u| && u[k] == v;
      assert s[k] == Occurrences(dice, v) as real;
      FirstMaxStep(dice, s, m, k, -1);
    }
  }

  /**
   * What the scan over the counts says about its result `b`: `m` (its index) is a
   * maximal entry and earlier entries are smaller.
   */
  lemma FirstMaxOfCounts(dice: seq<int>, s: seq<real>, b: (nat, real), m: nat)
    requires |s| == |Distinct(dice)| && m < |s| && b == Best(s, -1.0) && b.0 == m
    requires exists k :: 0 <= k < |s| && s[k] >= 0.0
    ensures s[m] == b.1
    ensures forall j :: 0 <= j < |s| ==> s[j] <= s[m]
    ensures forall j :: 0 <= j < m ==> s[j] < s[m]
  {
  }

  /** One face `u[k]` against the chosen entry `u[m]` of the scan over counts `s`. */
  lemma FirstMaxStep(dice: seq<int>, s: seq<real>, m: nat, k: nat, skip: int)
    requires |s| == |Distinct(dice)| && m < |s| && k < |s| && k != skip
    requires forall j :: 0 <= j < |s| && j != skip ==> s[j] == Occurrences(dice, Distinct(dice)[j]) as real
    requires m != skip
    requires forall j :: 0 <= j < |s| ==> s[j] <= s[m]
    requires forall j :: 0 <= j < m ==> s[j] < s[m]
    ensures Occurrences(dice, Distinct(dice)[k]) <= Occurrences(dice, Distinct(dice)[m])
    ensures Occurrences(dice, Distinct(dice)[k]) == Occurrences(dice, Distinct(dice)[m]) ==>
              FirstIndex(dice, Distinct(dice)[m]) <= FirstIndex(dice, Distinct(dice)[k])
  {
    DistinctOrder(dice);
  }

  /** The counts with entry `m` pushed down to 0, below every real count. */
  function CountRealsWithout(dice: seq<int>, m: nat): (s: seq<real>)
    ensures |s| == |Distinct(dice)|
  {
    var c := CountReals(dice);
    seq(|c|, k requires 0 <= k < |c| => if k == m then 0.0 else c[k])
  }

  /** Position in Map order of `entries[1]` after the stable sort. */
  function SecondIndex(dice: seq<int>): (k: nat)
    requires |Distinct(dice)| >= 2
    ensures k < |Distinct(dice)| && k != MostIndex(dice)
  {
    var u := Distinct(dice);
    assert u[0] in dice;
    var m := MostIndex(dice);
    var cs := CountRealsWithout(dice, m);
    CountRealsAboveFloor(dice);
    var other := if m == 0 then 1 else 0;
    assert cs[other] >= 1.0;
    Best(cs, -1.0).0
  }

  /** `entries[1][0]`: the face the sorted Map entries continue with. */
  function Second(dice: seq<int>): (s: int)
    requires |Distinct(dice)| >= 2
    ensures s in dice && s != Most(dice)
  {
    Distinct(dice)[SecondIndex(dice)]
  }

  /**
   * The face `Second` picks occurs most often among the faces other than
   * `Most`, and among those occurring that often it appears first.
   */
  lemma SecondIsNextMostFrequent(dice: seq<int>)
    requires |Distinct(dice)| >= 2
    ensures forall v :: v in dice && v != Most(dice) ==> Occurrences(dice, v) <= Occurrences(dice, Second(dice))
    ensures forall v :: v in dice && v != Most(dice) && Occurrences(dice, v) == Occurrences(dice, Second(dice)) ==>
              FirstIndex(dice, Second(dice)) <= FirstIndex(dice, v)
  {
    var u := Distinct(dice);
    var m := MostIndex(dice);
    var cs := CountRealsWithout(dice, m);
    var k2 := SecondIndex(dice);
    FirstMaxOfCounts(dice, cs, Best(cs, -1.0), k2);
    forall v | v in dice && v != u[m]
      ensures Occurrences(dice, v) <= Occurrences(dice, u[k2])
      ensures Occurrences(dice, v) == Occurrences(dice, u[k2]) ==> FirstIndex(dice, u[k2]) <= FirstIndex(dice, v)
    {
      var k :| 0 <= k < |u| && u[k] == v;
      FirstMaxStep(dice, cs, k2, k, m);
    }
  }

  /** The runs a straight target compares (`needSets`). */
  function NeedSets(target: Category): seq<seq<int>> {
    if target == LargeStraight then [[1, 2, 3, 4, 5], [2, 3, 4, 5, 6]]
    else [[1, 2, 3, 4], [2, 3, 4, 5], [3, 4, 5, 6]]
  }

  /** `ns.filter(x => set.has(x)).length`. */
  function HitCount(ns: seq<int>, faces: set<int>): (n: nat)
    ensures n <= |ns|
    decreases |ns|
  {
    if |ns| == 0 then 0
    else HitCount(ns[..|ns| - 1], faces) + (if ns[|ns| - 1] in faces then 1 else 0)
  }

  function HitReals(sets: seq<seq<int>>, faces: set<int>): (s: seq<real>)
    ensures |s| == |sets|
    ensures forall k :: 0 <= k < |sets| ==> s[k] == HitCount(sets[k], faces) as real
  {
    seq(|sets|, k requires 0 <= k < |sets| => HitCount(sets[k], faces) as real)
  }

  /** Position of `bestNeed`: the run with the most faces already in hand, the first among equals. */
  function BestNeedIndex(dice: seq<int>, target: Category): (k: nat)
    ensures k < |NeedSets(target)|
    ensures forall j :: 0 <= j < |NeedSets(target)| ==>
      HitCount(NeedSets(target)[j], FaceSet(dice)) <= HitCount(NeedSets(target)[k], FaceSet(dice))
    ensures forall j :: 0 <= j < k ==>
      HitCount(NeedSets(target)[j], FaceSet(dice)) < HitCount(NeedSets(target)[k], FaceSet(dice))
  {
    var sets := NeedSets(target);
    var f := FaceSet(dice);
    var hs := HitReals(sets, f);
    assert forall j :: 0 <= j < |sets| ==> hs[j] == HitCount(sets[j], f) as real;
    assert hs[0] >= 0.0;
    Best(hs, -1.0).0
  }

  /** `bestNeed`. */
  function BestNeed(dice: seq<int>, target: Category): seq<int> {
    NeedSets(target)[BestNeedIndex(dice, target)]
  }

  predicate SameKindTarget(c: Category) {
    c == Yahtzee || c == FourKind || c == FullHouse
  }

  predicate StraightTarget(c: Category) {
    c == SmallStraight || c == LargeStraight
  }

  /** Hold flags for Yahtzee, four of a kind and full house: the most frequent face, and for a full house the second. */
  function SameKindMask(dice: seq<int>, c: Category): (h: seq<bool>)
    requires |dice| == 5
    ensures |h| == 5
  {
    seq(5, i requires 0 <= i < 5 =>
      dice[i] == Most(dice) || (c == FullHouse && |Distinct(dice)| >= 2 && dice[i] == Second(dice)))
  }

  /** Hold flags for a straight: every die on the best run. */
  function StraightMask(dice: seq<int>, c: Category): (h: seq<bool>)
    requires |dice| == 5
    ensures |h| == 5
  {
    var ns := BestNeed(dice, c);
    seq(5, i requires 0 <= i < 5 => dice[i] in ns)
  }

  /** Hold flags for the dice satisfying `dice[i] == face`. */
  function FaceMask(dice: seq<int>, face: int): (h: seq<bool>)
    requires |dice| == 5
    ensures |h| == 5
  {
    seq(5, i requires 0 <= i < 5 => dice[i] == face)
  }

  /** Hold flags for the dice satisfying `dice[i] >= low`. */
  function AtLeastMask(dice: seq<int>, low: int): (h: seq<bool>)
    requires |dice| == 5
    ensures |h| == 5
  {
    seq(5, i requires 0 <= i < 5 => dice[i] >= low)
  }

  /** The hold flags `applyHoldStrategy` sets for a target; every die starts unheld. */
  function HoldMask(dice: seq<int>, target: Option<Category>): (h: seq<bool>)
    requires |dice| == 5
    ensures |h| == 5
    ensures target.None? ==> forall i :: 0 <= i < 5 ==> !h[i]
    ensures target.Some? && IsUpper(target.value) ==>
      forall i :: 0 <= i < 5 ==> (h[i] <==> dice[i] == UpperFace(target.value))
    ensures target == Some(Choice) ==> forall i :: 0 <= i < 5 ==> (h[i] <==> dice[i] >= 4)
  {
    if target.None? then [false, false, false, false, false]
    else
      var c := target.value;
      if SameKindTarget(c) then SameKindMask(dice, c)
      else if StraightTarget(c) then StraightMask(dice, c)
      else if IsUpper(c) then FaceMask(dice, UpperFace(c))
      else AtLeastMask(dice, 4)
  }

  /** `applyHoldStrategy`: the same turn with the hold flags the target calls for. */
  method ApplyHoldStrategy(t: TurnState, target: Option<Category>) returns (next: TurnState)
    requires Shaped(t)
    ensures next == t.(held := HoldMask(t.dice, target))
  {
    var held := [false, false, false, false, false];
    if target.Some? {
      var c := target.value;
      if SameKindTarget(c) {
        held := HoldSameKindLoops(t.dice, c);
      } else if StraightTarget(c) {
        held := HoldStraightLoops(t.dice, c);
      } else if IsUpper(c) {
        held := HoldUpperLoop(t.dice, c);
      } else {
        held := HoldChoiceLoop(t.dice);
      }
    }
    next := t.(held := held);
  }

  /** The same-face branch: hold the most frequent face, and for a full house the second one too. */
  method HoldSameKindLoops(dice: seq<int>, c: Category) returns (held: seq<bool>)
    requires |dice| == 5 && SameKindTarget(c)
    ensures held == SameKindMask(dice, c)
  {
    held := [false, false, false, false, false];
    var most := Most(dice);
    held := HoldFace(dice, held, most);
    if c == FullHouse && |Distinct(dice)| >= 2 {
      var second := Second(dice);
      held := HoldFace(dice, held, second);
    }
    assert forall i :: 0 <= i < 5 ==> held[i] == SameKindMask(dice, c)[i];
  }

  /** One hold loop of the same-face branch: also hold every die showing `face`. */
  method HoldFace(dice: seq<int>, held: seq<bool>, face: int) returns (r: seq<bool>)
    requires |dice| == 5 && |held| == 5
    ensures |r| == 5 && forall j :: 0 <= j < 5 ==> r[j] == (held[j] || dice[j] == face)
  {
    r := held;
    for i := 0 to 5
      invariant |r| == 5
      invariant forall j :: 0 <= j < i ==> r[j] == (held[j] || dice[j] == face)
      invariant forall j :: i <= j < 5 ==> r[j] == held[j]
    {
      if dice[i] == face { r := r[i := true]; }
    }
  }

  /** The straight branch: pick the run with the most hits, then hold every die on it. */
  method HoldStraightLoops(dice: seq<int>, c: Category) returns (held: seq<bool>)
    requires |dice| == 5 && StraightTarget(c)
    ensures held == StraightMask(dice, c)
  {
    held := [false, false, false, false, false];
    var bestNeed := ChooseNeed(dice, c);
    for i := 0 to 5
      invariant |held| == 5
      invariant forall j :: 0 <= j < i ==> held[j] == (dice[j] in bestNeed)
      invariant forall j :: i <= j < 5 ==> !held[j]
    {
      if dice[i] in bestNeed { held := held[i := true]; }
    }
  }

  /** The scan over `needSets` keeping the first run with the most hits. */
  method ChooseNeed(dice: seq<int>, c: Category) returns (bestNeed: seq<int>)
    ensures bestNeed == BestNeed(dice, c)
  {
    var sets := NeedSets(c);
    var bestIndex := ScanHits(sets, FaceSet(dice));
    assert bestIndex == BestNeedIndex(dice, c);
    bestNeed := sets[bestIndex];
  }

  /** The loop of the scan over `needSets`: the first index with the most hits, strictly beating -1. */
  method ScanHits(sets: seq<seq<int>>, faces: set<int>) returns (bestIndex: nat)
    ensures bestIndex == Best(HitReals(sets, faces), -1.0).0
  {
    ghost var hs := HitReals(sets, faces);
    bestIndex := 0;
    var bestHit := -1.0;
    for k := 0 to |sets|
      invariant (bestIndex, bestHit) == Best(hs[..k], -1.0)
    {
      BestStep(hs, -1.0, k);
      var hit := HitCount(sets[k], faces) as real;
      if hit > bestHit {
        bestHit := hit;
        bestIndex := k;
      }
    }
    assert hs[..|sets|] == hs;
  }

  /** The upper branch: hold the dice showing the category's face. */
  method HoldUpperLoop(dice: seq<int>, c: Category) returns (held: seq<bool>)
    requires |dice| == 5 && IsUpper(c)
    ensures held == FaceMask(dice, UpperFace(c))
  {
    held := [false, false, false, false, false];
    var want := UpperFace(c);
    for i := 0 to 5
      invariant |held| == 5
      invariant forall j :: 0 <= j < i ==> held[j] == (dice[j] == want)
      invariant forall j :: i <= j < 5 ==> !held[j]
    {
      if dice[i] == want { held := held[i := true]; }
    }
  }

  /** The Choice branch: hold every die showing 4 or more. */
  method HoldChoiceLoop(dice: seq<int>) returns (held: seq<bool>)
    requires |dice| == 5
    ensures held == AtLeastMask(dice, 4)
  {
    held := [false, false, false, false, false];
    for i := 0 to 5
      invariant |held| == 5
      invariant forall j :: 0 <= j < i ==> held[j] == (dice[j] >= 4)
      invariant forall j :: i <= j < 5 ==> !held[j]
    {
      if dice[i] >= 4 { held := held[i := true]; }
    }
  }

  /** Holding for a target keeps a rolled turn valid and changes only the hold flags. */
  lemma HoldPreservesValid(t: TurnState, target: Option<Category>)
    requires ValidTurn(t) && t.hasRolled
    ensures ValidTurn(t.(held := HoldMask(t.dice, target)))
  {
  }

  /** A Yahtzee or four-of-a-kind target holds exactly the dice of the most frequent face. */
  lemma HoldSameKind(dice: seq<int>, c: Category)
    requires |dice| == 5 && (c == Yahtzee || c == FourKind)
    ensures forall i :: 0 <= i < 5 ==> (HoldMask(dice, Some(c))[i] <==> dice[i] == Most(dice))
    ensures exists i :: 0 <= i < 5 && HoldMask(dice, Some(c))[i]
    ensures forall i :: 0 <= i < 5 ==> Occurrences(dice, dice[i]) <= Occurrences(dice, Most(dice))
  {
    var m := Most(dice);
    var i :| 0 <= i < 5 && dice[i] == m;
    MostIsMostFrequent(dice);
  }

  /** A full-house target holds the two most frequent faces and nothing else. */
  lemma HoldFullHouse(dice: seq<int>)
    requires |dice| == 5
    ensures |Distinct(dice)| >= 2 ==> forall i :: 0 <= i < 5 ==>
      (HoldMask(dice, Some(FullHouse))[i] <==> dice[i] == Most(dice) || dice[i] == Second(dice))
    ensures |Distinct(dice)| < 2 ==> forall i :: 0 <= i < 5 ==> HoldMask(dice, Some(FullHouse))[i]
  {
    if |Distinct(dice)| < 2 {
      var u := Distinct(dice);
      assert dice[0] in u;
      forall i | 0 <= i < 5
        ensures dice[i] == Most(dice)
      {
        assert dice[i] in u && Most(dice) in u;
        assert dice[i] == u[0] && Most(dice) == u[0];
      }
    }
  }

  /** Every face of a run is in hand exactly when all of the run is hit. */
  lemma {:induction false} HitCountFull(ns: seq<int>, faces: set<int>)
    ensures HitCount(ns, faces) == |ns| <==> forall k :: 0 <= k < |ns| ==> ns[k] in faces
    decreases |ns|
  {
    if |ns| > 0 {
      HitCountFull(ns[..|ns| - 1], faces);
    }
  }

  /** A large straight in hand, chased as a large straight, is held whole. */
  lemma HoldMadeLargeStraight(dice: seq<int>)
    requires |dice| == 5 && IsLargeStraight(dice)
    ensures forall i :: 0 <= i < 5 ==> HoldMask(dice, Some(LargeStraight))[i]
  {
    LargeStraightOnRun(dice);
    assert HoldMask(dice, Some(LargeStraight)) == StraightMask(dice, LargeStraight);
  }

  /** Every die of a large straight lies on the run chosen for it. */
  lemma LargeStraightOnRun(dice: seq<int>)
    requires |dice| == 5 && IsLargeStraight(dice)
    ensures forall i :: 0 <= i < 5 ==> dice[i] in BestNeed(dice, LargeStraight)
  {
    var f := FaceSet(dice);
    var sets := NeedSets(LargeStraight);
    LargeStraightScore(dice);
    HitCountFull(sets[0], f);
    HitCountFull(sets[1], f);
    var ns := BestNeed(dice, LargeStraight);
    if f == {1, 2, 3, 4, 5} {
      assert HitCount(sets[0], f) == 5;
    } else {
      assert HitCount(sets[1], f) == 5;
    }
    assert HitCount(ns, f) == 5;
    assert forall x :: x in ns ==> x in f;
    if ns == [1, 2, 3, 4, 5] {
      SubsetOfEqualSize({1, 2, 3, 4, 5}, f);
    } else {
      SubsetOfEqualSize({2, 3, 4, 5, 6}, f);
    }
    forall i | 0 <= i < 5
      ensures dice[i] in ns
    {
      assert dice[i] in f;
    }
  }

  // ---------------------------------------------------------------------------
  // pickFinalCategory
  // ---------------------------------------------------------------------------

  predicate HighHand(c: Category) {
    c == Yahtzee || c == LargeStraight || c == FullHouse || c == FourKind
  }

  /** `needUpper`: the points still missing to the upper bonus, never below 0. */
  function NeedUpper(sc: Scorecard): (n: int)
    ensures n >= 0 && n >= 63 - UpperSum(sc)
    ensures n == 0 || n == 63 - UpperSum(sc)
  {
    if 63 - UpperSum(sc) > 0 then 63 - UpperSum(sc) else 0
  }

  function Min(a: int, b: int): int {
    if a <= b then a else b
  }

  /** The upper-section part of the weighting: the bias, the bonus chase and the low-score cut. */
  function UpperWeighted(p: Profile, v: real, pts: int, need: int): real {
    var a := v * p.upperBias;
    var b := if p.upperBias >= 1.4 && need > 0 then a + (Min(need, pts) as real) * 0.6 else a;
    if p.risk >= 1.0 && pts <= 4 then b - 7.0 else b
  }

  /**
   * The value `pickFinalCategory` gives category `cat` worth `pts` points. Outside the upper
   * section, with positive weights, a score keeps its sign: a zero is valued below 0 and any
   * positive score above 0.
   */
  function Adjusted(p: Profile, cat: Category, pts: int, need: int): (v: real)
    ensures !IsUpper(cat) && p.highRoleBias > 0.0 && p.straightBias > 0.0 ==>
      (pts > 0 ==> v > 0.0) && (pts == 0 && p.zeroHate > 0.0 ==> v < 0.0)
  {
    var v0 := pts as real;
    var v1 := if pts == 0 then v0 - 20.0 * p.zeroHate else v0;
    var v2 := if IsUpper(cat) then UpperWeighted(p, v1, pts, need) else v1;
    var v3 := if HighHand(cat) then v2 * p.highRoleBias else v2;
    if StraightTarget(cat) then v3 * p.straightBias else v3
  }

  /**
   * Under every profile of the table a zero is valued below -15 and any
   * positive score above -7, and no value comes near the -1e9 start.
   */
  lemma AdjustedBounds(p: Profile, cat: Category, pts: int, need: int)
    requires TableProfile(p) && pts >= 0 && need >= 0
    ensures pts == 0 ==> -100.0 < Adjusted(p, cat, pts, need) < -15.0
    ensures pts > 0 ==> Adjusted(p, cat, pts, need) > -7.0
  {
    if pts == 0 {
      ZeroBounds(p, cat, need);
    } else {
      PositiveBounds(p, cat, pts, need);
    }
  }

  /** A zero, under every profile of the table. */
  lemma ZeroBounds(p: Profile, cat: Category, need: int)
    requires TableProfile(p) && need >= 0
    ensures -100.0 < Adjusted(p, cat, 0, need) < -15.0
  {
    // One profile at a time, each weight is a constant and the bounds are linear.
    var v := Adjusted(p, cat, 0, need);
    if p == Easy {
      assert WithinBounds(0, v);
    } else if p == Normal {
      assert WithinBounds(0, v);
    } else if p == Hard {
      assert WithinBounds(0, v);
    } else if p == Expert {
      assert WithinBounds(0, v);
    } else {
      assert WithinBounds(0, v);
    }
  }

  /** A positive score, under every profile of the table. */
  lemma PositiveBounds(p: Profile, cat: Category, pts: int, need: int)
    requires TableProfile(p) && pts > 0 && need >= 0
    ensures Adjusted(p, cat, pts, need) > -7.0
  {
    assert Min(need, pts) >= 0;
    var v := Adjusted(p, cat, pts, need);
    if p == Easy {
      assert WithinBounds(pts, v);
    } else if p == Normal {
      assert WithinBounds(pts, v);
    } else if p == Hard {
      assert WithinBounds(pts, v);
    } else if p == Expert {
      assert WithinBounds(pts, v);
    } else {
      assert WithinBounds(pts, v);
    }
  }

  /** The conclusion of `AdjustedBounds` for a value `v` of a category worth `pts`. */
  predicate WithinBounds(pts: int, v: real) {
    (pts == 0 ==> -100.0 < v < -15.0) && (pts > 0 ==> v > -7.0)
  }

  /** `Adjusted`, taken one weighting step at a time. */
  lemma AdjustedSteps(p: Profile, cat: Category, pts: int, need: int, v1: real, v2: real, v3: real, v: real)
    requires v1 == if pts == 0 then pts as real - 20.0 * p.zeroHate else pts as real
    requires v2 == if IsUpper(cat) then UpperWeighted(p, v1, pts, need) else v1
    requires v3 == if HighHand(cat) then v2 * p.highRoleBias else v2
    requires v == if StraightTarget(cat) then v3 * p.straightBias else v3
    ensures v == Adjusted(p, cat, pts, need)
  {
  }

  /** What each category of `cats` is worth to the computer, `need` points short of the bonus. */
  function Values(cats: seq<Category>, dice: seq<int>, p: Profile, need: int): (s: seq<real>)
    ensures |s| == |cats|
    ensures forall k :: 0 <= k < |cats| ==> s[k] == Adjusted(p, cats[k], Score(dice, cats[k]), need)
  {
    seq(|cats|, k requires 0 <= k < |cats| => Adjusted(p, cats[k], Score(dice, cats[k]), need))
  }

  /** Position among the open categories of the final choice. */
  function FinalIndex(sc: Scorecard, dice: seq<int>, p: Profile): nat {
    Best(Values(AvailableCats(sc), dice, p, NeedUpper(sc)), -1e9).0
  }

  /** `pickFinalCategory`; `None` where the source returns `undefined` (a full scorecard). */
  function FinalChoice(sc: Scorecard, dice: seq<int>, p: Profile): (r: Option<Category>)
    ensures r.None? <==> IsComplete(sc)
    ensures r.Some? ==> r.value !in sc
  {
    var cats := AvailableCats(sc);
    AvailableCount(sc);
    if |cats| == 0 then None
    else
      var k := FinalIndex(sc, dice, p);
      assert cats[k] in cats;
      Some(cats[k])
  }

  /** The body of the `pickFinalCategory` loop: the weighting of one category worth `pts` points. */
  method Weigh(p: Profile, cat: Category, pts: int, needUpper: int) returns (v: real)
    ensures v == Adjusted(p, cat, pts, needUpper)
  {
    v := pts as real;
    if pts == 0 { v := v - 20.0 * p.zeroHate; }
    ghost var v1 := v;
    if IsUpper(cat) {
      v := v * p.upperBias;
      if p.upperBias >= 1.4 && needUpper > 0 {
        v := v + (Min(needUpper, pts) as real) * 0.6;
      }
      if p.risk >= 1.0 && pts <= 4 { v := v - 7.0; }
      assert v == UpperWeighted(p, v1, pts, needUpper);
    }
    ghost var v2 := v;
    if HighHand(cat) { v := v * p.highRoleBias; }
    ghost var v3 := v;
    if StraightTarget(cat) { v := v * p.straightBias; }
    AdjustedSteps(p, cat, pts, needUpper, v1, v2, v3, v);
  }

  /** `pickFinalCategory`. */
  method PickFinalCategory(sc: Scorecard, dice: seq<int>, p: Profile) returns (best: Option<Category>)
    ensures best == FinalChoice(sc, dice, p)
  {
    var cats := AvailableCats(sc);
    var upperNow := UpperSum(sc);
    var needUpper := if 63 - upperNow > 0 then 63 - upperNow else 0;
    assert needUpper == NeedUpper(sc);
    var bestIndex := ScanValues(cats, dice, p, needUpper);
    assert bestIndex == FinalIndex(sc, dice, p);
    if |cats| == 0 {
      best := None;
    } else {
      best := Some(cats[bestIndex]);
    }
  }

  /** The loop of `pickFinalCategory`: the position of the first category of greatest value. */
  method ScanValues(cats: seq<Category>, dice: seq<int>, p: Profile, need: int) returns (bestIndex: nat)
    ensures bestIndex == Best(Values(cats, dice, p, need), -1e9).0
  {
    ghost var vals := Values(cats, dice, p, need);
    bestIndex := 0;
    var bestValue := -1e9;
    for k := 0 to |cats|
      invariant (bestIndex, bestValue) == Best(vals[..k], -1e9)
    {
      bestIndex, bestValue := ScanStep(cats, dice, p, need, k, bestIndex, bestValue);
    }
    assert vals[..|cats|] == vals;
  }

  /** One pass of the `pickFinalCategory` loop: weigh category `k` and keep it if it beats the best so far. */
  method ScanStep(cats: seq<Category>, dice: seq<int>, p: Profile, need: int, k: nat, bestIndex: nat, bestValue: real)
    returns (newIndex: nat, newValue: real)
    requires k < |cats| && (bestIndex, bestValue) == Best(Values(cats, dice, p, need)[..k], -1e9)
    ensures (newIndex, newValue) == Best(Values(cats, dice, p, need)[..k + 1], -1e9)
  {
    ghost var vals := Values(cats, dice, p, need);
    BestStep(vals, -1e9, k);
    var cat := cats[k];
    var pts := Score(dice, cat);
    var v := Weigh(p, cat, pts, need);
    newIndex, newValue := bestIndex, bestValue;
    if v > bestValue {
      newValue := v;
      newIndex := k;
    }
  }

  /**
   * Under a table profile with legal dice the final choice is an open category
   * of greatest value, the first in CATS order among equals.
   */
  lemma FinalChoiceIsBest(sc: Scorecard, dice: seq<int>, p: Profile)
    requires TableProfile(p) && ValidDice(dice) && !IsComplete(sc)
    ensures FinalChoice(sc, dice, p).Some?
    ensures var cats := AvailableCats(sc); var vals := Values(cats, dice, p, NeedUpper(sc));
      var k := FinalIndex(sc, dice, p);
      k < |cats| && cats[k] == FinalChoice(sc, dice, p).value &&
      (forall j :: 0 <= j < |cats| ==> vals[j] <= vals[k]) &&
      (forall j :: 0 <= j < k ==> vals[j] < vals[k])
  {
    var cats := AvailableCats(sc);
    var vals := Values(cats, dice, p, NeedUpper(sc));
    AvailableCount(sc);
    AdjustedBounds(p, cats[0], Score(dice, cats[0]), NeedUpper(sc));
    assert vals[0] > -1e9;
  }

  /** Every profile of the table scratches a category only when every open category would score 0. */
  lemma FinalChoiceAvoidsZero(sc: Scorecard, dice: seq<int>, p: Profile, c: Category)
    requires TableProfile(p) && ValidDice(dice) && c !in sc && Score(dice, c) > 0
    ensures FinalChoice(sc, dice, p).Some? && Score(dice, FinalChoice(sc, dice, p).value) > 0
  {
    var cats := AvailableCats(sc);
    assert c in cats;
    var j :| 0 <= j < |cats| && cats[j] == c;
    FinalChoiceIsBest(sc, dice, p);
    OutweighsScoring(cats, dice, p, NeedUpper(sc), j, FinalIndex(sc, dice, p));
  }

  /** A category valued at least as high as one that scores also scores. */
  lemma OutweighsScoring(cats: seq<Category>, dice: seq<int>, p: Profile, need: int, j: nat, k: nat)
    requires TableProfile(p) && ValidDice(dice) && need >= 0 && j < |cats| && k < |cats|
    requires Score(dice, cats[j]) > 0
    requires Values(cats, dice, p, need)[j] <= Values(cats, dice, p, need)[k]
    ensures Score(dice, cats[k]) > 0
  {
    AdjustedBounds(p, cats[j], Score(dice, cats[j]), need);
    AdjustedBounds(p, cats[k], Score(dice, cats[k]), need);
  }

  // ---------------------------------------------------------------------------
  // cpuPlayTurn
  // ---------------------------------------------------------------------------

  /** `scoreCategory` of a possibly undefined category: its `default` branch scores 0. */
  function ScoreOpt(dice: seq<int>, c: Option<Category>): int {
    if c.Some? then Score(dice, c.value) else 0
  }

  /** `commitCategory` of a possibly undefined category: `undefined !== null`, so nothing changes. */
  function CommitOpt(sc: Scorecard, dice: seq<int>, c: Option<Category>): Scorecard {
    if c.Some? then CommitCategory(sc, dice, c.value) else sc
  }

  /** The chance of stopping early once the target pays 20 or more. */
  function Threshold(p: Profile): real {
    0.12 + (1.0 - p.risk) * 0.45
  }

  /** The more a profile risks, the less readily it stops. */
  lemma ThresholdByRisk(p: Profile, q: Profile)
    requires p.risk <= q.risk
    ensures Threshold(q) <= Threshold(p)
    ensures Threshold(Easy) == 0.48 && Threshold(Normal) == 0.345 && Threshold(Expert) == 0.12
  {
  }

  /** The draws of the roll made with `n` rolls left: die `i` gets `dd(n, i)`. */
  function Draws(dd: (nat, nat) -> real, n: int): nat -> real {
    (i: nat) => dd(if n >= 0 then n else 0, i)
  }

  ghost predicate ValidOracle(dd: (nat, nat) -> real) {
    forall n: nat, i: nat :: 0.0 <= dd(n, i) < 1.0
  }

  /** Whether the computer stops rolling: the target pays 20 or more and the stop draw falls below the threshold. */
  predicate Stops(t: TurnState, av: seq<Category>, p: Profile, sd: nat -> real) {
    ScoreOpt(t.dice, Target(av, t.dice, p)) >= 20 && sd(if t.rollsLeft >= 0 then t.rollsLeft else 0) < Threshold(p)
  }

  /** The `while (t.rollsLeft > 0)` loop: hold for the target, reroll, pick a new target. */
  function RollLoop(t: TurnState, av: seq<Category>, p: Profile, dd: (nat, nat) -> real, sd: nat -> real): (r: TurnState)
    requires Shaped(t)
    ensures Shaped(r)
    decreases if t.rollsLeft > 0 then t.rollsLeft else 0
  {
    if t.rollsLeft <= 0 || Stops(t, av, p, sd) then t
    else RollLoop(Rolled(t.(held := HoldMask(t.dice, Target(av, t.dice, p))), Draws(dd, t.rollsLeft)), av, p, dd, sd)
  }

  /** The loop keeps a rolled turn valid. */
  lemma {:induction false} RollLoopValid(t: TurnState, av: seq<Category>, p: Profile, dd: (nat, nat) -> real, sd: nat -> real)
    requires ValidTurn(t) && t.hasRolled && ValidOracle(dd)
    ensures ValidTurn(RollLoop(t, av, p, dd, sd)) && RollLoop(t, av, p, dd, sd).hasRolled
    ensures RollLoop(t, av, p, dd, sd).rollsLeft <= t.rollsLeft
    decreases t.rollsLeft
  {
    if !(t.rollsLeft <= 0 || Stops(t, av, p, sd)) {
      var h := t.(held := HoldMask(t.dice, Target(av, t.dice, p)));
      HoldPreservesValid(t, Target(av, t.dice, p));
      RollPreservesValid(h, Draws(dd, t.rollsLeft));
      RollLoopValid(Rolled(h, Draws(dd, t.rollsLeft)), av, p, dd, sd);
    }
  }

  /** What `cpuPlayTurn` returns. */
  datatype CpuTurn = CpuTurn(dice: seq<int>, chosen: Option<Category>, points: int, nextScorecard: Scorecard)

  /**
   * `cpuPlayTurn` as a value: the first roll, the loop, the final choice and its commit. No
   * category is chosen only on a full card, which is then returned as it was; otherwise an open
   * category is chosen and filled with what the final dice score in it.
   */
  function CpuPlay(sc: Scorecard, mode: string, dd: (nat, nat) -> real, sd: nat -> real): (r: CpuTurn)
    ensures r.chosen.None? <==> IsComplete(sc)
    ensures r.chosen.None? ==> r.nextScorecard == sc && r.points == 0
    ensures r.chosen.Some? ==>
      r.chosen.value !in sc && r.points == Score(r.dice, r.chosen.value)
      && r.nextScorecard == sc[r.chosen.value := r.points]
  {
    var p := Cfg(mode);
    var t0 := Rolled(NewTurnState(), Draws(dd, 3));
    var t := RollLoop(t0, AvailableCats(sc), p, dd, sd);
    var chosen := FinalChoice(sc, t.dice, p);
    CpuTurn(t.dice, chosen, ScoreOpt(t.dice, chosen), CommitOpt(sc, t.dice, chosen))
  }

  /** `cpuPlayTurn`. */
  method CpuPlayTurn(sc: Scorecard, mode: string, dd: (nat, nat) -> real, sd: nat -> real) returns (res: CpuTurn)
    ensures res == CpuPlay(sc, mode, dd, sd)
  {
    var p := Cfg(mode);
    var t := NewTurnState();
    t := RollDice(t, Draws(dd, t.rollsLeft));
    ghost var t0 := t;
    var av := AvailableCats(sc);
    var target := ChooseTargetCategory(av, t.dice, p);
    while t.rollsLeft > 0
      invariant Shaped(t)
      invariant target == Target(av, t.dice, p)
      invariant RollLoop(t, av, p, dd, sd) == RollLoop(t0, av, p, dd, sd)
      decreases t.rollsLeft
    {
      var stopThreshold := 0.12 + (1.0 - p.risk) * 0.45;
      var nowBest := ScoreOpt(t.dice, target);
      if nowBest >= 20 && sd(t.rollsLeft) < stopThreshold {
        break;
      }
      t := ApplyHoldStrategy(t, target);
      t := RollDice(t, Draws(dd, t.rollsLeft));
      target := ChooseTargetCategory(av, t.dice, p);
    }
    assert t == RollLoop(t0, av, p, dd, sd);
    var chosenCat := PickFinalCategory(sc, t.dice, p);
    var points := ScoreOpt(t.dice, chosenCat);
    var nextScorecard := CommitOpt(sc, t.dice, chosenCat);
    res := CpuTurn(t.dice, chosenCat, points, nextScorecard);
  }

  /**
   * A computer turn ends with legal dice and fills exactly one open category
   * with what those dice score there, unless the scorecard is already full; it
   * scores 0 only when every open category would.
   */
  lemma CpuPlayFillsOne(sc: Scorecard, mode: string, dd: (nat, nat) -> real, sd: nat -> real)
    requires ValidOracle(dd)
    ensures var r := CpuPlay(sc, mode, dd, sd);
      ValidDice(r.dice)
      && (r.chosen.None? <==> IsComplete(sc))
      && (r.chosen.None? ==> r.nextScorecard == sc && r.points == 0)
      && (r.chosen.Some? ==>
            r.chosen.value !in sc && r.points == Score(r.dice, r.chosen.value) &&
            r.nextScorecard == sc[r.chosen.value := r.points] &&
            |AvailableCats(r.nextScorecard)| == |AvailableCats(sc)| - 1)
      && (forall c :: c !in sc && Score(r.dice, c) > 0 ==> r.points > 0)
  {
    var p := Cfg(mode);
    var t0 := Rolled(NewTurnState(), Draws(dd, 3));
    RollPreservesValid(NewTurnState(), Draws(dd, 3));
    RollLoopValid(t0, AvailableCats(sc), p, dd, sd);
    var r := CpuPlay(sc, mode, dd, sd);
    if r.chosen.Some? {
      assert r.chosen.value in AvailableCats(sc);
      CommitClosesOne(sc, r.dice, r.chosen.value);
    }
    forall c | c !in sc && Score(r.dice, c) > 0
      ensures r.points > 0
    {
      FinalChoiceAvoidsZero(sc, r.dice, p, c);
    }
  }
}
