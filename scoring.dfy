/**
 * Scoring rules of the dice game (src/scoring.js): the twelve categories, the
 * price of a roll in each of them, and the upper sum, upper bonus and grand
 * total of a scorecard.
 */
module Scoring {

  /** The twelve categories, declared in the order of CATS; `A` is the ones. */
  datatype Category =
    | A | Two | Three | Four | Five | Six
    | Choice | FourKind | FullHouse | SmallStraight | LargeStraight | Yahtzee

  /** `Object.values(CATS)`: every category once, in declaration order. */
  const Cats: seq<Category> :=
    [A, Two, Three, Four, Five, Six, Choice, FourKind, FullHouse, SmallStraight, LargeStraight, Yahtzee]

  /** A scorecard maps each FILLED category to its score; an absent key is `null`. */
  type Scorecard = map<Category, int>

  /** Position of a category in CATS. */
  function CatIndex(c: Category): (k: nat)
    ensures k < |Cats| && Cats[k] == c
  {
    match c
    case A => 0
    case Two => 1
    case Three => 2
    case Four => 3
    case Five => 4
    case Six => 5
    case Choice => 6
    case FourKind => 7
    case FullHouse => 8
    case SmallStraight => 9
    case LargeStraight => 10
    case Yahtzee => 11
  }

  lemma CatIndexInjective(c: Category, d: Category)
    ensures CatIndex(c) == CatIndex(d) <==> c == d
  {
  }

  predicate IsUpper(c: Category) {
    c == A || c == Two || c == Three || c == Four || c == Five || c == Six
  }

  /** The face an upper category counts: `A` counts ones, `Two`..`Six` their number. */
  function UpperFace(c: Category): (f: int)
    requires IsUpper(c)
    ensures 1 <= f <= 6
  {
    match c
    case A => 1
    case Two => 2
    case Three => 3
    case Four => 4
    case Five => 5
    case Six => 6
  }

  /** Five dice, each showing a face from 1 to 6. */
  predicate ValidDice(d: seq<int>) {
    |d| == 5 && forall i :: 0 <= i < |d| ==> 1 <= d[i] <= 6
  }

  // ---------------------------------------------------------------------------
  // Views of a roll: sum, counts, the set of faces
  // ---------------------------------------------------------------------------

  /** `sum`: the dice added up from left to right; legal faces give between 1 and 6 per die. */
  function Sum(s: seq<int>): (r: int)
    ensures (forall i :: 0 <= i < |s| ==> 1 <= s[i] <= 6) ==> |s| <= r <= 6 * |s|
    decreases |s|
  {
    if |s| == 0 then 0 else Sum(s[..|s| - 1]) + s[|s| - 1]
  }

  /** How many dice show face `v`: at most one per die. */
  function Occurrences(s: seq<int>, v: int): (o: nat)
    ensures o <= |s|
    decreases |s|
  {
    if |s| == 0 then 0 else Occurrences(s[..|s| - 1], v) + (if s[|s| - 1] == v then 1 else 0)
  }

  /** A face occurs at least once exactly when some die shows it. */
  lemma {:induction false} OccurrencesPositive(s: seq<int>, v: int)
    ensures Occurrences(s, v) > 0 <==> v in s
    decreases |s|
  {
    if |s| > 0 {
      OccurrencesPositive(s[..|s| - 1], v);
      assert s == s[..|s| - 1] + [s[|s| - 1]];
    }
  }

  /** The faces of `s`, each once, in order of first appearance (the key order of a JS Map). */
  function Distinct(s: seq<int>): (u: seq<int>)
    ensures forall x :: x in u <==> x in s
    ensures forall i, j :: 0 <= i < j < |u| ==> u[i] != u[j]
    decreases |s|
  {
    if |s| == 0 then []
    else
      var u := Distinct(s[..|s| - 1]);
      assert forall x :: x in s <==> x in s[..|s| - 1] || x == s[|s| - 1] by {
        assert s == s[..|s| - 1] + [s[|s| - 1]];
      }
      if s[|s| - 1] in u then u else u + [s[|s| - 1]]
  }

  /** Where face `v` first appears among the dice. */
  function FirstIndex(s: seq<int>, v: int): (k: nat)
    requires v in s
    ensures k < |s| && s[k] == v
    ensures forall j :: 0 <= j < k ==> s[j] != v
  {
    if s[0] == v then 0 else 1 + FirstIndex(s[1..], v)
  }

  /** The faces of `Distinct` come in the order in which they first appear. */
  lemma {:induction false} DistinctOrder(s: seq<int>)
    ensures forall i, j :: 0 <= i < j < |Distinct(s)| ==>
      FirstIndex(s, Distinct(s)[i]) < FirstIndex(s, Distinct(s)[j])
    decreases |s|
  {
    if |s| > 0 {
      var p := s[..|s| - 1];
      var d := s[|s| - 1];
      assert s == p + [d];
      DistinctOrder(p);
      var u, v := Distinct(p), Distinct(s);
      assert v == if d in p then u else u + [d];
      forall i, j | 0 <= i < j < |v|
        ensures FirstIndex(s, v[i]) < FirstIndex(s, v[j])
      {
        FirstIndexSnoc(p, d, v[i]);
        if j < |u| {
          FirstIndexSnoc(p, d, v[j]);
        } else {
          assert FirstIndex(s, d) == |p|;
        }
      }
    }
  }

  /** Appending a die does not move the first position of a face already present. */
  lemma FirstIndexSnoc(p: seq<int>, d: int, x: int)
    requires x in p
    ensures FirstIndex(p + [d], x) == FirstIndex(p, x)
  {
    var k := FirstIndex(p, x);
    assert (p + [d])[k] == x;
  }

  /** `[...counts(dice).entries()]`: each face with its number of occurrences, in Map order. */
  function Entries(s: seq<int>): (e: seq<(int, nat)>)
    ensures |e| == |Distinct(s)|
  {
    var u := Distinct(s);
    seq(|u|, i requires 0 <= i < |u| => (u[i], Occurrences(s, u[i])))
  }

  /** `[...counts(dice).values()]`. */
  function CountValues(s: seq<int>): (vals: seq<nat>)
    ensures |vals| == |Distinct(s)|
  {
    var e := Entries(s);
    seq(|e|, i requires 0 <= i < |e| => e[i].1)
  }

  /** `new Set(dice)`. */
  function FaceSet(s: seq<int>): set<int> {
    set x | x in s
  }

  // ---------------------------------------------------------------------------
  // counts: the Map built by a loop
  // ---------------------------------------------------------------------------

  /** A JS Map from face to count: its keys in insertion order, and the mapping. */
  datatype CountMap = CountMap(keys: seq<int>, count: map<int, nat>)

  /** What appending one die does to the faces and their counts. */
  lemma CountsSnoc(s: seq<int>, d: int)
    ensures Distinct(s + [d]) == if d in Distinct(s) then Distinct(s) else Distinct(s) + [d]
    ensures forall v :: Occurrences(s + [d], v) == Occurrences(s, v) + (if v == d then 1 else 0)
  {
    assert (s + [d])[..|s|] == s;
  }

  /** `counts`: one pass over the dice, `c.set(d, (c.get(d) ?? 0) + 1)`. */
  method Counts(dice: seq<int>) returns (c: CountMap)
    ensures c.keys == Distinct(dice)
    ensures forall v :: v in c.count <==> v in dice
    ensures forall v :: v in c.count ==> c.count[v] == Occurrences(dice, v)
  {
    c := CountMap([], map[]);
    for i := 0 to |dice|
      invariant c.keys == Distinct(dice[..i])
      invariant forall v :: v in c.count <==> v in dice[..i]
      invariant forall v :: v in c.count ==> c.count[v] == Occurrences(dice[..i], v)
    {
      c := CountStep(dice, i, c);
    }
    assert dice[..|dice|] == dice;
  }

  /** The body of the `counts` loop: the map of the first `i` dice becomes the map of the first `i + 1`. */
  method CountStep(dice: seq<int>, i: nat, c: CountMap) returns (c': CountMap)
    requires i < |dice|
    requires c.keys == Distinct(dice[..i])
    requires forall v :: v in c.count <==> v in dice[..i]
    requires forall v :: v in c.count ==> c.count[v] == Occurrences(dice[..i], v)
    ensures c'.keys == Distinct(dice[..i + 1])
    ensures forall v :: v in c'.count <==> v in dice[..i + 1]
    ensures forall v :: v in c'.count ==> c'.count[v] == Occurrences(dice[..i + 1], v)
  {
    var d := dice[i];
    assert dice[..i + 1] == dice[..i] + [d];
    CountsSnoc(dice[..i], d);
    OccurrencesPositive(dice[..i], d);
    var n := if d in c.count then c.count[d] else 0;
    c' := CountMap(if d in c.count then c.keys else c.keys + [d], c.count[d := n + 1]);
  }

  // ---------------------------------------------------------------------------
  // The rules
  // ---------------------------------------------------------------------------

  /** `isSmallStraight`: one of the runs 1-4, 2-5, 3-6 lies within the faces; each of them holds
    * 3 and 4, and 2 or 5. */
  predicate IsSmallStraight(s: seq<int>)
    ensures IsSmallStraight(s) ==> 3 in s && 4 in s && (2 in s || 5 in s)
  {
    var f := FaceSet(s);
    {1, 2, 3, 4} <= f || {2, 3, 4, 5} <= f || {3, 4, 5, 6} <= f
  }

  /** `isLargeStraight`: five distinct faces, containing 1-5 or 2-6; so 2 to 5 are all there, and
    * exactly one of 1 and 6. */
  predicate IsLargeStraight(s: seq<int>)
    ensures IsLargeStraight(s) ==> 2 in s && 3 in s && 4 in s && 5 in s && (1 in s <==> 6 !in s)
  {
    var f := FaceSet(s);
    AllSixFaces(f);
    |f| == 5 && ({1, 2, 3, 4, 5} <= f || {2, 3, 4, 5, 6} <= f)
  }

  /** A set holding all six faces has at least six members. */
  lemma AllSixFaces(f: set<int>)
    ensures {1, 2, 3, 4, 5, 6} <= f ==> |f| >= 6
  {
    var six := {1, 2, 3, 4, 5, 6};
    if six <= f {
      assert f == six + (f - six);
      assert |six| == 6;
    }
  }

  /** Some face occurs at least `n` times (`[...c.values()].some(v => v >= n)`). */
  predicate SomeCountAtLeast(s: seq<int>, n: nat) {
    var vals := CountValues(s);
    exists k :: 0 <= k < |vals| && vals[k] >= n
  }

  /** Some face occurs exactly `n` times (`[...c.values()].some(v => v === n)`). */
  predicate SomeCountIs(s: seq<int>, n: nat) {
    var vals := CountValues(s);
    exists k :: 0 <= k < |vals| && vals[k] == n
  }

  /** The count values, sorted ascending, are exactly [2, 3]. */
  predicate CountsAreTwoThree(s: seq<int>) {
    var vals := CountValues(s);
    |vals| == 2 && ((vals[0] == 2 && vals[1] == 3) || (vals[0] == 3 && vals[1] == 2))
  }

  /** `scoreCategory`: the points a roll earns in a category, between 0 and 50 for legal dice. */
  function Score(dice: seq<int>, cat: Category): (r: int)
    ensures ValidDice(dice) ==> 0 <= r <= 50
  {
    match cat
    case A => Occurrences(dice, 1) * 1
    case Two => Occurrences(dice, 2) * 2
    case Three => Occurrences(dice, 3) * 3
    case Four => Occurrences(dice, 4) * 4
    case Five => Occurrences(dice, 5) * 5
    case Six => Occurrences(dice, 6) * 6
    case Choice => Sum(dice)
    case FourKind => if SomeCountAtLeast(dice, 4) then Sum(dice) else 0
    case FullHouse => if CountsAreTwoThree(dice) then 25 else 0
    case SmallStraight => if IsSmallStraight(dice) then 15 else 0
    case LargeStraight => if IsLargeStraight(dice) then 30 else 0
    case Yahtzee => if SomeCountIs(dice, 5) then 50 else 0
  }

  // ---------------------------------------------------------------------------
  // Scorecard totals
  // ---------------------------------------------------------------------------

  /** `scorecard[c] ?? 0`: the score of a filled category, 0 for an unfilled one. */
  function Filled(sc: Scorecard, c: Category): int {
    if c in sc then sc[c] else 0
  }

  /** `upperSum`: the six upper-section slots added up, unfilled counting as 0. */
  function UpperSum(sc: Scorecard): (r: int)
    ensures (forall c :: c in sc ==> sc[c] >= 0) ==> r >= 0
  {
    Filled(sc, A) + Filled(sc, Two) + Filled(sc, Three)
      + Filled(sc, Four) + Filled(sc, Five) + Filled(sc, Six)
  }

  /** `upperBonus`: 35 points once the upper section reaches 63. */
  function UpperBonus(sc: Scorecard): (b: int)
    ensures b == 0 || b == 35
    ensures b > 0 <==> UpperSum(sc) >= 63
  {
    if UpperSum(sc) >= 63 then 35 else 0
  }

  /** The six lower-section slots added up, unfilled counting as 0. */
  function LowerSum(sc: Scorecard): int {
    Filled(sc, Choice) + Filled(sc, FourKind) + Filled(sc, FullHouse)
      + Filled(sc, SmallStraight) + Filled(sc, LargeStraight) + Filled(sc, Yahtzee)
  }

  /** The grand total: every filled category, taken in `CATS` order, plus the upper bonus. */
  function Total(sc: Scorecard): (t: int)
    ensures t == SumFilled(sc, Cats) + UpperBonus(sc)
  {
    SumFilledCats(sc);
    UpperSum(sc) + LowerSum(sc) + UpperBonus(sc)
  }

  /** The scores of the categories `cs`, added up from left to right. */
  function SumFilled(sc: Scorecard, cs: seq<Category>): int
    decreases |cs|
  {
    if |cs| == 0 then 0 else SumFilled(sc, cs[..|cs| - 1]) + Filled(sc, cs[|cs| - 1])
  }

  lemma SumFilledSnoc(sc: Scorecard, cs: seq<Category>, c: Category)
    ensures SumFilled(sc, cs + [c]) == SumFilled(sc, cs) + Filled(sc, c)
  {
    assert (cs + [c])[..|cs|] == cs;
  }

  lemma SumFilledCats(sc: Scorecard)
    ensures SumFilled(sc, Cats) == UpperSum(sc) + LowerSum(sc)
  {
    var p: seq<Category> := [];
    SumFilledSnoc(sc, p, A); p := p + [A];
    SumFilledSnoc(sc, p, Two); p := p + [Two];
    SumFilledSnoc(sc, p, Three); p := p + [Three];
    SumFilledSnoc(sc, p, Four); p := p + [Four];
    SumFilledSnoc(sc, p, Five); p := p + [Five];
    SumFilledSnoc(sc, p, Six); p := p + [Six];
    SumFilledSnoc(sc, p, Choice); p := p + [Choice];
    SumFilledSnoc(sc, p, FourKind); p := p + [FourKind];
    SumFilledSnoc(sc, p, FullHouse); p := p + [FullHouse];
    SumFilledSnoc(sc, p, SmallStraight); p := p + [SmallStraight];
    SumFilledSnoc(sc, p, LargeStraight); p := p + [LargeStraight];
    SumFilledSnoc(sc, p, Yahtzee); p := p + [Yahtzee];
    assert p == Cats;
  }

  /** `totalScore`: a loop over CATS accumulating `scorecard[k] ?? 0`, then the bonus. */
  method TotalScore(sc: Scorecard) returns (t: int)
    ensures t == Total(sc)
  {
    t := 0;
    for i := 0 to |Cats|
      invariant t == SumFilled(sc, Cats[..i])
    {
      assert Cats[..i + 1][..i] == Cats[..i];
      t := t + Filled(sc, Cats[i]);
    }
    assert Cats[..|Cats|] == Cats;
    SumFilledCats(sc);
    t := t + UpperBonus(sc);
  }

  // ---------------------------------------------------------------------------
  // Properties of counting
  // ---------------------------------------------------------------------------

  lemma {:induction false} OccurrencesMultiset(s: seq<int>, v: int)
    ensures Occurrences(s, v) == multiset(s)[v]
    decreases |s|
  {
    if |s| > 0 {
      OccurrencesMultiset(s[..|s| - 1], v);
      assert s == s[..|s| - 1] + [s[|s| - 1]];
    }
  }

  lemma {:induction false} OccurrencesOfTwo(s: seq<int>, a: int, b: int)
    requires a != b
    ensures Occurrences(s, a) + Occurrences(s, b) <= |s|
    decreases |s|
  {
    if |s| > 0 {
      OccurrencesOfTwo(s[..|s| - 1], a, b);
    }
  }

  lemma {:induction false} OccurrencesOfThree(s: seq<int>, a: int, b: int, c: int)
    requires a != b && b != c && a != c
    ensures Occurrences(s, a) + Occurrences(s, b) + Occurrences(s, c) <= |s|
    decreases |s|
  {
    if |s| > 0 {
      OccurrencesOfThree(s[..|s| - 1], a, b, c);
    }
  }

  /** When every die shows `v`, `v` occurs once per die. */
  lemma {:induction false} OccurrencesAllSame(s: seq<int>, v: int)
    requires forall i :: 0 <= i < |s| ==> s[i] == v
    ensures Occurrences(s, v) == |s|
    decreases |s|
  {
    if |s| > 0 {
      OccurrencesAllSame(s[..|s| - 1], v);
    }
  }

  lemma {:induction false} SumAppend(p: seq<int>, q: seq<int>)
    ensures Sum(p + q) == Sum(p) + Sum(q)
    decreases |q|
  {
    if |q| == 0 {
      assert p + q == p;
    } else {
      SumAppend(p, q[..|q| - 1]);
      assert (p + q)[..|p + q| - 1] == p + q[..|q| - 1];
    }
  }

  /** The sum depends only on the multiset of faces. */
  lemma {:induction false} SumPermutation(a: seq<int>, b: seq<int>)
    requires multiset(a) == multiset(b)
    ensures Sum(a) == Sum(b)
    decreases |a|
  {
    if |a| == 0 {
      assert |b| == |multiset(b)| == 0;
    } else {
      var a' := a[..|a| - 1];
      var x := a[|a| - 1];
      assert a == a' + [x];
      assert x in multiset(b);
      var j :| 0 <= j < |b| && b[j] == x;
      var b' := b[..j] + b[j + 1..];
      MultisetRemove(b, j);
      assert b == b[..j] + [x] + b[j + 1..];
      SumRemove(b[..j], x, b[j + 1..]);
      assert multiset(a') == multiset(a) - multiset{x};
      SumPermutation(a', b');
    }
  }

  /** Taking a face out of the middle of a list takes its value off the sum. */
  lemma SumRemove(p: seq<int>, x: int, q: seq<int>)
    ensures Sum(p + [x] + q) == Sum(p + q) + x
  {
    SumAppend(p, [x]);
    SumAppend(p + [x], q);
    SumAppend(p, q);
  }

  /** Taking out the face at `j` takes one copy of it off the multiset. */
  lemma MultisetRemove(b: seq<int>, j: nat)
    requires j < |b|
    ensures multiset(b[..j] + b[j + 1..]) == multiset(b) - multiset{b[j]}
  {
    var p, x, q := b[..j], b[j], b[j + 1..];
    assert b == p + [x] + q;
  }

  lemma {:induction false} SumAllSame(s: seq<int>, v: int)
    requires forall i :: 0 <= i < |s| ==> s[i] == v
    ensures Sum(s) == |s| * v
    decreases |s|
  {
    if |s| > 0 {
      SumAllSame(s[..|s| - 1], v);
      assert Sum(s) == (|s| - 1) * v + v;
    }
  }

  /** A sequence without repetitions has as many distinct elements as entries. */
  lemma {:induction false} NoDupCard<T>(u: seq<T>)
    requires forall i, j :: 0 <= i < j < |u| ==> u[i] != u[j]
    ensures |set x | x in u| == |u|
    decreases |u|
  {
    if |u| > 0 {
      var u' := u[..|u| - 1];
      NoDupCard(u');
      assert (set x | x in u) == (set x | x in u') + {u[|u| - 1]};
      assert u[|u| - 1] !in (set x | x in u');
    }
  }

  /** There are as many Map entries as distinct faces. */
  lemma DistinctSize(s: seq<int>)
    ensures |Distinct(s)| == |FaceSet(s)|
  {
    var u := Distinct(s);
    NoDupCard(u);
    assert (set x | x in u) == FaceSet(s);
  }

  lemma SomeCountAtLeastIff(s: seq<int>, n: nat)
    ensures SomeCountAtLeast(s, n) <==> exists v :: v in s && Occurrences(s, v) >= n
  {
    var u := Distinct(s);
    var vals := CountValues(s);
    if SomeCountAtLeast(s, n) {
      var k :| 0 <= k < |vals| && vals[k] >= n;
      assert u[k] in s && Occurrences(s, u[k]) >= n;
    }
    if exists v :: v in s && Occurrences(s, v) >= n {
      var v :| v in s && Occurrences(s, v) >= n;
      assert v in u;
      var k :| 0 <= k < |u| && u[k] == v;
      assert vals[k] >= n;
    }
  }

  lemma SomeCountIsIff(s: seq<int>, n: nat)
    ensures SomeCountIs(s, n) <==> exists v :: v in s && Occurrences(s, v) == n
  {
    var u := Distinct(s);
    var vals := CountValues(s);
    if SomeCountIs(s, n) {
      var k :| 0 <= k < |vals| && vals[k] == n;
      assert u[k] in s && Occurrences(s, u[k]) == n;
    }
    if exists v :: v in s && Occurrences(s, v) == n {
      var v :| v in s && Occurrences(s, v) == n;
      assert v in u;
      var k :| 0 <= k < |u| && u[k] == v;
      assert vals[k] == n;
    }
  }

  /** One face three times and another twice. */
  predicate ThreeAndTwo(s: seq<int>) {
    exists a, b :: a in s && b in s && Occurrences(s, a) == 3 && Occurrences(s, b) == 2
  }

  /** The sorted-counts test [2, 3], restated on faces: two faces, counted three and two. */
  lemma CountsAreTwoThreeIff(s: seq<int>)
    ensures CountsAreTwoThree(s) <==> |FaceSet(s)| == 2 && ThreeAndTwo(s)
  {
    var u := Distinct(s);
    var vals := CountValues(s);
    DistinctSize(s);
    if CountsAreTwoThree(s) {
      assert u[0] in s && u[1] in s;
      if vals[0] == 3 {
        assert Occurrences(s, u[0]) == 3 && Occurrences(s, u[1]) == 2;
      } else {
        assert Occurrences(s, u[1]) == 3 && Occurrences(s, u[0]) == 2;
      }
    }
    if |FaceSet(s)| == 2 && ThreeAndTwo(s) {
      var a, b :| a in s && b in s && Occurrences(s, a) == 3 && Occurrences(s, b) == 2;
      assert a in u && b in u;
      assert |u| == 2;
      assert a == u[0] || a == u[1];
      assert b == u[0] || b == u[1];
    }
  }

  // ---------------------------------------------------------------------------
  // Properties of the rules
  // ---------------------------------------------------------------------------

  /** Upper category k scores k times the number of dice showing k, which may be 0. */
  lemma UpperScore(d: seq<int>, c: Category)
    requires ValidDice(d) && IsUpper(c)
    ensures Score(d, c) == UpperFace(c) * Occurrences(d, UpperFace(c))
    ensures 0 <= Occurrences(d, UpperFace(c)) <= 5
    ensures Score(d, c) == 0 <==> UpperFace(c) !in d
  {
    OccurrencesPositive(d, UpperFace(c));
  }

  /** Choice is the sum of the five dice, between 5 and 30. */
  lemma ChoiceScore(d: seq<int>)
    requires ValidDice(d)
    ensures Score(d, Choice) == Sum(d)
    ensures 5 <= Score(d, Choice) <= 30
  {
  }

  /** Four of a kind scores the whole sum when some face shows at least four times. */
  lemma FourKindScore(d: seq<int>)
    ensures (exists v :: v in d && Occurrences(d, v) >= 4) ==> Score(d, FourKind) == Sum(d)
    ensures !(exists v :: v in d && Occurrences(d, v) >= 4) ==> Score(d, FourKind) == 0
  {
    SomeCountAtLeastIff(d, 4);
  }

  /** Five equal dice also count as four of a kind. */
  lemma FiveEqualIsFourKind(d: seq<int>)
    requires ValidDice(d) && forall i :: 0 <= i < 5 ==> d[i] == d[0]
    ensures Score(d, FourKind) == Sum(d) == 5 * d[0]
  {
    OccurrencesAllSame(d, d[0]);
    SomeCountAtLeastIff(d, 4);
    SumAllSame(d, d[0]);
  }

  /** Full house scores 25 exactly for one face three times and another twice, else 0. */
  lemma FullHouseScore(d: seq<int>)
    requires ValidDice(d)
    ensures Score(d, FullHouse) == 25 <==> ThreeAndTwo(d)
    ensures Score(d, FullHouse) == 0 || Score(d, FullHouse) == 25
  {
    CountsAreTwoThreeIff(d);
    if ThreeAndTwo(d) {
      var a, b :| a in d && b in d && Occurrences(d, a) == 3 && Occurrences(d, b) == 2;
      forall c | c in d
        ensures c == a || c == b
      {
        if c != a && c != b {
          OccurrencesOfThree(d, a, b, c);
          OccurrencesPositive(d, c);
        }
      }
      assert FaceSet(d) == {a, b};
    }
  }

  /** Five of a kind is not a full house. */
  lemma FiveEqualIsNotFullHouse(d: seq<int>)
    requires ValidDice(d) && forall i :: 0 <= i < 5 ==> d[i] == d[0]
    ensures Score(d, FullHouse) == 0
  {
    OccurrencesAllSame(d, d[0]);
    FullHouseScore(d);
    forall a | a in d
      ensures Occurrences(d, a) == 5
    {
    }
  }

  /** A small straight scores 15 exactly when a run of four lies within the faces. */
  lemma SmallStraightScore(d: seq<int>)
    ensures Score(d, SmallStraight) == 15 <==>
      {1, 2, 3, 4} <= FaceSet(d) || {2, 3, 4, 5} <= FaceSet(d) || {3, 4, 5, 6} <= FaceSet(d)
    ensures Score(d, SmallStraight) == 0 || Score(d, SmallStraight) == 15
  {
  }

  lemma SubsetOfEqualSize(x: set<int>, y: set<int>)
    requires x <= y && |x| == |y|
    ensures x == y
  {
    assert y == x + (y - x);
    assert |y - x| == 0;
  }

  /** A large straight scores 30 exactly when the faces are 1-5 or 2-6. */
  lemma LargeStraightScore(d: seq<int>)
    ensures Score(d, LargeStraight) == 30 <==>
      FaceSet(d) == {1, 2, 3, 4, 5} || FaceSet(d) == {2, 3, 4, 5, 6}
    ensures Score(d, LargeStraight) == 0 || Score(d, LargeStraight) == 30
  {
    var f := FaceSet(d);
    assert |{1, 2, 3, 4, 5}| == 5;
    assert |{2, 3, 4, 5, 6}| == 5;
    if |f| == 5 && {1, 2, 3, 4, 5} <= f {
      SubsetOfEqualSize({1, 2, 3, 4, 5}, f);
    }
    if |f| == 5 && {2, 3, 4, 5, 6} <= f {
      SubsetOfEqualSize({2, 3, 4, 5, 6}, f);
    }
  }

  /** Every large straight is also a small straight. */
  lemma LargeImpliesSmall(d: seq<int>)
    requires IsLargeStraight(d)
    ensures IsSmallStraight(d)
  {
  }

  /** Yahtzee scores 50 exactly when all five dice are equal, else 0. */
  lemma YahtzeeScore(d: seq<int>)
    requires ValidDice(d)
    ensures Score(d, Yahtzee) == 50 <==> forall i :: 0 <= i < 5 ==> d[i] == d[0]
    ensures Score(d, Yahtzee) == 0 || Score(d, Yahtzee) == 50
  {
    SomeCountIsIff(d, 5);
    if forall i :: 0 <= i < 5 ==> d[i] == d[0] {
      OccurrencesAllSame(d, d[0]);
    }
    if exists v :: v in d && Occurrences(d, v) == 5 {
      var v :| v in d && Occurrences(d, v) == 5;
      forall i | 0 <= i < 5
        ensures d[i] == v
      {
        if d[i] != v {
          OccurrencesOfTwo(d, v, d[i]);
          OccurrencesPositive(d, d[i]);
        }
      }
    }
  }

  /** Scoring looks only at the multiset of faces, so reordering the dice changes nothing. */
  lemma ScorePermutation(d1: seq<int>, d2: seq<int>, c: Category)
    requires multiset(d1) == multiset(d2)
    ensures Score(d1, c) == Score(d2, c)
  {
    forall v
      ensures Occurrences(d1, v) == Occurrences(d2, v)
    {
      OccurrencesMultiset(d1, v);
      OccurrencesMultiset(d2, v);
    }
    assert forall x :: x in d1 <==> x in d2 by {
      forall x
        ensures x in d1 <==> x in d2
      {
        assert x in d1 <==> x in multiset(d1);
        assert x in d2 <==> x in multiset(d2);
      }
    }
    forall x
      ensures x in FaceSet(d1) <==> x in FaceSet(d2)
    {
    }
    assert FaceSet(d1) == FaceSet(d2);
    SumPermutation(d1, d2);
    SomeCountAtLeastIff(d1, 4);
    SomeCountAtLeastIff(d2, 4);
    SomeCountIsIff(d1, 5);
    SomeCountIsIff(d2, 5);
    CountsAreTwoThreeIff(d1);
    CountsAreTwoThreeIff(d2);
  }

  // ---------------------------------------------------------------------------
  // Totals
  // ---------------------------------------------------------------------------

  /** Scoring a card whose upper section reaches 63 exactly earns the bonus; one short does not. */
  lemma UpperBonusThreshold()
    ensures UpperBonus(map[A := 3, Two := 6, Three := 9, Four := 12, Five := 15, Six := 18]) == 35
    ensures UpperBonus(map[A := 2, Two := 6, Three := 9, Four := 12, Five := 15, Six := 18]) == 0
    ensures Total(map[A := 3, Two := 6, Three := 9, Four := 12, Five := 15, Six := 18, Yahtzee := 50]) == 148
  {
  }

  /** The worked examples beside the ones, twos and threes rules, with the points they earn there. */
  lemma UpperRuleExamples()
    ensures Score([1, 1, 3, 5, 6], A) == 2
    ensures Score([2, 2, 4, 5, 6], Two) == 4
    ensures Score([3, 3, 3, 1, 6], Three) == 9
  {
    OccurrencesMultiset([1, 1, 3, 5, 6], 1);
    OccurrencesMultiset([2, 2, 4, 5, 6], 2);
    OccurrencesMultiset([3, 3, 3, 1, 6], 3);
  }

  /** The worked examples beside the four, five and six rules. */
  lemma HighUpperRuleExamples()
    ensures Score([4, 4, 2, 1, 6], Four) == 8
    ensures Score([5, 5, 5, 2, 1], Five) == 15
    ensures Score([6, 6, 6, 2, 1], Six) == 18
  {
    OccurrencesMultiset([4, 4, 2, 1, 6], 4);
    OccurrencesMultiset([5, 5, 5, 2, 1], 5);
    OccurrencesMultiset([6, 6, 6, 2, 1], 6);
  }

  /** The worked example of Choice: every pip counts. */
  lemma ChoiceExample()
    ensures Score([6, 5, 4, 3, 1], Choice) == 19
  {
    assert [6, 5][..1] == [6];
    assert Sum([6, 5]) == 11;
    assert [6, 5, 4][..2] == [6, 5];
    assert Sum([6, 5, 4]) == 15;
    assert [6, 5, 4, 3][..3] == [6, 5, 4];
    assert Sum([6, 5, 4, 3]) == 18;
    assert [6, 5, 4, 3, 1][..4] == [6, 5, 4, 3];
  }

  /** The worked example of four of a kind: the whole sum, kicker included. */
  lemma FourKindExample()
    ensures Score([2, 2, 2, 2, 5], FourKind) == 13
  {
    assert [2, 2, 2, 2, 5][..4] == [2, 2, 2, 2];
    assert [2, 2, 2, 2][..3] == [2, 2, 2];
    assert [2, 2, 2][..2] == [2, 2];
    assert [2, 2][..1] == [2];
    OccurrencesMultiset([2, 2, 2, 2, 5], 2);
    FourKindScore([2, 2, 2, 2, 5]);
  }

  /** The worked example of a full house. */
  lemma FullHouseExample()
    ensures Score([3, 3, 3, 5, 5], FullHouse) == 25
  {
    OccurrencesMultiset([3, 3, 3, 5, 5], 3);
    OccurrencesMultiset([3, 3, 3, 5, 5], 5);
    FullHouseScore([3, 3, 3, 5, 5]);
  }

  /** The worked examples of the straights: 1-2-3-4-6 is small but not large. */
  lemma StraightExamples()
    ensures Score([1, 2, 3, 4, 6], SmallStraight) == 15
    ensures Score([1, 2, 3, 4, 6], LargeStraight) == 0
    ensures Score([2, 3, 4, 5, 6], LargeStraight) == 30
  {
    assert FaceSet([1, 2, 3, 4, 6]) == {1, 2, 3, 4, 6};
    assert FaceSet([2, 3, 4, 5, 6]) == {2, 3, 4, 5, 6};
    LargeStraightScore([1, 2, 3, 4, 6]);
    LargeStraightScore([2, 3, 4, 5, 6]);
  }

  /** The worked example of a Yahtzee. */
  lemma YahtzeeExample()
    ensures Score([6, 6, 6, 6, 6], Yahtzee) == 50
  {
    YahtzeeScore([6, 6, 6, 6, 6]);
  }
}
