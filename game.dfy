/**
 * Turn and scorecard operations (src/game.js): a fresh scorecard and turn, a
 * roll of the unheld dice, holding a die, the categories still open, filling
 * one, and the end-of-game test.
 */
module Game {
  import opened Scoring

  /** One player's turn: five dice, their hold flags, the rolls left and whether any roll happened. */
  datatype TurnState = TurnState(dice: seq<int>, held: seq<bool>, rollsLeft: int, hasRolled: bool)

  /** Five dice and five hold flags, the shape every turn has. */
  predicate Shaped(t: TurnState) {
    |t.dice| == 5 && |t.held| == 5
  }

  /**
   * The states a turn can reach from `NewTurnState`: legal dice, at most three
   * rolls spent, a roll made exactly when one was spent, and nothing held
   * before the first roll.
   */
  predicate ValidTurn(t: TurnState) {
    ValidDice(t.dice) && |t.held| == 5 && 0 <= t.rollsLeft <= 3
    && (t.hasRolled <==> t.rollsLeft < 3)
    && (!t.hasRolled ==> forall i :: 0 <= i < 5 ==> !t.held[i])
  }

  /** `newScorecard`: every category unfilled. */
  function NewScorecard(): (sc: Scorecard)
    ensures forall c :: c !in sc
    ensures Total(sc) == 0
  {
    map[]
  }

  /** `newTurnState`: five ones, nothing held, three rolls left, not yet rolled. */
  function NewTurnState(): (t: TurnState)
    ensures ValidTurn(t) && t.rollsLeft == 3 && !t.hasRolled
  {
    TurnState([1, 1, 1, 1, 1], [false, false, false, false, false], 3, false)
  }

  /** `1 + Math.floor(Math.random() * 6)` for the value `r` the random source returned. */
  function DrawFace(r: real): (f: int)
    ensures 0.0 <= r < 1.0 ==> 1 <= f <= 6
  {
    1 + (r * 6.0).Floor
  }

  /** Every value the random source hands out lies in [0, 1). */
  ghost predicate ValidDraws(draw: nat -> real) {
    forall i :: 0.0 <= draw(i) < 1.0
  }

  /** The dice after a roll: held dice keep their face, die `i` otherwise shows `DrawFace(draw(i))`. */
  function Reroll(t: TurnState, draw: nat -> real): seq<int>
    requires Shaped(t)
  {
    seq(5, i requires 0 <= i < 5 => if t.held[i] then t.dice[i] else DrawFace(draw(i)))
  }

  /** `rollDice` as a value: a no-op once the rolls are spent, else one roll spent, the hold flags
    * and the held dice kept, and each other die showing the face drawn for it. */
  function Rolled(t: TurnState, draw: nat -> real): (r: TurnState)
    requires Shaped(t)
    ensures Shaped(r) && r.held == t.held
    ensures t.rollsLeft <= 0 ==> r == t
    ensures t.rollsLeft > 0 ==> r.rollsLeft == t.rollsLeft - 1 && r.hasRolled
    ensures t.rollsLeft > 0 ==>
      forall i :: 0 <= i < 5 ==> r.dice[i] == if t.held[i] then t.dice[i] else DrawFace(draw(i))
  {
    if t.rollsLeft <= 0 then t
    else t.(dice := Reroll(t, draw), rollsLeft := t.rollsLeft - 1, hasRolled := true)
  }

  /** `rollDice`: the loop over the five dice, on a copy of the turn. */
  method RollDice(t: TurnState, draw: nat -> real) returns (next: TurnState)
    requires Shaped(t)
    ensures next == Rolled(t, draw)
  {
    if t.rollsLeft <= 0 {
      return t;
    }
    var dice := t.dice;
    for i := 0 to 5
      invariant |dice| == 5
      invariant forall j :: 0 <= j < i ==> dice[j] == Reroll(t, draw)[j]
      invariant forall j :: i <= j < 5 ==> dice[j] == t.dice[j]
    {
      if !t.held[i] {
        dice := dice[i := DrawFace(draw(i))];
      }
    }
    next := t.(dice := dice, rollsLeft := t.rollsLeft - 1, hasRolled := true);
  }

  /** A roll keeps the turn valid, keeps every held die and every hold flag, and spends one roll. */
  lemma RollPreservesValid(t: TurnState, draw: nat -> real)
    requires ValidTurn(t) && ValidDraws(draw)
    ensures ValidTurn(Rolled(t, draw))
    ensures Rolled(t, draw).held == t.held
    ensures forall i :: 0 <= i < 5 && t.held[i] ==> Rolled(t, draw).dice[i] == t.dice[i]
    ensures t.rollsLeft > 0 ==> Rolled(t, draw).rollsLeft == t.rollsLeft - 1 && Rolled(t, draw).hasRolled
    ensures t.rollsLeft == 0 ==> Rolled(t, draw) == t
  {
    if t.rollsLeft > 0 {
      var d := Reroll(t, draw);
      forall i | 0 <= i < 5
        ensures 1 <= d[i] <= 6
      {
        if !t.held[i] {
          assert 0.0 <= draw(i) < 1.0;
        }
      }
    }
  }

  /** Three rolls use up a fresh turn; a fourth changes nothing. */
  lemma ThreeRolls(d1: nat -> real, d2: nat -> real, d3: nat -> real, d4: nat -> real)
    ensures Rolled(Rolled(Rolled(NewTurnState(), d1), d2), d3).rollsLeft == 0
    ensures var t := Rolled(Rolled(Rolled(NewTurnState(), d1), d2), d3); Rolled(t, d4) == t
  {
  }

  /** `toggleHold`: flips one die's hold flag, but only after the first roll. */
  function ToggleHold(t: TurnState, idx: int): (r: TurnState)
    requires Shaped(t) && 0 <= idx < 5
    ensures Shaped(r) && r.dice == t.dice && r.rollsLeft == t.rollsLeft && r.hasRolled == t.hasRolled
    ensures !t.hasRolled ==> r.held == t.held
    ensures t.hasRolled ==> r.held[idx] == !t.held[idx]
    ensures forall j :: 0 <= j < 5 && j != idx ==> r.held[j] == t.held[j]
  {
    if !t.hasRolled then t else t.(held := t.held[idx := !t.held[idx]])
  }

  /** Toggling the same die twice restores the turn. */
  lemma ToggleTwice(t: TurnState, idx: int)
    requires Shaped(t) && 0 <= idx < 5
    ensures ToggleHold(ToggleHold(t, idx), idx) == t
  {
    var r := ToggleHold(ToggleHold(t, idx), idx);
    assert r.held == t.held;
  }

  /** Holding never breaks a valid turn. */
  lemma TogglePreservesValid(t: TurnState, idx: int)
    requires ValidTurn(t) && 0 <= idx < 5
    ensures ValidTurn(ToggleHold(t, idx))
  {
  }

  /** The categories of `cs` that are not yet in the scorecard, in the order of `cs`. */
  function Unfilled(sc: Scorecard, cs: seq<Category>): (r: seq<Category>)
    ensures forall c :: c in r <==> c in cs && c !in sc
    decreases |cs|
  {
    if |cs| == 0 then []
    else
      var c := cs[|cs| - 1];
      assert cs == cs[..|cs| - 1] + [c];
      if c !in sc then Unfilled(sc, cs[..|cs| - 1]) + [c] else Unfilled(sc, cs[..|cs| - 1])
  }

  /** Strictly increasing CATS positions. */
  predicate Ordered(cs: seq<Category>) {
    forall i, j :: 0 <= i < j < |cs| ==> CatIndex(cs[i]) < CatIndex(cs[j])
  }

  /** Filtering keeps the order of an ordered list. */
  lemma {:induction false} UnfilledOrdered(sc: Scorecard, cs: seq<Category>)
    requires Ordered(cs)
    ensures Ordered(Unfilled(sc, cs))
    decreases |cs|
  {
    if |cs| > 0 {
      var p := cs[..|cs| - 1];
      var c := cs[|cs| - 1];
      assert Ordered(p);
      UnfilledOrdered(sc, p);
      var r' := Unfilled(sc, p);
      if c !in sc {
        forall x | x in r'
          ensures CatIndex(x) < CatIndex(c)
        {
          var k :| 0 <= k < |p| && p[k] == x;
        }
        assert forall i :: 0 <= i < |r'| ==> r'[i] in r';
      }
    }
  }

  /** With nothing filled, filtering keeps every category. */
  lemma {:induction false} UnfilledNothingFilled(cs: seq<Category>)
    ensures Unfilled(map[], cs) == cs
    decreases |cs|
  {
    if |cs| > 0 {
      UnfilledNothingFilled(cs[..|cs| - 1]);
      assert cs == cs[..|cs| - 1] + [cs[|cs| - 1]];
    }
  }

  lemma InCats(c: Category)
    ensures c in Cats
  {
    assert Cats[CatIndex(c)] == c;
  }

  /** CATS is listed in strictly increasing position. */
  lemma CatsOrdered()
    ensures Ordered(Cats)
  {
    assert forall i :: 0 <= i < |Cats| ==> CatIndex(Cats[i]) == i;
  }

  /** `availableCats`: the unfilled categories in CATS order. */
  function AvailableCats(sc: Scorecard): (r: seq<Category>)
    ensures forall c :: c in r <==> c !in sc
    ensures Ordered(r)
  {
    CatsOrdered();
    UnfilledOrdered(sc, Cats);
    forall c
      ensures c in Cats
    {
      InCats(c);
    }
    Unfilled(sc, Cats)
  }

  /** Every category, as a set. */
  const AllCats: set<Category> := set c | c in Cats

  lemma AllCatsSize()
    ensures |AllCats| == 12
    ensures forall c :: c in AllCats
  {
    CatsOrdered();
    NoDupCard(Cats);
    forall c
      ensures c in AllCats
    {
      InCats(c);
    }
  }

  /** There are as many open categories as the twelve minus the filled ones. */
  lemma AvailableCount(sc: Scorecard)
    ensures |AvailableCats(sc)| + |sc.Keys| == 12
  {
    var r := AvailableCats(sc);
    NoDupCard(r);
    AllCatsSize();
    assert (set x | x in r) == AllCats - sc.Keys;
    assert sc.Keys <= AllCats;
  }

  /** A fresh scorecard offers every category in CATS order. */
  lemma NewScorecardOffersAll()
    ensures AvailableCats(NewScorecard()) == Cats
  {
    UnfilledNothingFilled(Cats);
  }

  /** `commitCategory`: fills an open category with the roll's score; a filled one is left alone. */
  function CommitCategory(sc: Scorecard, dice: seq<int>, cat: Category): (r: Scorecard)
    ensures cat in r && r[cat] == (if cat in sc then sc[cat] else Score(dice, cat))
    ensures forall c :: c != cat ==> (c in r <==> c in sc) && (c in sc ==> r[c] == sc[c])
  {
    if cat in sc then sc else sc[cat := Score(dice, cat)]
  }

  /** Committing twice to the same category changes nothing the second time. */
  lemma CommitIdempotent(sc: Scorecard, d1: seq<int>, d2: seq<int>, cat: Category)
    ensures CommitCategory(CommitCategory(sc, d1, cat), d2, cat) == CommitCategory(sc, d1, cat)
  {
  }

  /** Committing to an open category closes exactly that one. */
  lemma CommitClosesOne(sc: Scorecard, dice: seq<int>, cat: Category)
    requires cat in AvailableCats(sc)
    ensures forall c :: c in AvailableCats(CommitCategory(sc, dice, cat)) <==> c in AvailableCats(sc) && c != cat
    ensures |AvailableCats(CommitCategory(sc, dice, cat))| == |AvailableCats(sc)| - 1
  {
    var r := CommitCategory(sc, dice, cat);
    assert r.Keys == sc.Keys + {cat};
    AvailableCount(sc);
    AvailableCount(r);
  }

  /** Filling an open category with legal dice raises the total by at least its score. */
  lemma CommitRaisesTotal(sc: Scorecard, dice: seq<int>, cat: Category)
    requires cat !in sc && ValidDice(dice)
    ensures Total(CommitCategory(sc, dice, cat)) >= Total(sc) + Score(dice, cat)
    ensures !IsUpper(cat) ==> Total(CommitCategory(sc, dice, cat)) == Total(sc) + Score(dice, cat)
    ensures IsUpper(cat) ==> UpperSum(CommitCategory(sc, dice, cat)) == UpperSum(sc) + Score(dice, cat)
  {
    FillSplits(sc, cat, Score(dice, cat));
  }

  /** Filling an open category adds its points to the upper or to the lower sum. */
  lemma FillSplits(sc: Scorecard, cat: Category, v: int)
    requires cat !in sc
    ensures UpperSum(sc[cat := v]) == UpperSum(sc) + (if IsUpper(cat) then v else 0)
    ensures LowerSum(sc[cat := v]) == LowerSum(sc) + (if IsUpper(cat) then 0 else v)
  {
    FilledUpdate(sc, cat, v, A);
    FilledUpdate(sc, cat, v, Two);
    FilledUpdate(sc, cat, v, Three);
    FilledUpdate(sc, cat, v, Four);
    FilledUpdate(sc, cat, v, Five);
    FilledUpdate(sc, cat, v, Six);
    FilledUpdate(sc, cat, v, Choice);
    FilledUpdate(sc, cat, v, FourKind);
    FilledUpdate(sc, cat, v, FullHouse);
    FilledUpdate(sc, cat, v, SmallStraight);
    FilledUpdate(sc, cat, v, LargeStraight);
    FilledUpdate(sc, cat, v, Yahtzee);
  }

  /** Recording `v` for `cat` changes that one slot and no other. */
  lemma FilledUpdate(sc: Scorecard, cat: Category, v: int, c: Category)
    requires cat !in sc
    ensures Filled(sc[cat := v], c) == Filled(sc, c) + (if c == cat then v else 0)
  {
  }

  /** `isComplete`: no category left to fill. */
  function IsComplete(sc: Scorecard): (b: bool)
    ensures b <==> forall c :: c in sc
    ensures b <==> |sc.Keys| == 12
  {
    AvailableCount(sc);
    AllCatsSize();
    if |AvailableCats(sc)| == 0 then
      true
    else
      assert AvailableCats(sc)[0] !in sc;
      false
  }
}
