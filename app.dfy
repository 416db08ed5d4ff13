/**
 * The match between the player and the computer: the order in which the open categories are
 * offered, and the event handlers that move the match from round to round and record its result.
 */
module App {
  import opened Wrappers
  import opened Scoring
  import opened Game
  import opened Cpu
  import opened Storage
  import opened Achievements

  // ---------------------------------------------------------------------------------------------
  // Category priorities
  // ---------------------------------------------------------------------------------------------

  /** The string each category stands for (the values of `CATS`). */
  function CatValue(c: Category): string {
    match c
    case A => "A"
    case Two => "2"
    case Three => "3"
    case Four => "4"
    case Five => "5"
    case Six => "6"
    case Choice => "CHOICE"
    case FourKind => "FOUR_KIND"
    case FullHouse => "FULL_HOUSE"
    case SmallStraight => "SMALL_STRAIGHT"
    case LargeStraight => "LARGE_STRAIGHT"
    case Yahtzee => "YAHTZEE"
  }

  /** `CAT_PRIORITY` as written: an object keyed by the property names of `CATS`. */
  const PriorityTable: map<string, int> :=
    map["YAHTZEE" := 120, "FOUR_KIND" := 110, "LARGE_STRAIGHT" := 100, "SMALL_STRAIGHT" := 90,
        "FULL_HOUSE" := 80, "CHOICE" := 70, "A" := 6, "TWO" := 5, "THREE" := 4, "FOUR" := 3,
        "FIVE" := 2, "SIX" := 1]

  /** `CAT_PRIORITY[cat] ?? 0` as written: the table is looked up with the category's value, so
    * each category gets its intended priority except the categories 2 to 6, which get 0. */
  function WrittenPriority(c: Category): (p: int)
    ensures p == if c in {Two, Three, Four, Five, Six} then 0 else Priority(c)
  {
    TableLookup(c);
    var key := CatValue(c);
    if key in PriorityTable then PriorityTable[key] else 0
  }

  /** The table has no key for the values of the categories 2 to 6, and the intended priority
    * under the value of every other category. */
  lemma TableLookup(c: Category)
    ensures CatValue(c) in PriorityTable <==> c !in {Two, Three, Four, Five, Six}
    ensures CatValue(c) in PriorityTable ==> PriorityTable[CatValue(c)] == Priority(c)
  {
    match c
    case Two => assert "2" !in PriorityTable;
    case Three => assert "3" !in PriorityTable;
    case Four => assert "4" !in PriorityTable;
    case Five => assert "5" !in PriorityTable;
    case Six => assert "6" !in PriorityTable;
    case _ =>
  }

  /** The lookup misses for the categories 2 to 6, whose values ("2".."6") are not keys of the
    * table, so five categories share priority 0 and the priorities are not distinct. */
  lemma WrittenPriorityCollides()
    ensures WrittenPriority(Two) == 0 && WrittenPriority(Three) == 0 && WrittenPriority(Four) == 0
    ensures WrittenPriority(Five) == 0 && WrittenPriority(Six) == 0
    ensures exists c, d :: c != d && WrittenPriority(c) == WrittenPriority(d)
  {
    assert Two != Three && WrittenPriority(Two) == WrittenPriority(Three);
  }

  /** The priority the table is meant to give, keyed by category. */
  function Priority(c: Category): (p: int)
    ensures 1 <= p <= 120
  {
    match c
    case Yahtzee => 120
    case FourKind => 110
    case LargeStraight => 100
    case SmallStraight => 90
    case FullHouse => 80
    case Choice => 70
    case A => 6
    case Two => 5
    case Three => 4
    case Four => 3
    case Five => 2
    case Six => 1
  }

  /** The intended priorities are pairwise distinct. */
  lemma PriorityInjective(c: Category, d: Category)
    ensures Priority(c) == Priority(d) <==> c == d
  {
  }

  /** On a list in `CATS` order, sorted stably, the table as written places every pair of
    * categories with equal points as the intended table does: a later category overtakes an
    * earlier one under the written priorities exactly when it does under the intended ones. */
  lemma WrittenOrderAgrees(c: Category, d: Category)
    requires CatIndex(c) < CatIndex(d)
    ensures WrittenPriority(d) > WrittenPriority(c) <==> Priority(d) > Priority(c)
  {
  }

  // ---------------------------------------------------------------------------------------------
  // The offered category list
  // ---------------------------------------------------------------------------------------------

  /** One entry of the offered list: a category and the points it would score now. */
  datatype Item = Item(cat: Category, pts: int)

  /** `x` may stand before `y`: more points, or as many points and no lower priority. */
  predicate Ahead(x: Item, y: Item) {
    x.pts > y.pts || (x.pts == y.pts && Priority(x.cat) >= Priority(y.cat))
  }

  predicate SortedItems(s: seq<Item>) {
    forall i, j :: 0 <= i < j < |s| ==> Ahead(s[i], s[j])
  }

  /** The entries before sorting: every open category with its current points, 0 before the first roll. */
  function ItemsOf(cats: seq<Category>, t: TurnState): (r: seq<Item>)
    ensures |r| == |cats|
    ensures forall i :: 0 <= i < |r| ==> r[i].cat == cats[i]
    ensures !t.hasRolled ==> forall i :: 0 <= i < |r| ==> r[i].pts == 0
    ensures t.hasRolled ==> forall i :: 0 <= i < |r| ==> r[i].pts == Score(t.dice, cats[i])
  {
    seq(|cats|, i requires 0 <= i < |cats| => Item(cats[i], if t.hasRolled then Score(t.dice, cats[i]) else 0))
  }

  /** The in-place sort of `renderCats`: stable, by points and then priority, both descending. */
  method SortItems(a: array<Item>)
    modifies a
    ensures SortedItems(a[..])
    ensures multiset(a[..]) == multiset(old(a[..]))
  {
    for i := 0 to a.Length
      invariant forall k, l :: 0 <= k < l < i ==> Ahead(a[k], a[l])
      invariant multiset(a[..]) == multiset(old(a[..]))
    {
      InsertAt(a, i);
    }
  }

  /** One pass of the sort: `a[i]` moves down past the entries it must stand before, so the first
    * `i + 1` entries are in order. */
  method InsertAt(a: array<Item>, i: nat)
    requires i < a.Length
    requires forall k, l :: 0 <= k < l < i ==> Ahead(a[k], a[l])
    modifies a
    ensures forall k, l :: 0 <= k < l <= i ==> Ahead(a[k], a[l])
    ensures multiset(a[..]) == multiset(old(a[..]))
  {
    var j := i;
    while j > 0 && !Ahead(a[j - 1], a[j])
      invariant 0 <= j <= i
      invariant forall k, l :: 0 <= k < l <= i && k != j && l != j ==> Ahead(a[k], a[l])
      invariant forall l :: j < l <= i ==> Ahead(a[j], a[l])
      invariant multiset(a[..]) == multiset(old(a[..]))
    {
      a[j - 1], a[j] := a[j], a[j - 1];
      j := j - 1;
    }
  }

  /** The list `renderCats` offers: the open categories with their points, best first. */
  method OfferedItems(sc: Scorecard, t: TurnState) returns (items: seq<Item>)
    ensures multiset(items) == multiset(ItemsOf(AvailableCats(sc), t))
    ensures SortedItems(items)
  {
    var av := AvailableCats(sc);
    var entries := ItemsOf(av, t);
    var a := new Item[|entries|](i requires 0 <= i < |entries| => entries[i]);
    assert a[..] == entries;
    SortItems(a);
    items := a[..];
  }

  /** The offered list holds exactly the open categories, each once with its current points, and
    * its first entry is the best; as priorities are distinct, it is strictly better than the rest. */
  lemma OfferedIsBest(sc: Scorecard, t: TurnState, items: seq<Item>)
    requires multiset(items) == multiset(ItemsOf(AvailableCats(sc), t))
    requires SortedItems(items)
    ensures |items| == |AvailableCats(sc)|
    ensures forall c :: (exists k :: 0 <= k < |items| && items[k].cat == c) <==> c !in sc
    ensures forall k :: 0 <= k < |items| ==>
              items[k].pts == (if t.hasRolled then Score(t.dice, items[k].cat) else 0)
    ensures forall k :: 0 < k < |items| ==>
              items[0].pts > items[k].pts
              || (items[0].pts == items[k].pts && Priority(items[0].cat) > Priority(items[k].cat))
  {
    OfferedEntries(sc, t, items);
    OfferedCoversOpen(sc, t, items);
    forall k | 0 < k < |items|
      ensures items[0].pts > items[k].pts
              || (items[0].pts == items[k].pts && Priority(items[0].cat) > Priority(items[k].cat))
    {
      assert Ahead(items[0], items[k]);
      DistinctCats(sc, t, items, 0, k);
      PriorityInjective(items[0].cat, items[k].cat);
    }
  }

  /** A reordering of the entries has as many entries, and each of them is one of the entries. */
  lemma OfferedEntries(sc: Scorecard, t: TurnState, items: seq<Item>)
    requires multiset(items) == multiset(ItemsOf(AvailableCats(sc), t))
    ensures |items| == |AvailableCats(sc)|
    ensures forall k :: 0 <= k < |items| ==> items[k] in ItemsOf(AvailableCats(sc), t)
  {
    var entries := ItemsOf(AvailableCats(sc), t);
    assert |items| == |multiset(items)| == |multiset(entries)| == |entries|;
    forall k | 0 <= k < |items|
      ensures items[k] in entries
    {
      assert items[k] in multiset(items);
    }
  }

  /** Every open category has an entry in a reordering of the entries. */
  lemma OfferedCoversOpen(sc: Scorecard, t: TurnState, items: seq<Item>)
    requires multiset(items) == multiset(ItemsOf(AvailableCats(sc), t))
    ensures forall c :: c !in sc ==> exists k :: 0 <= k < |items| && items[k].cat == c
  {
    var entries := ItemsOf(AvailableCats(sc), t);
    forall c | c !in sc
      ensures exists k :: 0 <= k < |items| && items[k].cat == c
    {
      var i := FindIndex(AvailableCats(sc), c);
      assert entries[i] in multiset(items);
      var k :| 0 <= k < |items| && items[k] == entries[i];
    }
  }

  /** An index of `c` in `s`. */
  lemma FindIndex(s: seq<Category>, c: Category) returns (i: nat)
    requires c in s
    ensures i < |s| && s[i] == c
  {
    i :| 0 <= i < |s| && s[i] == c;
  }

  /** Two positions of the offered list hold different categories. */
  lemma DistinctCats(sc: Scorecard, t: TurnState, items: seq<Item>, k: nat, l: nat)
    requires multiset(items) == multiset(ItemsOf(AvailableCats(sc), t))
    requires k < l < |items|
    ensures items[k].cat != items[l].cat
  {
    var av := AvailableCats(sc);
    var entries := ItemsOf(av, t);
    if items[k].cat == items[l].cat {
      assert items[k] in multiset(entries);
      var i :| 0 <= i < |entries| && entries[i] == items[k];
      assert items[l] in multiset(entries);
      var j :| 0 <= j < |entries| && entries[j] == items[l];
      assert av[i] == av[j];
      assert i == j;
      TwoCopies(items, k, l);
      OrderedOnce(av, entries, i);
      assert false;
    }
  }

  /** Two equal elements at different positions count twice in the multiset. */
  lemma TwoCopies(s: seq<Item>, k: nat, l: nat)
    requires k < l < |s| && s[k] == s[l]
    ensures multiset(s)[s[k]] >= 2
  {
    assert s == s[..k] + [s[k]] + s[k + 1..l] + [s[l]] + s[l + 1..];
  }

  /** An entry built from an ordered list of categories occurs there once. */
  lemma OrderedOnce(av: seq<Category>, entries: seq<Item>, i: nat)
    requires Ordered(av) && |entries| == |av| && i < |av|
    requires forall n :: 0 <= n < |entries| ==> entries[n].cat == av[n]
    ensures multiset(entries)[entries[i]] == 1
  {
    var e := entries[i];
    assert entries == entries[..i] + [e] + entries[i + 1..];
    assert e !in entries[..i];
    assert e !in entries[i + 1..];
  }

  // ---------------------------------------------------------------------------------------------
  // The match
  // ---------------------------------------------------------------------------------------------

  /** Whose move it is: the player's, or the computer's turn has just been played. */
  datatype Phase = PlayerPhase | CpuPhase

  /** The screens the match moves between. */
  datatype Screen = TitleScreen | ModeScreen | BattleScreen | ResultScreen

  datatype Verdict = Win | Loss | Draw

  /** What `showResult` reports: the verdict, the achievements unlocked in ascending order, and
    * whether this game opened the secret mode. */
  datatype Outcome = Outcome(verdict: Verdict, newly: seq<nat>, secretOpened: bool)

  /** The verdict of `showResult`: a win on a higher total, a loss on a lower one, else a draw. */
  function VerdictOf(pTotal: int, cTotal: int): (v: Verdict)
    ensures v == Win <==> pTotal > cTotal
    ensures v == Loss <==> pTotal < cTotal
    ensures v == Draw <==> pTotal == cTotal
  {
    if pTotal < cTotal then Loss else if pTotal > cTotal then Win else Draw
  }

  /** A draw is recorded as a loss: the win flag passed to `recordResult` is off. */
  lemma DrawCountsAsLoss(d: ModeData, pTotal: int, cTotal: int)
    requires VerdictOf(pTotal, cTotal) == Draw
    ensures Recorded(d, pTotal > cTotal, pTotal).losses == d.losses + 1
    ensures Recorded(d, pTotal > cTotal, pTotal).wins == d.wins
  {
  }

  /** The state of one match and the handlers of its events. */
  class Match {
    var mode: string
    var round: int
    var pScore: Scorecard
    var cScore: Scorecard
    var turn: TurnState
    var phase: Phase
    var lastCpu: Option<CpuTurn>
    var screen: Screen
    const store: Store

    /**
     * In the player's phase both cards have `round - 1` categories filled and no computer turn is
     * shown; once the computer has played, both have `round` filled. So `round` stays within 1..12.
     */
    ghost predicate Valid()
      reads this
    {
      1 <= round <= 12 && ValidTurn(turn)
      && (phase == PlayerPhase ==>
            |pScore.Keys| == round - 1 && |cScore.Keys| == round - 1 && lastCpu == None)
      && (phase == CpuPhase ==>
            |pScore.Keys| == round && |cScore.Keys| == round
            && lastCpu.Some? && lastCpu.value.nextScorecard == cScore)
    }

    /** The state when the page loads: mode "normal", a fresh match and the title screen. */
    constructor(store: Store)
      ensures Valid() && this.store == store
      ensures mode == "normal" && round == 1 && pScore == NewScorecard() && cScore == NewScorecard()
      ensures turn == NewTurnState() && phase == PlayerPhase && lastCpu == None && screen == TitleScreen
    {
      this.store := store;
      mode := "normal";
      round := 1;
      pScore := NewScorecard();
      cScore := NewScorecard();
      turn := NewTurnState();
      phase := PlayerPhase;
      lastCpu := None;
      screen := TitleScreen;
    }

    /** `resetMatch`: round 1, two empty cards, a fresh turn, the player to move. */
    method ResetMatch()
      modifies this
      ensures Valid()
      ensures round == 1 && pScore == NewScorecard() && cScore == NewScorecard()
      ensures turn == NewTurnState() && phase == PlayerPhase && lastCpu == None
      ensures mode == old(mode) && screen == old(screen)
    {
      round := 1;
      pScore := NewScorecard();
      cScore := NewScorecard();
      turn := NewTurnState();
      phase := PlayerPhase;
      lastCpu := None;
    }

    /** `resignToTitle` once the confirmation is answered: a resignation resets the match and goes
      * to the title without recording anything. */
    method Resign(confirmed: bool)
      modifies this
      ensures !confirmed ==> unchanged(this)
      ensures confirmed ==>
        Valid() && round == 1 && pScore == NewScorecard() && cScore == NewScorecard()
        && turn == NewTurnState() && phase == PlayerPhase && lastCpu == None
        && mode == old(mode) && screen == TitleScreen
      ensures unchanged(store)
    {
      if !confirmed {
        return;
      }
      ResetMatch();
      screen := TitleScreen;
    }

    /** A mode card: play against `m` from a fresh match. */
    method SelectMode(m: string)
      modifies this
      ensures Valid() && mode == m && screen == BattleScreen
      ensures round == 1 && pScore == NewScorecard() && cScore == NewScorecard()
      ensures turn == NewTurnState() && phase == PlayerPhase && lastCpu == None
    {
      mode := m;
      ResetMatch();
      screen := BattleScreen;
    }

    /** The retry button: a fresh match in the same mode. */
    method Retry()
      modifies this
      ensures Valid() && mode == old(mode) && screen == BattleScreen
      ensures round == 1 && pScore == NewScorecard() && cScore == NewScorecard()
      ensures turn == NewTurnState() && phase == PlayerPhase && lastCpu == None
    {
      ResetMatch();
      screen := BattleScreen;
    }

    /** The to-title button: a fresh match and the title screen. */
    method ToTitle()
      modifies this
      ensures Valid() && mode == old(mode) && screen == TitleScreen
      ensures round == 1 && pScore == NewScorecard() && cScore == NewScorecard()
      ensures turn == NewTurnState() && phase == PlayerPhase && lastCpu == None
    {
      ResetMatch();
      screen := TitleScreen;
    }

    /** The roll button, with `draw` standing for `Math.random`, drawn once for each die that is not
      * held: ignored unless it is the player's move. */
    method Roll(draw: nat -> real)
      requires Valid() && ValidDraws(draw)
      modifies this
      ensures Valid()
      ensures old(phase) != PlayerPhase ==> unchanged(this)
      ensures old(phase) == PlayerPhase ==>
        turn == Rolled(old(turn), draw) && round == old(round) && phase == old(phase)
        && pScore == old(pScore) && cScore == old(cScore) && lastCpu == old(lastCpu)
        && mode == old(mode) && screen == old(screen)
    {
      if phase != PlayerPhase {
        return;
      }
      RollPreservesValid(turn, draw);
      turn := RollDice(turn, draw);
    }

    /** A click on die `i`; the dice can only be clicked in the player's view. */
    method ToggleDie(i: int)
      requires Valid() && 0 <= i < 5
      modifies this
      ensures Valid()
      ensures old(phase) != PlayerPhase ==> unchanged(this)
      ensures old(phase) == PlayerPhase ==>
        turn == ToggleHold(old(turn), i) && round == old(round) && phase == old(phase)
        && pScore == old(pScore) && cScore == old(cScore) && lastCpu == old(lastCpu)
        && mode == old(mode) && screen == old(screen)
    {
      if phase != PlayerPhase {
        return;
      }
      TogglePreservesValid(turn, i);
      turn := ToggleHold(turn, i);
    }

    /**
     * A click on the offered category `cat` once the confirmation is answered: accepted only in
     * the player's phase after the first roll. The player's score is written and the computer
     * plays its turn straight away (`dd` and `sd` stand for its random draws).
     */
    method ClickCategory(cat: Category, confirmed: bool, dd: (nat, nat) -> real, sd: nat -> real)
      requires Valid() && cat !in pScore && ValidOracle(dd)
      modifies this
      ensures Valid()
      ensures !(old(phase) == PlayerPhase && old(turn.hasRolled) && confirmed) ==> unchanged(this)
      ensures old(phase) == PlayerPhase && old(turn.hasRolled) && confirmed ==>
        pScore == old(pScore)[cat := Score(old(turn.dice), cat)]
        && lastCpu == Some(CpuPlay(old(cScore), mode, dd, sd))
        && cScore == CpuPlay(old(cScore), mode, dd, sd).nextScorecard
        && phase == CpuPhase && round == old(round) && turn == old(turn)
        && mode == old(mode) && screen == old(screen)
    {
      if phase != PlayerPhase {
        return;
      }
      if !turn.hasRolled {
        return;
      }
      if !confirmed {
        return;
      }
      CommitPlayer(cat);
      CpuPlayFillsOne(cScore, mode, dd, sd);
      AvailableCount(cScore);
      DoCpuTurn(dd, sd);
      AvailableCount(cScore);
    }

    /** The player's half of `clickCategory`: the rolled dice are scored into `cat`, one more category filled. */
    method CommitPlayer(cat: Category)
      requires cat !in pScore
      modifies this
      ensures pScore == old(pScore)[cat := Score(old(turn.dice), cat)] && |pScore.Keys| == |old(pScore).Keys| + 1
      ensures round == old(round) && cScore == old(cScore) && turn == old(turn) && phase == old(phase)
      ensures lastCpu == old(lastCpu) && mode == old(mode) && screen == old(screen)
    {
      assert pScore[cat := Score(turn.dice, cat)].Keys == pScore.Keys + {cat};
      pScore := CommitCategory(pScore, turn.dice, cat);
    }

    /** `doCpuTurn`: the computer plays on its card, which is replaced by the result. */
    method DoCpuTurn(dd: (nat, nat) -> real, sd: nat -> real)
      modifies this
      ensures lastCpu.Some? && lastCpu.value == CpuPlay(old(cScore), old(mode), dd, sd)
      ensures cScore == lastCpu.value.nextScorecard && phase == CpuPhase
      ensures round == old(round) && pScore == old(pScore) && turn == old(turn)
      ensures mode == old(mode) && screen == old(screen)
    {
      var c, m := cScore, mode;
      var r := CpuPlayTurn(c, m, dd, sd);
      Install(r);
    }

    /** Record the computer's turn in the match state. */
    method Install(r: CpuTurn)
      modifies this
      ensures lastCpu == Some(r) && cScore == r.nextScorecard && phase == CpuPhase
      ensures round == old(round) && pScore == old(pScore) && turn == old(turn)
      ensures mode == old(mode) && screen == old(screen)
    {
      lastCpu := Some(r);
      cScore := r.nextScorecard;
      phase := CpuPhase;
    }

    /**
     * The next-round button: ignored unless the computer has just played. When both cards are
     * complete the result is shown, otherwise the next round starts.
     */
    method NextRound() returns (result: Option<Outcome>)
      requires Valid()
      modifies this, store
      ensures Valid()
      ensures old(phase) != CpuPhase ==> unchanged(this) && unchanged(store) && result == None
      ensures old(phase) == CpuPhase ==>
        (result.Some? <==> IsComplete(old(pScore)) && IsComplete(old(cScore)))
      ensures old(phase) == CpuPhase && result.None? ==>
        round == old(round) + 1 && turn == NewTurnState() && phase == PlayerPhase && lastCpu == None
        && pScore == old(pScore) && cScore == old(cScore) && mode == old(mode)
        && screen == old(screen) && unchanged(store)
      ensures old(phase) == CpuPhase && result.Some? ==>
        result.value.verdict == VerdictOf(Total(old(pScore)), Total(old(cScore)))
        && Recording(old(store.records), old(store.flags), store.records, store.flags, old(mode),
                     Summary(old(pScore), old(cScore)), Total(old(pScore)),
                     result.value.newly, result.value.secretOpened)
        && screen == ResultScreen && round == old(round) && pScore == old(pScore) && cScore == old(cScore)
        && turn == old(turn) && phase == old(phase) && lastCpu == old(lastCpu) && mode == old(mode)
    {
      result := None;
      if phase != CpuPhase {
        return;
      }
      var o := NextRoundOrResult();
      result := o;
    }

    /** `nextRoundOrResult`. */
    method NextRoundOrResult() returns (result: Option<Outcome>)
      requires Valid() && phase == CpuPhase
      modifies this, store
      ensures Valid()
      ensures result.Some? <==> IsComplete(old(pScore)) && IsComplete(old(cScore))
      ensures result.None? ==>
        round == old(round) + 1 && turn == NewTurnState() && phase == PlayerPhase && lastCpu == None
        && pScore == old(pScore) && cScore == old(cScore) && mode == old(mode)
        && screen == old(screen) && unchanged(store)
      ensures result.Some? ==>
        result.value.verdict == VerdictOf(Total(old(pScore)), Total(old(cScore)))
        && Recording(old(store.records), old(store.flags), store.records, store.flags, old(mode),
                     Summary(old(pScore), old(cScore)), Total(old(pScore)),
                     result.value.newly, result.value.secretOpened)
        && screen == ResultScreen && round == old(round) && pScore == old(pScore) && cScore == old(cScore)
        && turn == old(turn) && phase == old(phase) && lastCpu == old(lastCpu) && mode == old(mode)
    {
      if IsComplete(pScore) && IsComplete(cScore) {
        var o := ShowResult();
        result := Some(o);
        return;
      }
      AvailableCount(pScore);
      AvailableCount(cScore);
      result := None;
      BeginNextRound();
    }

    /** The `else` branch of `nextRoundOrResult`: the next round starts with the player to move. */
    method BeginNextRound()
      modifies this
      ensures round == old(round) + 1 && turn == NewTurnState() && phase == PlayerPhase && lastCpu == None
      ensures pScore == old(pScore) && cScore == old(cScore) && mode == old(mode) && screen == old(screen)
    {
      round := round + 1;
      turn := NewTurnState();
      phase := PlayerPhase;
      lastCpu := None;
    }

    /**
     * `showResult`: the verdict; the game recorded in the mode's statistics (a draw as a loss); the
     * win flag raised on a win; then the achievement rules, which see the updated win count.
     */
    method ShowResult() returns (outcome: Outcome)
      modifies this, store
      ensures outcome.verdict == VerdictOf(Total(old(pScore)), Total(old(cScore)))
      ensures Recording(old(store.records), old(store.flags), store.records, store.flags, old(mode),
                        Summary(old(pScore), old(cScore)), Total(old(pScore)), outcome.newly, outcome.secretOpened)
      ensures screen == ResultScreen
      ensures round == old(round) && pScore == old(pScore) && cScore == old(cScore) && turn == old(turn)
      ensures phase == old(phase) && lastCpu == old(lastCpu) && mode == old(mode)
    {
      outcome := Finish(store, pScore, cScore, mode);
      Show(ResultScreen);
    }

    /** `show`: switch to screen `s`, leaving the match itself as it is. */
    method Show(s: Screen)
      modifies this
      ensures screen == s && unchanged(store)
      ensures round == old(round) && pScore == old(pScore) && cScore == old(cScore) && turn == old(turn)
      ensures phase == old(phase) && lastCpu == old(lastCpu) && mode == old(mode)
    {
      screen := s;
    }

    /** The delete button of the achievement screen, once confirmed: the mode's whole record goes. */
    method ClearModeData(confirmed: bool)
      modifies store
      ensures !confirmed ==> unchanged(store)
      ensures confirmed ==> store.records == old(store.records) - {mode} && store.flags == old(store.flags)
    {
      if !confirmed {
        return;
      }
      store.ClearMode(mode, false);
    }
  }

  /** The summary `showResult` hands to the achievement rules: the player's card, whether the
    * player's total is the higher one, and whether both cards are complete. */
  function Summary(p: Scorecard, c: Scorecard): GameSummary {
    GameSummary(p, Total(p) > Total(c), IsComplete(p) && IsComplete(c))
  }

  /**
   * What `showResult` does to the storage, from `records0`/`flags0` to `records`/`flags`: the game is
   * recorded, the mode's flag is raised on a win, and the achievement rules run on the updated record;
   * `newly` are the achievements unlocked and `justOpened` says whether the secret mode has just opened.
   */
  ghost predicate Recording(records0: map<string, ModeData>, flags0: WinFlags,
                            records: map<string, ModeData>, flags: WinFlags,
                            mode: string, g: GameSummary, pTotal: int, newly: seq<nat>, justOpened: bool)
  {
    var d0 := if mode in records0 then records0[mode] else DefaultModeData;
    var d := Recorded(d0, g.win, pTotal);
    newly == Newly(FactsOf(g, d.wins), d.unlocked, AchievementCount)
    && records == records0[mode := d.(unlocked := d.unlocked + set n | n in newly)]
    && flags == (if g.win then WithWin(flags0, mode) else flags0)
    && justOpened == (!AllBeaten(flags0) && AllBeaten(flags))
  }

  /** `showResult` up to the final `show`: the verdict, then the game recorded in the storage. */
  method Finish(store: Store, p: Scorecard, c: Scorecard, m: string) returns (outcome: Outcome)
    modifies store
    ensures outcome.verdict == VerdictOf(Total(p), Total(c))
    ensures Recording(old(store.records), old(store.flags), store.records, store.flags, m,
                      Summary(p, c), Total(p), outcome.newly, outcome.secretOpened)
  {
    var g, pTotal, verdict := Judge(p, c);
    var newly, justOpened := RecordGame(store, m, g, pTotal);
    outcome := Outcome(verdict, newly, justOpened);
  }

  /** The scoring half of `showResult`: both totals, the verdict and the summary for the achievement rules. */
  method Judge(p: Scorecard, c: Scorecard) returns (g: GameSummary, pTotal: int, verdict: Verdict)
    ensures g == Summary(p, c) && pTotal == Total(p) && verdict == VerdictOf(Total(p), Total(c))
  {
    pTotal := TotalScore(p);
    var cTotal := TotalScore(c);
    verdict := Draw;
    if pTotal > cTotal { verdict := Win; }
    if pTotal < cTotal { verdict := Loss; }
    var completed := IsComplete(p) && IsComplete(c);
    g := GameSummary(p, pTotal > cTotal, completed);
  }

  /** The storage half of `showResult`: `recordResult`, `setWinFlag` on a win, `evaluateAndUnlock`. */
  method RecordGame(store: Store, mode: string, g: GameSummary, pTotal: int) returns (newly: seq<nat>, justOpened: bool)
    modifies store
    ensures Recording(old(store.records), old(store.flags), store.records, store.flags, mode, g, pTotal, newly, justOpened)
  {
    ghost var records0 := store.records;
    var d := store.RecordResult(mode, g.win, pTotal);
    var wasUnlocked := store.IsSecretUnlocked();
    if g.win {
      store.SetWinFlag(mode);
    }
    var nowUnlocked := store.IsSecretUnlocked();
    assert store.GetModeData(mode) == d;
    var before, after;
    newly, before, after := EvaluateAndUnlock(store, mode, g);
    justOpened := !wasUnlocked && nowUnlocked;
    UpdatedTwice(records0, mode, d, d.(unlocked := after));
  }

  /** Storing a second record under the same key replaces the first. */
  lemma UpdatedTwice(m: map<string, ModeData>, k: string, a: ModeData, b: ModeData)
    ensures m[k := a][k := b] == m[k := b]
  {
  }

  /** In the computer's phase the match is over exactly in round 12. */
  lemma LastRoundCompletes(m: Match)
    requires m.Valid() && m.phase == CpuPhase
    ensures m.round == 12 <==> IsComplete(m.pScore) && IsComplete(m.cScore)
  {
    AvailableCount(m.pScore);
    AvailableCount(m.cScore);
  }
}
