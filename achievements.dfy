/** The eleven per-mode achievements: which a finished game unlocks, and the list shown to the player. */
module Achievements {
  import opened Scoring
  import opened Storage

  /** What the match hands over at its end: the player's scorecard, whether it was a win, and whether
    * both scorecards were completed. */
  datatype GameSummary = GameSummary(scorecard: Scorecard, win: bool, completed: bool)

  /** One line of the achievement list: its number and whether it is unlocked in the mode. */
  datatype Achievement = Achievement(n: nat, unlocked: bool)

  /** How many achievements each mode has. */
  const AchievementCount := 11

  /** `zeroCount`: the number of categories filled with 0. */
  function ZeroCount(sc: Scorecard): nat {
    |set c | c in sc && sc[c] == 0|
  }

  /** Some zero has been written somewhere on the card exactly when `zeroCount` is at least 1. */
  lemma ZeroCountPositive(sc: Scorecard)
    ensures ZeroCount(sc) >= 1 <==> exists c :: c in sc && sc[c] == 0
  {
    var zeros := set c | c in sc && sc[c] == 0;
    if exists c :: c in sc && sc[c] == 0 {
      var c :| c in sc && sc[c] == 0;
      assert c in zeros;
    } else {
      assert zeros == {};
    }
  }

  /** What the rules look at: the flags `evaluateAndUnlock` computes from the game, and the mode's win count. */
  datatype Facts = Facts(completed: bool, win: bool, hasYahtzee: bool, hasSmall: bool, hasLarge: bool,
                         hasBonus: bool, total: int, zeroCount: nat, wins: nat)

  /**
   * The facts of a game, where `wins` is the mode's win count as stored: the bonus is had once the
   * upper section reaches 63, and the zero count is positive exactly when some slot holds a 0.
   */
  function FactsOf(g: GameSummary, wins: nat): (f: Facts)
    ensures f.completed == g.completed && f.win == g.win && f.wins == wins && f.total == Total(g.scorecard)
    ensures f.hasBonus <==> UpperSum(g.scorecard) >= 63
    ensures f.zeroCount >= 1 <==> exists c :: c in g.scorecard && g.scorecard[c] == 0
  {
    var sc := g.scorecard;
    ZeroCountPositive(sc);
    Facts(g.completed, g.win,
          Yahtzee in sc && sc[Yahtzee] > 0,
          SmallStraight in sc && sc[SmallStraight] > 0,
          LargeStraight in sc && sc[LargeStraight] > 0,
          UpperBonus(sc) > 0, Total(sc), ZeroCount(sc), wins)
  }

  /** The unlock rule of achievement `n`. */
  predicate Rule(n: nat, f: Facts) {
    if n == 1 then f.completed
    else if n == 2 then f.completed && f.hasYahtzee
    else if n == 3 then f.completed && f.hasSmall
    else if n == 4 then f.completed && f.hasLarge
    else if n == 5 then f.completed && f.hasBonus
    else if n == 6 then f.completed && f.total >= 250
    else if n == 7 then f.completed && f.zeroCount >= 1
    else if n == 8 then f.completed && f.zeroCount == 0
    else if n == 9 then f.completed && f.win
    else if n == 10 then f.completed && !f.win
    else if n == 11 then f.wins >= 3
    else false
  }

  /** The achievements among 1..`k` that the game unlocks now, in the order they are checked: at
    * most one per rule, each numbered 1 to `k` and none unlocked before. */
  function Newly(f: Facts, before: set<nat>, k: nat): (r: seq<nat>)
    ensures |r| <= k
    ensures forall n :: n in r ==> 1 <= n <= k && n !in before
    decreases k
  {
    if k == 0 then []
    else Newly(f, before, k - 1) + (if Rule(k, f) && k !in before then [k] else [])
  }

  /** Only the numbers 1 to 11 have a rule, and every rule but 11's needs a completed game. */
  lemma RuleNeedsCompletion(n: nat, f: Facts)
    ensures Rule(n, f) ==> 1 <= n <= AchievementCount
    ensures Rule(n, f) && n != 11 ==> f.completed
  {
  }

  predicate StrictlyAscending(s: seq<nat>) {
    forall i, j :: 0 <= i < j < |s| ==> s[i] < s[j]
  }

  /** The newly unlocked numbers are exactly the eligible ones not unlocked before. */
  lemma {:induction false} NewlyMembers(f: Facts, before: set<nat>, k: nat)
    ensures forall n :: n in Newly(f, before, k) <==> 1 <= n <= k && Rule(n, f) && n !in before
    decreases k
  {
    if k > 0 {
      var b := Rule(k, f) && k !in before;
      var prev := Newly(f, before, k - 1);
      NewlyMembers(f, before, k - 1);
      assert Newly(f, before, k) == prev + (if b then [k] else []);
      forall n ensures n in Newly(f, before, k) <==> 1 <= n <= k && Rule(n, f) && n !in before {
        assert n in Newly(f, before, k) <==> n in prev || (b && n == k);
      }
    }
  }

  /** The newly unlocked numbers come in ascending order, so there are no duplicates. */
  lemma {:induction false} NewlyAscending(f: Facts, before: set<nat>, k: nat)
    ensures StrictlyAscending(Newly(f, before, k))
    decreases k
  {
    if k > 0 {
      var prev := Newly(f, before, k - 1);
      NewlyAscending(f, before, k - 1);
      if Rule(k, f) && k !in before {
        AscendingSnoc(prev, k);
        assert Newly(f, before, k) == prev + [k];
      } else {
        assert Newly(f, before, k) == prev;
      }
    }
  }

  /** Appending a number above every member keeps a list strictly ascending. */
  lemma AscendingSnoc(s: seq<nat>, k: nat)
    requires StrictlyAscending(s)
    requires forall n :: n in s ==> n < k
    ensures StrictlyAscending(s + [k])
  {
    var t := s + [k];
    forall i, j | 0 <= i < j < |t| ensures t[i] < t[j] {
      assert t[i] == s[i] && s[i] in s;
      if j < |s| { assert t[j] == s[j]; }
    }
  }

  /** Without a completed game only achievement 11, three wins in the mode, can unlock. */
  lemma IncompleteUnlocksOnlyWins(g: GameSummary, wins: nat, before: set<nat>)
    requires !g.completed
    ensures forall n :: n in Newly(FactsOf(g, wins), before, AchievementCount) ==> n == 11
  {
    NewlyMembers(FactsOf(g, wins), before, AchievementCount);
  }

  /** A completed game earns exactly one of 7 and 8 (a zero somewhere, or none), and exactly one of
    * 9 and 10 (won, or not won). */
  lemma ComplementaryPairs(g: GameSummary, wins: nat)
    requires g.completed
    ensures var f := FactsOf(g, wins);
      Rule(7, f) != Rule(8, f) && Rule(9, f) != Rule(10, f)
      && (Rule(7, f) <==> exists c :: c in g.scorecard && g.scorecard[c] == 0)
      && (Rule(9, f) <==> g.win)
  {
    ZeroCountPositive(g.scorecard);
  }

  /** Achievement 5 asks for an upper section of 63 or more; achievement 6 for a grand total of 250. */
  lemma BonusAndTotalRules(g: GameSummary, wins: nat)
    requires g.completed
    ensures Rule(5, FactsOf(g, wins)) <==> UpperSum(g.scorecard) >= 63
    ensures Rule(6, FactsOf(g, wins)) <==> SumFilled(g.scorecard, Cats) + UpperBonus(g.scorecard) >= 250
  {
    SumFilledCats(g.scorecard);
  }

  /** Running the rules a second time on the same game unlocks nothing more. */
  lemma SecondEvaluationUnlocksNothing(f: Facts, before: set<nat>)
    ensures var after := before + set n | n in Newly(f, before, AchievementCount);
      Newly(f, after, AchievementCount) == []
  {
    var first := Newly(f, before, AchievementCount);
    var after := before + set n | n in first;
    var s := Newly(f, after, AchievementCount);
    assert |s| == 0 || s[0] in s;
    NewlyMembers(f, before, AchievementCount);
    NewlyMembers(f, after, AchievementCount);
    // Every eligible number is in `after`: it was unlocked before, or the first run unlocked it.
    forall n | 1 <= n <= AchievementCount && Rule(n, f)
      ensures n in after
    {
      if n !in before {
        assert n in first;
      }
    }
    assert forall n :: n !in s;
  }

  /** `unlock(n)`: record `n` if it is not unlocked yet. */
  method Unlock(n: nat, unlocked: set<nat>, will: seq<nat>) returns (unlocked': set<nat>, will': seq<nat>)
    ensures n in unlocked ==> unlocked' == unlocked && will' == will
    ensures n !in unlocked ==> unlocked' == unlocked + {n} && will' == will + [n]
  {
    unlocked', will' := unlocked, will;
    if n !in unlocked {
      unlocked' := unlocked + {n};
      will' := will + [n];
    }
  }

  /** The flags `evaluateAndUnlock` works out before checking the rules. */
  method GameFacts(g: GameSummary, wins: nat) returns (f: Facts)
    ensures f == FactsOf(g, wins)
  {
    var sc := g.scorecard;
    var zeroCount := ZeroCount(sc);
    var hasYahtzee := Yahtzee in sc && sc[Yahtzee] > 0;
    var hasSmall := SmallStraight in sc && sc[SmallStraight] > 0;
    var hasLarge := LargeStraight in sc && sc[LargeStraight] > 0;
    var hasBonus := UpperBonus(sc) > 0;
    var total := TotalScore(sc);
    f := Facts(g.completed, g.win, hasYahtzee, hasSmall, hasLarge, hasBonus, total, zeroCount, wins);
  }

  /** `if (cond) unlock(n)`, carrying the state after rule `n - 1` to the state after rule `n`. */
  method UnlockIf(cond: bool, n: nat, u: set<nat>, will: seq<nat>, ghost f: Facts, ghost before: set<nat>)
    returns (u': set<nat>, will': seq<nat>)
    requires 1 <= n && (cond <==> Rule(n, f))
    requires UnlockState(f, before, u, will, n - 1)
    ensures UnlockState(f, before, u', will', n)
  {
    u', will' := u, will;
    if cond {
      u', will' := Unlock(n, u, will);
    }
    UnlockStep(f, before, u, will, n, cond, u', will');
  }

  /** `evaluateAndUnlock`: check the eleven rules in order, store the newly unlocked numbers in the
    * mode's record and return them with the sets before and after. */
  method EvaluateAndUnlock(store: Store, mode: string, g: GameSummary)
    returns (newly: seq<nat>, before: set<nat>, after: set<nat>)
    modifies store
    ensures before == old(store.GetModeData(mode)).unlocked
    ensures newly == Newly(FactsOf(g, old(store.GetModeData(mode)).wins), before, AchievementCount)
    ensures after == before + set n | n in newly
    ensures store.records == old(store.records)[mode := old(store.GetModeData(mode)).(unlocked := after)]
    ensures store.flags == old(store.flags)
  {
    var d := store.GetModeData(mode);
    before := d.unlocked;
    var f := GameFacts(g, d.wins);
    var u, will := CheckRules(f, before);
    store.SaveModeData(mode, d.(unlocked := u));
    // The numbers were pushed in increasing order (`NewlyAscending`), so sorting them changes nothing.
    newly := will;
    after := u;
  }

  /** The eleven `if (...) unlock(n)` lines of `evaluateAndUnlock`, starting from the numbers
    * unlocked `before`: `will` lists the numbers unlocked now and `u` is the grown set. */
  method CheckRules(f: Facts, before: set<nat>) returns (u: set<nat>, will: seq<nat>)
    ensures will == Newly(f, before, AchievementCount)
    ensures u == before + set n | n in will
  {
    u, will := before, [];
    u, will := CheckRulesOneToFour(f, before, u, will);
    u, will := CheckRulesFiveToEight(f, before, u, will);
    u, will := CheckRulesNineToEleven(f, before, u, will);
  }

  /** Rules 1 to 4: a completed game, with a Yahtzee, a small straight, a large straight. */
  method CheckRulesOneToFour(f: Facts, before: set<nat>, u0: set<nat>, will0: seq<nat>)
    returns (u: set<nat>, will: seq<nat>)
    requires UnlockState(f, before, u0, will0, 0)
    ensures UnlockState(f, before, u, will, 4)
  {
    var completed, hasYahtzee, hasSmall, hasLarge := f.completed, f.hasYahtzee, f.hasSmall, f.hasLarge;
    u, will := UnlockIf(completed, 1, u0, will0, f, before);
    u, will := UnlockIf(completed && hasYahtzee, 2, u, will, f, before);
    u, will := UnlockIf(completed && hasSmall, 3, u, will, f, before);
    u, will := UnlockIf(completed && hasLarge, 4, u, will, f, before);
  }

  /** Rules 5 to 8: the upper bonus, a total of 250, a zero written somewhere, no zero at all. */
  method CheckRulesFiveToEight(f: Facts, before: set<nat>, u0: set<nat>, will0: seq<nat>)
    returns (u: set<nat>, will: seq<nat>)
    requires UnlockState(f, before, u0, will0, 4)
    ensures UnlockState(f, before, u, will, 8)
  {
    var completed, hasBonus, total, zeroCount := f.completed, f.hasBonus, f.total, f.zeroCount;
    u, will := UnlockIf(completed && hasBonus, 5, u0, will0, f, before);
    u, will := UnlockIf(completed && total >= 250, 6, u, will, f, before);
    u, will := UnlockIf(completed && zeroCount >= 1, 7, u, will, f, before);
    u, will := UnlockIf(completed && zeroCount == 0, 8, u, will, f, before);
  }

  /** Rules 9 to 11: a win, a game not won, three wins in the mode. */
  method CheckRulesNineToEleven(f: Facts, before: set<nat>, u0: set<nat>, will0: seq<nat>)
    returns (u: set<nat>, will: seq<nat>)
    requires UnlockState(f, before, u0, will0, 8)
    ensures UnlockState(f, before, u, will, 11)
  {
    var completed, win := f.completed, f.win;
    u, will := UnlockIf(completed && win, 9, u0, will0, f, before);
    u, will := UnlockIf(completed && !win, 10, u, will, f, before);
    u, will := UnlockIf(f.wins >= 3, 11, u, will, f, before);
  }

  /** After the first `k` rules the list holds `Newly(.., k)` and the set has grown by exactly its members. */
  ghost predicate UnlockState(f: Facts, before: set<nat>, u: set<nat>, will: seq<nat>, k: nat) {
    will == Newly(f, before, k) && u == before + set n | n in will
  }

  /** Checking rule `k` (its condition `cond`) extends the state after rule `k - 1` to the state after rule `k`. */
  lemma UnlockStep(f: Facts, before: set<nat>, u: set<nat>, will: seq<nat>, k: nat,
                   cond: bool, u': set<nat>, will': seq<nat>)
    requires 1 <= k
    requires UnlockState(f, before, u, will, k - 1)
    requires cond <==> Rule(k, f)
    requires cond && k !in u ==> u' == u + {k} && will' == will + [k]
    requires !(cond && k !in u) ==> u' == u && will' == will
    ensures UnlockState(f, before, u', will', k)
  {
    NewlyMembers(f, before, k - 1);
    assert k !in will;
    assert k in u <==> k in before;
    if cond && k !in u {
      assert Newly(f, before, k) == will + [k];
      ElementsSnoc(will, k);
    } else {
      assert Newly(f, before, k) == will;
    }
  }

  /** Appending `k` to a list adds `k` to the set of its members. */
  lemma ElementsSnoc(will: seq<nat>, k: nat)
    ensures (set n | n in will + [k]) == (set n | n in will) + {k}
  {
  }

  /** `getAchievementList` on the mode's record: the eleven achievements, each marked unlocked or not. */
  function AchievementList(d: ModeData): (r: seq<Achievement>)
    ensures |r| == AchievementCount
    ensures forall i :: 0 <= i < |r| ==> r[i].n == i + 1 && (r[i].unlocked <==> i + 1 in d.unlocked)
  {
    seq(AchievementCount, i requires 0 <= i < AchievementCount => Achievement(i + 1, i + 1 in d.unlocked))
  }

  /** After the rules have run, the list marks an achievement unlocked iff it was unlocked before
    * or the game made it eligible. */
  lemma ListAfterUnlock(d: ModeData, g: GameSummary)
    ensures var f := FactsOf(g, d.wins);
      var after := d.unlocked + set n | n in Newly(f, d.unlocked, AchievementCount);
      forall i :: 0 <= i < AchievementCount ==>
        (AchievementList(d.(unlocked := after))[i].unlocked <==> i + 1 in d.unlocked || Rule(i + 1, f))
  {
    ListAfterRules(d, FactsOf(g, d.wins));
  }

  /** `ListAfterUnlock` for any facts. */
  lemma ListAfterRules(d: ModeData, f: Facts)
    ensures var after := d.unlocked + set n | n in Newly(f, d.unlocked, AchievementCount);
      forall i :: 0 <= i < AchievementCount ==>
        (AchievementList(d.(unlocked := after))[i].unlocked <==> i + 1 in d.unlocked || Rule(i + 1, f))
  {
    var newly := Newly(f, d.unlocked, AchievementCount);
    var after := d.unlocked + set n | n in newly;
    var list := AchievementList(d.(unlocked := after));
    NewlyMembers(f, d.unlocked, AchievementCount);
    forall i | 0 <= i < AchievementCount
      ensures list[i].unlocked <==> i + 1 in d.unlocked || Rule(i + 1, f)
    {
      assert list[i].unlocked <==> i + 1 in after;
      assert i + 1 in after <==> i + 1 in d.unlocked || i + 1 in newly;
    }
  }
}
