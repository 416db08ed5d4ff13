/** Per-mode statistics and the global win flags, kept in memory instead of the browser's storage. */
module Storage {
  import opened Wrappers

  /** The record kept for one mode: counters, the best total so far (`None` before any game) and the
    * numbers of the achievements unlocked in that mode. */
  datatype ModeData = ModeData(wins: nat, losses: nat, games: nat, bestScore: Option<int>, unlocked: set<nat>)

  /** The record `getModeData` falls back to when nothing is stored for a mode. */
  const DefaultModeData := ModeData(0, 0, 0, None, {})

  /** Whether the player has beaten each of the four ordinary computer opponents. */
  datatype WinFlags = WinFlags(easy: bool, normal: bool, hard: bool, expert: bool)

  /** The flags `getWinFlags` falls back to: no opponent beaten yet. */
  const NoWins := WinFlags(false, false, false, false)

  /** The four modes that carry a win flag. */
  const BaseModes: set<string> := {"easy", "normal", "hard", "expert"}

  /** The flags after beating `mode`: only its own flag is raised, and a name that has no flag changes nothing. */
  function WithWin(w: WinFlags, mode: string): (r: WinFlags)
    ensures mode !in BaseModes ==> r == w
    ensures r.easy == (w.easy || mode == "easy")
    ensures r.normal == (w.normal || mode == "normal")
    ensures r.hard == (w.hard || mode == "hard")
    ensures r.expert == (w.expert || mode == "expert")
  {
    if mode == "easy" then w.(easy := true)
    else if mode == "normal" then w.(normal := true)
    else if mode == "hard" then w.(hard := true)
    else if mode == "expert" then w.(expert := true)
    else w
  }

  /** The secret mode opens once all four ordinary opponents have been beaten. */
  predicate AllBeaten(w: WinFlags) {
    w.easy && w.normal && w.hard && w.expert
  }

  /** Raising a flag never lowers another, so once the secret mode is open it stays open. */
  lemma SecretStaysUnlocked(w: WinFlags, mode: string)
    requires AllBeaten(w)
    ensures AllBeaten(WithWin(w, mode)) && WithWin(w, mode) == w
  {
  }

  /** Beating the four ordinary opponents, in any order, opens the secret mode. */
  lemma FourWinsUnlock(w: WinFlags, order: seq<string>)
    requires BaseModes <= set m | m in order
    ensures AllBeaten(Wins(w, order))
  {
    WinsMonotone(w, order);
  }

  /** The flags after beating the modes of `order` one after another. */
  function Wins(w: WinFlags, order: seq<string>): WinFlags
    decreases |order|
  {
    if |order| == 0 then w else WithWin(Wins(w, order[..|order| - 1]), order[|order| - 1])
  }

  lemma {:induction false} WinsMonotone(w: WinFlags, order: seq<string>)
    ensures var r := Wins(w, order);
      (r.easy <==> w.easy || "easy" in order) && (r.normal <==> w.normal || "normal" in order)
      && (r.hard <==> w.hard || "hard" in order) && (r.expert <==> w.expert || "expert" in order)
    decreases |order|
  {
    if |order| > 0 {
      var init := order[..|order| - 1];
      WinsMonotone(w, init);
      assert order == init + [order[|order| - 1]];
      forall m ensures m in order <==> m in init || m == order[|order| - 1] {
        if m in order {
          var k :| 0 <= k < |order| && order[k] == m;
          if k < |order| - 1 { assert init[k] == m; }
        }
      }
    }
  }

  /** `recordResult` on one record: one more game, one more win or loss, and the best total kept. */
  function Recorded(d: ModeData, win: bool, playerScore: int): (r: ModeData)
    ensures r.games == d.games + 1
    ensures r.wins + r.losses == d.wins + d.losses + 1
    ensures win ==> r.wins == d.wins + 1 && r.losses == d.losses
    ensures !win ==> r.losses == d.losses + 1 && r.wins == d.wins
    ensures r.unlocked == d.unlocked
  {
    var best := if d.bestScore.None? || playerScore > d.bestScore.value then Some(playerScore) else d.bestScore;
    d.(games := d.games + 1,
       wins := if win then d.wins + 1 else d.wins,
       losses := if win then d.losses else d.losses + 1,
       bestScore := best)
  }

  /** The best total is the game's total on a fresh record and otherwise the larger of the two:
    * it never decreases and always covers the game just recorded. */
  lemma BestScoreIsMax(d: ModeData, win: bool, playerScore: int)
    ensures var b := Recorded(d, win, playerScore).bestScore;
      b.Some? && b.value >= playerScore
      && (d.bestScore.None? ==> b.value == playerScore)
      && (d.bestScore.Some? ==>
            b.value >= d.bestScore.value && (b.value == d.bestScore.value || b.value == playerScore))
  {
  }

  /** Counters that add up (every game a win or a loss) keep adding up. */
  lemma RecordedKeepsBalance(d: ModeData, win: bool, playerScore: int)
    requires d.games == d.wins + d.losses
    ensures var r := Recorded(d, win, playerScore); r.games == r.wins + r.losses
  {
  }

  /** The stored records and the win flags: the in-memory stand-in for the browser's storage. */
  class Store {
    var records: map<string, ModeData>
    var flags: WinFlags

    /** Empty storage: no record for any mode and no opponent beaten. */
    constructor()
      ensures records == map[] && flags == NoWins
    {
      records := map[];
      flags := NoWins;
    }

    /** `getModeData`: the stored record, or the default one when the mode has none. */
    function GetModeData(mode: string): (d: ModeData)
      reads this
      ensures mode in records ==> d == records[mode]
      ensures mode !in records ==> d == DefaultModeData
    {
      if mode in records then records[mode] else DefaultModeData
    }

    /** `saveModeData`: store `d` as the record of `mode`. */
    method SaveModeData(mode: string, d: ModeData)
      modifies this
      ensures records == old(records)[mode := d] && flags == old(flags)
    {
      records := records[mode := d];
    }

    /** `recordResult`: update the mode's record with one finished game and store it. */
    method RecordResult(mode: string, win: bool, playerScore: int) returns (d: ModeData)
      modifies this
      ensures d == Recorded(old(GetModeData(mode)), win, playerScore)
      ensures records == old(records)[mode := d] && flags == old(flags)
    {
      d := GetModeData(mode);
      var games := d.games + 1;
      var wins := d.wins;
      var losses := d.losses;
      if win { wins := wins + 1; } else { losses := losses + 1; }
      var best := d.bestScore;
      if best.None? || playerScore > best.value { best := Some(playerScore); }
      d := ModeData(wins, losses, games, best, d.unlocked);
      SaveModeData(mode, d);
    }

    /** `setWinFlag`: raise the flag of `mode` if it has one. */
    method SetWinFlag(mode: string)
      modifies this
      ensures flags == WithWin(old(flags), mode) && records == old(records)
    {
      var w := flags;
      if mode == "easy" { w := w.(easy := true); }
      else if mode == "normal" { w := w.(normal := true); }
      else if mode == "hard" { w := w.(hard := true); }
      else if mode == "expert" { w := w.(expert := true); }
      flags := w;
    }

    /** `isSecretUnlocked`: all four ordinary opponents have been beaten. */
    function IsSecretUnlocked(): (b: bool)
      reads this
      ensures b <==> flags.easy && flags.normal && flags.hard && flags.expert
    {
      AllBeaten(flags)
    }

    /** `storageClearMode`: forget that mode's achievements only, or its whole record. */
    method ClearMode(mode: string, achievementsOnly: bool)
      modifies this
      ensures achievementsOnly ==> records == old(records)[mode := old(GetModeData(mode)).(unlocked := {})]
      ensures !achievementsOnly ==> records == old(records) - {mode} && GetModeData(mode) == DefaultModeData
      ensures flags == old(flags)
      ensures forall m :: m != mode ==> GetModeData(m) == old(GetModeData(m))
    {
      if achievementsOnly {
        var d := GetModeData(mode);
        d := d.(unlocked := {});
        SaveModeData(mode, d);
        return;
      }
      records := records - {mode};
    }
  }
}
