/**
  The scoring engine as the object it is: six fields updated in place by
  `AddPlayer`, `RecordScore`, `StartOvertime` and `ProcessRedemption`. Each of
  these is proved to take the fields exactly where the corresponding function
  of `DartsRules` takes the game value; `AddPlayer`, `RecordScore` and
  `ProcessRedemption` also keep `Valid()`. `StartOvertime`, called directly,
  keeps it only when there is no winner.
 */
module DartsEngine {
  import opened DartsRules
  import DartsProperties

  class DartsGame {
    var players: seq<string>
    var scores: map<string, int>
    var targetScore: int
    var inOvertime: bool
    var winner: Option<string>
    var redemptionPlayers: seq<string>

    /** The fields as a game value. */
    function State(): Game
      reads this
    {
      Game(players, scores, targetScore, inOvertime, winner, redemptionPlayers)
    }

    predicate Valid()
      reads this
    {
      DartsRules.Valid(State())
    }

    constructor ()
      ensures Valid()
      ensures players == [] && scores == map[] && redemptionPlayers == []
      ensures targetScore == InitialTarget && !inOvertime && winner == None
      ensures State() == Init()
    {
      players := [];
      scores := map[];
      targetScore := InitialTarget;
      inOvertime := false;
      winner := None;
      redemptionPlayers := [];
    }

    /** Appends a new name with score 0; a name already playing is ignored. */
    method AddPlayer(name: string)
      requires Valid() && name != ""
      modifies this
      ensures Valid()
      ensures State() == DartsRules.AddPlayer(old(State()), name)
      ensures name !in old(players) ==> players == old(players) + [name] && scores == old(scores)[name := 0]
      ensures name in old(players) ==> unchanged(this)
    {
      DartsProperties.AddPlayerPreservesValid(State(), name);
      if name !in players {
        players := players + [name];
        scores := scores[name := 0];
      }
    }

    /** One normal-turn shot: bust, exact hit (redemption round begins) or plain add. */
    method RecordScore(player: string, score: int) returns (signal: Signal)
      requires Valid()
      modifies this
      ensures Valid()
      ensures Scored(State(), signal) == DartsRules.RecordScore(old(State()), player, score)
      ensures players == old(players) && targetScore == old(targetScore) && inOvertime == old(inOvertime)
      ensures signal == Bust ==> unchanged(this)
    {
      DartsProperties.RecordScorePreservesValid(State(), player, score);
      if player !in players || winner.Some? {
        return NoSignal;
      }
      var oldScore := scores[player];
      var newScore := oldScore + score;
      if newScore > targetScore {
        scores := scores[player := oldScore];
        return Bust;
      } else if newScore == targetScore {
        scores := scores[player := newScore];
        if !inOvertime {
          winner := Some(player);
          redemptionPlayers := Without(players, player);
          return RedemptionRoundBegins;
        } else {
          winner := Some(player);
          redemptionPlayers := Without(players, player);
          return OvertimeRedemptionRoundBegins;
        }
      } else {
        scores := scores[player := newScore];
        return NoSignal;
      }
    }

    /** Raises the target by the overtime increment and clears pending redemption. */
    method StartOvertime()
      modifies this
      ensures State() == DartsRules.StartOvertime(old(State()))
      ensures inOvertime && targetScore == old(targetScore) + OvertimeIncrement && redemptionPlayers == []
    {
      inOvertime := true;
      targetScore := targetScore + OvertimeIncrement;
      redemptionPlayers := [];
    }

    /** The current winner, if any; a winner is always a current player sitting on the target. */
    method GetWinner() returns (w: Option<string>)
      requires Valid()
      ensures w == winner
      ensures w.Some? ==> w.value in players && w.value in scores && scores[w.value] == targetScore
      ensures w.Some? ==> forall q :: q in players && q != w.value ==> q in scores && scores[q] < targetScore
    {
      w := winner;
    }

    /**
      The shot loop of `ProcessRedemption`: each shot by a player who owes one
      is applied to that player's running total; returns who tied, in order.
     */
    method ApplyRedemptionShots(shots: seq<Shot>) returns (advancing: seq<string>)
      requires forall q :: q in redemptionPlayers ==> q in scores
      modifies this`scores
      ensures Batch(scores, advancing) == RunShots(old(scores), redemptionPlayers, targetScore, shots)
    {
      advancing := [];
      for i := 0 to |shots|
        invariant forall q :: q in redemptionPlayers ==> q in scores
        invariant Batch(scores, advancing) == RunShots(old(scores), redemptionPlayers, targetScore, shots[..i])
      {
        assert shots[..i + 1][..i] == shots[..i];
        ghost var prev := Batch(scores, advancing);
        var shot := shots[i];
        if shot.player !in redemptionPlayers {
          continue;
        }
        var oldScore := scores[shot.player];
        var newScore := oldScore + shot.score;
        if newScore > targetScore {
          scores := scores[shot.player := oldScore];
        } else if newScore == targetScore {
          scores := scores[shot.player := newScore];
          advancing := advancing + [shot.player];
        } else {
          scores := scores[shot.player := newScore];
        }
        assert Batch(scores, advancing) == ApplyShot(prev, redemptionPlayers, targetScore, shot);
      }
      assert shots[..|shots|] == shots;
    }

    /** Applies the redemption shots in order, then either lets the winner stand or starts overtime. */
    method ProcessRedemption(shots: seq<Shot>) returns (outcome: Outcome)
      requires Valid()
      modifies this
      ensures Valid()
      ensures Resolved(State(), outcome) == DartsRules.ProcessRedemption(old(State()), shots)
    {
      ghost var before := State();
      DartsProperties.ProcessRedemptionPreservesValid(before, shots);
      var advancing := ApplyRedemptionShots(shots);
      if |advancing| == 0 {
        return WinnerStands(winner);
      } else {
        assert advancing[0] in redemptionPlayers;
        advancing := advancing + [winner.value];
        players := advancing;
        winner := None;
        StartOvertime();
        return PlayersAdvancing(targetScore);
      }
    }
  }
}
