/**
  What the engine's rules guarantee: the invariant every operation keeps, and
  what each operation does to the players, the scores, the leader and the target.
 */
module DartsProperties {
  import opened DartsRules

  // ---------------------------------------------------------------------------
  // Removing the scorer from the player list
  // ---------------------------------------------------------------------------

  /** Removal keeps order: it distributes over concatenation. */
  lemma {:induction false} WithoutConcat(a: seq<string>, b: seq<string>, p: string)
    ensures Without(a + b, p) == Without(a, p) + Without(b, p)
  {
    if a == [] {
      assert a + b == b;
    } else {
      assert (a + b)[1..] == a[1..] + b;
      WithoutConcat(a[1..], b, p);
    }
  }

  /** Removing a name that is not there changes nothing. */
  lemma {:induction false} WithoutAbsent(s: seq<string>, p: string)
    requires p !in s
    ensures Without(s, p) == s
  {
    if s != [] {
      WithoutAbsent(s[1..], p);
    }
  }

  /** From a duplicate-free list, removal takes out exactly one entry and leaves it duplicate-free. */
  lemma {:induction false} WithoutDistinct(s: seq<string>, p: string)
    requires Distinct(s)
    ensures Distinct(Without(s, p))
    ensures p in s ==> |Without(s, p)| == |s| - 1
  {
    if s != [] {
      assert Distinct(s[1..]);
      WithoutDistinct(s[1..], p);
      if s[0] == p {
        assert p !in s[1..];
        WithoutAbsent(s[1..], p);
      } else {
        var r := [s[0]] + Without(s[1..], p);
        forall i, j | 0 <= i < j < |r| ensures r[i] != r[j] {
          if i == 0 {
            assert r[j] in Without(s[1..], p);
            assert s[0] !in s[1..];
          }
        }
      }
    }
  }

  // ---------------------------------------------------------------------------
  // Construction and adding players
  // ---------------------------------------------------------------------------

  /** A fresh game: nobody playing, target 301, regulation, no winner, no redemption pending. */
  lemma InitIsValid()
    ensures Valid(Init())
    ensures Init().players == [] && Init().scores == map[] && Init().redemptionPlayers == []
    ensures Init().targetScore == 301 && !Init().inOvertime && Init().winner == None
  {
  }

  /** A new name goes at the end with score 0; a known name changes nothing. */
  lemma AddPlayerAppends(g: Game, name: string)
    ensures name !in g.players ==>
      && AddPlayer(g, name).players[..|g.players|] == g.players
      && AddPlayer(g, name).players[|g.players|..] == [name]
      && AddPlayer(g, name).scores[name] == 0
      && (forall q :: q in g.scores && q != name ==> AddPlayer(g, name).scores[q] == g.scores[q])
    ensures name in g.players ==> AddPlayer(g, name) == g
    ensures forall q :: q in AddPlayer(g, name).players <==> q in g.players || q == name
  {
  }

  /** The player list stays duplicate-free under adding. */
  lemma AddPlayerKeepsDistinct(g: Game, name: string)
    requires Distinct(g.players)
    ensures Distinct(AddPlayer(g, name).players)
  {
  }

  /** Adding the same name twice is the same as adding it once. */
  lemma AddPlayerIdempotent(g: Game, name: string)
    ensures AddPlayer(AddPlayer(g, name), name) == AddPlayer(g, name)
  {
  }

  lemma AddPlayerPreservesValid(g: Game, name: string)
    requires Valid(g) && name != ""
    ensures Valid(AddPlayer(g, name))
  {
  }

  // ---------------------------------------------------------------------------
  // Normal-turn shots
  // ---------------------------------------------------------------------------

  /** An unknown player, or any player once a winner is set, changes nothing and signals nothing. */
  lemma RecordScoreIgnored(g: Game, p: string, delta: int)
    requires WellFormed(g)
    requires p !in g.players || g.winner.Some?
    ensures RecordScore(g, p, delta) == Scored(g, NoSignal)
  {
  }

  /** A shot signals Bust exactly when it would go over, and a bust changes nothing. */
  lemma RecordScoreBust(g: Game, p: string, delta: int)
    requires WellFormed(g)
    ensures RecordScore(g, p, delta).signal == Bust <==>
      p in g.players && g.winner.None? && g.scores[p] + delta > g.targetScore
    ensures RecordScore(g, p, delta).signal == Bust ==> RecordScore(g, p, delta).game == g
  {
  }

  /**
    A shot that lands exactly on the target puts the scorer on the target as the
    provisional winner and owes a redemption shot to every other player, in order.
   */
  lemma RecordScoreExact(g: Game, p: string, delta: int)
    requires WellFormed(g)
    requires p in g.players && g.winner.None? && g.scores[p] + delta == g.targetScore
    ensures var r := RecordScore(g, p, delta);
      && r.game.scores == g.scores[p := g.targetScore]
      && r.game.winner == Some(p)
      && r.game.redemptionPlayers == Without(g.players, p)
      && (forall q :: q in r.game.redemptionPlayers <==> q in g.players && q != p)
      && (Distinct(g.players) ==> |r.game.redemptionPlayers| == |g.players| - 1)
      && r.game.players == g.players
      && r.game.targetScore == g.targetScore
      && r.game.inOvertime == g.inOvertime
      && r.signal == (if g.inOvertime then OvertimeRedemptionRoundBegins else RedemptionRoundBegins)
  {
    if Distinct(g.players) {
      WithoutDistinct(g.players, p);
    }
  }

  /** The state change of a shot does not depend on whether the game is in overtime; only the signal does. */
  lemma RecordScoreSameInOvertime(g: Game, p: string, delta: int, overtime: bool)
    requires WellFormed(g)
    ensures RecordScore(g.(inOvertime := overtime), p, delta).game ==
            RecordScore(g, p, delta).game.(inOvertime := overtime)
    ensures RecordScore(g.(inOvertime := overtime), p, delta).signal.RedemptionRoundBegins? ==> !overtime
    ensures RecordScore(g.(inOvertime := overtime), p, delta).signal.OvertimeRedemptionRoundBegins? ==> overtime
  {
  }

  /** A shot that stays under the target adds its points to the scorer and nothing else changes. */
  lemma RecordScoreShort(g: Game, p: string, delta: int)
    requires WellFormed(g)
    requires p in g.players && g.winner.None? && g.scores[p] + delta < g.targetScore
    ensures RecordScore(g, p, delta) == Scored(g.(scores := g.scores[p := g.scores[p] + delta]), NoSignal)
  {
  }

  /** A shot never changes the player list, the target or the overtime flag, nor anyone else's score. */
  lemma RecordScoreFrame(g: Game, p: string, delta: int)
    requires WellFormed(g)
    ensures var r := RecordScore(g, p, delta).game;
      && r.players == g.players
      && r.targetScore == g.targetScore
      && r.inOvertime == g.inOvertime
      && r.scores.Keys == g.scores.Keys
      && (forall q :: q in g.scores && q != p ==> r.scores[q] == g.scores[q])
  {
  }

  lemma RecordScorePreservesValid(g: Game, p: string, delta: int)
    requires Valid(g)
    ensures WellFormed(g) && Valid(RecordScore(g, p, delta).game)
  {
  }

  // ---------------------------------------------------------------------------
  // Starting overtime
  // ---------------------------------------------------------------------------

  /** Starting overtime directly keeps the invariant when there is no winner. */
  lemma StartOvertimeKeepsValid(g: Game)
    requires Valid(g) && g.winner.None?
    ensures Valid(StartOvertime(g))
    ensures StartOvertime(g).targetScore == g.targetScore + 100
  {
  }

  /** Starting overtime directly while a winner is set leaves that winner below the raised target. */
  lemma StartOvertimeWithWinnerBreaksValid()
    ensures var g := Game(["A"], map["A" := 301], 301, false, Some("A"), []);
      Valid(g) && !Valid(StartOvertime(g))
  {
  }

  // ---------------------------------------------------------------------------
  // The redemption batch
  // ---------------------------------------------------------------------------

  /** Shots are applied in order: one more shot is applied to the batch of the earlier ones. */
  lemma RunShotsAppend(scores: map<string, int>, rp: seq<string>, target: int, shots: seq<Shot>, s: Shot)
    requires forall x :: x in rp ==> x in scores
    ensures RunShots(scores, rp, target, shots + [s]) == ApplyShot(RunShots(scores, rp, target, shots), rp, target, s)
  {
    assert (shots + [s])[..|shots|] == shots;
  }

  /** Shots by players who owe no redemption shot leave their scores alone. */
  lemma {:induction false} RunShotsSkipsOthers(scores: map<string, int>, rp: seq<string>, target: int, shots: seq<Shot>, q: string)
    requires forall x :: x in rp ==> x in scores
    requires q in scores && q !in rp
    ensures RunShots(scores, rp, target, shots).scores[q] == scores[q]
  {
    if shots != [] {
      RunShotsSkipsOthers(scores, rp, target, shots[..|shots| - 1], q);
    }
  }

  /** No redemption shot pushes a score above the target. */
  lemma {:induction false} RunShotsBounded(scores: map<string, int>, rp: seq<string>, target: int, shots: seq<Shot>)
    requires forall x :: x in rp ==> x in scores
    requires AtMost(scores, target)
    ensures AtMost(RunShots(scores, rp, target, shots).scores, target)
  {
    if shots != [] {
      RunShotsBounded(scores, rp, target, shots[..|shots| - 1]);
      var prev := RunShots(scores, rp, target, shots[..|shots| - 1]);
      var r := RunShots(scores, rp, target, shots);
      var s := shots[|shots| - 1];
      assert r == ApplyShot(prev, rp, target, s);
      forall x | x in r.scores ensures r.scores[x] <= target {
        if x == s.player && x in rp && Land(prev.scores[x], s.score, target) != Overshoot {
          assert r.scores[x] == prev.scores[x] + s.score;
        } else {
          assert r.scores[x] == prev.scores[x];
        }
      }
    }
  }

  /** When nobody ties, every score either is untouched or is still below the target. */
  lemma {:induction false} RunShotsNoTie(scores: map<string, int>, rp: seq<string>, target: int, shots: seq<Shot>)
    requires forall x :: x in rp ==> x in scores
    requires RunShots(scores, rp, target, shots).advancing == []
    ensures var r := RunShots(scores, rp, target, shots);
      forall x :: x in scores ==> r.scores[x] == scores[x] || r.scores[x] < target
  {
    if shots != [] {
      var prev := RunShots(scores, rp, target, shots[..|shots| - 1]);
      assert |prev.advancing| <= |RunShots(scores, rp, target, shots).advancing|;
      RunShotsNoTie(scores, rp, target, shots[..|shots| - 1]);
    }
  }

  /**
    A redemption player who started below the target and ends on it has tied,
    whatever shots came first (an overshoot before the exact shot included).
   */
  lemma {:induction false} RunShotsReachesTie(scores: map<string, int>, rp: seq<string>, target: int, shots: seq<Shot>, q: string)
    requires forall x :: x in rp ==> x in scores
    requires q in scores && scores[q] < target
    requires RunShots(scores, rp, target, shots).scores[q] == target
    ensures q in RunShots(scores, rp, target, shots).advancing
  {
    if shots != [] {
      var prev := RunShots(scores, rp, target, shots[..|shots| - 1]);
      var s := shots[|shots| - 1];
      if s.player == q && q in rp && Land(prev.scores[q], s.score, target) != Overshoot {
      } else {
        RunShotsReachesTie(scores, rp, target, shots[..|shots| - 1], q);
      }
    }
  }

  /** Every player who has tied so far in batch `b` is on the target. */
  predicate TiedOnTarget(b: Batch, target: int)
  {
    forall x :: x in b.advancing ==> x in b.scores && b.scores[x] == target
  }

  /** With no negative shots, every player who tied is still on the target at the end of the batch. */
  lemma {:induction false} RunShotsTiedStayOnTarget(scores: map<string, int>, rp: seq<string>, target: int, shots: seq<Shot>)
    requires forall x :: x in rp ==> x in scores
    requires forall i :: 0 <= i < |shots| ==> shots[i].score >= 0
    ensures TiedOnTarget(RunShots(scores, rp, target, shots), target)
  {
    if shots != [] {
      RunShotsTiedStayOnTarget(scores, rp, target, shots[..|shots| - 1]);
      var prev := RunShots(scores, rp, target, shots[..|shots| - 1]);
      var r := RunShots(scores, rp, target, shots);
      var s := shots[|shots| - 1];
      assert r == ApplyShot(prev, rp, target, s);
      assert s.score >= 0;
      forall x | x in r.advancing ensures x in r.scores && r.scores[x] == target {
        if x == s.player && x in rp && Land(prev.scores[x], s.score, target) != Overshoot {
          assert r.scores[x] == prev.scores[x] + s.score;
          if x in prev.advancing {
            assert prev.scores[x] == target;
          }
        } else {
          assert r.scores[x] == prev.scores[x];
          assert x in prev.advancing;
        }
      }
    }
  }

  /** With no redemption pending, the batch changes nothing. */
  lemma {:induction false} RunShotsNothingPending(scores: map<string, int>, target: int, shots: seq<Shot>)
    ensures RunShots(scores, [], target, shots) == Batch(scores, [])
  {
    if shots != [] {
      RunShotsNothingPending(scores, target, shots[..|shots| - 1]);
    }
  }

  /** An overshoot followed by an exact shot for the same player is a tie, not a bust. */
  lemma OvershootThenExact(scores: map<string, int>, q: string, target: int, over: int)
    requires q in scores && scores[q] < target && scores[q] + over > target
    ensures var r := RunShots(scores, [q], target, [Shot(q, over), Shot(q, target - scores[q])]);
      r.advancing == [q] && r.scores == scores[q := target]
  {
    var shots := [Shot(q, over), Shot(q, target - scores[q])];
    assert shots[..1][..0] == [];
    assert RunShots(scores, [q], target, shots[..1]) == Batch(scores, []);
  }

  /**
    A player who has tied and then scores 0 ties again and is listed twice, so
    the player list that goes to overtime need not be duplicate-free.
   */
  lemma RepeatedTieListedTwice(scores: map<string, int>, q: string, target: int)
    requires q in scores && scores[q] == target - 1
    ensures var r := RunShots(scores, [q], target, [Shot(q, 1), Shot(q, 0)]);
      r.advancing == [q, q] && r.scores == scores[q := target]
  {
    var shots := [Shot(q, 1), Shot(q, 0)];
    assert shots[..1][..0] == [];
    assert RunShots(scores, [q], target, shots[..1]) == Batch(scores[q := target], [q]);
  }

  // ---------------------------------------------------------------------------
  // Resolving the redemption round
  // ---------------------------------------------------------------------------

  /** Nobody tied: the leader stands and only the redemption players' scores moved. */
  lemma ProcessRedemptionNoTie(g: Game, shots: seq<Shot>)
    requires WellFormed(g)
    requires RunShots(g.scores, g.redemptionPlayers, g.targetScore, shots).advancing == []
    ensures var r := ProcessRedemption(g, shots);
      && r.outcome == WinnerStands(g.winner)
      && r.game.players == g.players
      && r.game.targetScore == g.targetScore
      && r.game.inOvertime == g.inOvertime
      && r.game.winner == g.winner
      && r.game.redemptionPlayers == g.redemptionPlayers
      && (forall q :: q in g.scores && q !in g.redemptionPlayers ==> r.game.scores[q] == g.scores[q])
  {
    forall q | q in g.scores && q !in g.redemptionPlayers {
      RunShotsSkipsOthers(g.scores, g.redemptionPlayers, g.targetScore, shots, q);
    }
  }

  /**
    Someone tied: the tying players in shot order, then the leader, go to
    overtime; there is no winner, the target rises by exactly the increment and
    no redemption is pending.
   */
  lemma ProcessRedemptionTie(g: Game, shots: seq<Shot>)
    requires Valid(g)
    requires RunShots(g.scores, g.redemptionPlayers, g.targetScore, shots).advancing != []
    ensures WellFormed(g) && g.winner.Some?
    ensures var b := RunShots(g.scores, g.redemptionPlayers, g.targetScore, shots);
      var r := ProcessRedemption(g, shots);
      && r.game.players == b.advancing + [g.winner.value]
      && g.winner.value !in b.advancing
      && (forall q :: q in r.game.players ==> q in g.players)
      && r.game.winner == None
      && r.game.inOvertime
      && r.game.targetScore == g.targetScore + 100
      && r.game.redemptionPlayers == []
      && r.outcome == PlayersAdvancing(g.targetScore + 100)
  {
  }

  /** With no negative shots, everyone who goes to overtime sits on the old target, level with the leader. */
  lemma ProcessRedemptionTiedLevel(g: Game, shots: seq<Shot>)
    requires Valid(g)
    requires forall i :: 0 <= i < |shots| ==> shots[i].score >= 0
    requires RunShots(g.scores, g.redemptionPlayers, g.targetScore, shots).advancing != []
    ensures WellFormed(g)
    ensures var r := ProcessRedemption(g, shots).game;
      forall q :: q in r.players ==> q in r.scores && r.scores[q] == g.targetScore
  {
    var b := RunShots(g.scores, g.redemptionPlayers, g.targetScore, shots);
    assert b.advancing[0] in g.redemptionPlayers;
    var w := g.winner.value;
    RunShotsTiedStayOnTarget(g.scores, g.redemptionPlayers, g.targetScore, shots);
    RunShotsSkipsOthers(g.scores, g.redemptionPlayers, g.targetScore, shots, w);
    var r := ProcessRedemption(g, shots).game;
    assert r.players == b.advancing + [w] && r.scores == b.scores;
    forall q | q in r.players ensures q in r.scores && r.scores[q] == g.targetScore {
      if q != w {
        assert q in b.advancing;
      }
    }
  }

  /** With no redemption pending, resolving changes nothing and reports the current winner. */
  lemma ProcessRedemptionIdle(g: Game, shots: seq<Shot>)
    requires WellFormed(g) && g.redemptionPlayers == []
    ensures ProcessRedemption(g, shots) == Resolved(g, WinnerStands(g.winner))
  {
    RunShotsNothingPending(g.scores, g.targetScore, shots);
  }

  lemma ProcessRedemptionPreservesValid(g: Game, shots: seq<Shot>)
    requires Valid(g)
    ensures WellFormed(g)
    ensures var r := ProcessRedemption(g, shots).game;
      && Valid(r)
      && r.targetScore >= g.targetScore
      && (g.inOvertime ==> r.inOvertime)
  {
    if RunShots(g.scores, g.redemptionPlayers, g.targetScore, shots).advancing == [] {
      NoTieKeepsValid(g, shots);
    } else {
      TieKeepsValid(g, shots);
    }
  }

  /** Replacing only the scores keeps the invariant when the new scores satisfy its conditions on scores. */
  lemma RescoredKeepsValid(g: Game, scores: map<string, int>)
    requires Valid(g)
    requires scores.Keys == g.scores.Keys
    requires AtMost(scores, g.targetScore)
    requires forall q :: q in g.players && g.winner != Some(q) ==> scores[q] < g.targetScore
    requires g.winner.Some? ==> scores[g.winner.value] == g.targetScore
    ensures Valid(g.(scores := scores))
  {
  }

  lemma NoTieKeepsValid(g: Game, shots: seq<Shot>)
    requires Valid(g)
    requires RunShots(g.scores, g.redemptionPlayers, g.targetScore, shots).advancing == []
    ensures WellFormed(g)
    ensures ProcessRedemption(g, shots).game == g.(scores := RunShots(g.scores, g.redemptionPlayers, g.targetScore, shots).scores)
    ensures Valid(ProcessRedemption(g, shots).game)
  {
    var b := RunShots(g.scores, g.redemptionPlayers, g.targetScore, shots);
    RunShotsBounded(g.scores, g.redemptionPlayers, g.targetScore, shots);
    RunShotsNoTie(g.scores, g.redemptionPlayers, g.targetScore, shots);
    if g.winner.Some? {
      RunShotsSkipsOthers(g.scores, g.redemptionPlayers, g.targetScore, shots, g.winner.value);
    }
    forall q | q in g.players && g.winner != Some(q) ensures b.scores[q] < g.targetScore {
      assert g.scores[q] < g.targetScore;
    }
    RescoredKeepsValid(g, b.scores);
  }

  lemma TieKeepsValid(g: Game, shots: seq<Shot>)
    requires Valid(g)
    requires RunShots(g.scores, g.redemptionPlayers, g.targetScore, shots).advancing != []
    ensures WellFormed(g)
    ensures Valid(ProcessRedemption(g, shots).game)
    ensures ProcessRedemption(g, shots).game.targetScore == g.targetScore + OvertimeIncrement
  {
    var b := RunShots(g.scores, g.redemptionPlayers, g.targetScore, shots);
    RunShotsBounded(g.scores, g.redemptionPlayers, g.targetScore, shots);
    assert b.advancing[0] in g.redemptionPlayers;
    var w := g.winner.value;
    var r := ProcessRedemption(g, shots).game;
    assert r == Game(b.advancing + [w], b.scores, g.targetScore + OvertimeIncrement, true, None, []);
    forall q | q in r.players ensures q in g.players {
      if q != w {
        assert q in b.advancing;
      }
    }
  }
}
