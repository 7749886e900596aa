/**
  The rules of the darts scoring engine, as functions on an immutable game value.

  A game is played to an exact target. A shot that would go over the target is
  a bust and is discarded; a shot that lands exactly on it makes the shooter the
  provisional winner and gives every other player one redemption shot; a
  redemption shot that ties the leader sends the tying players and the leader
  into overtime, where the target rises by a fixed increment.

  The class `DartsEngine.DartsGame` updates its fields in place and is proved
  to move between exactly the states these functions describe.
 */
module DartsRules {

  /** The target every game starts with. */
  const InitialTarget: int := 301

  /** How far the target rises each time a tie starts a new overtime round. */
  const OvertimeIncrement: int := 100

  datatype Option<T> = None | Some(value: T)

  /** The six fields of the engine. */
  datatype Game = Game(
    players: seq<string>,
    scores: map<string, int>,
    targetScore: int,
    inOvertime: bool,
    winner: Option<string>,
    redemptionPlayers: seq<string>)

  /** What a normal-turn shot reports; `NoSignal` stands for the source's undefined return. */
  datatype Signal = NoSignal | Bust | RedemptionRoundBegins | OvertimeRedemptionRoundBegins

  /** What resolving a redemption round reports. */
  datatype Outcome = WinnerStands(winner: Option<string>) | PlayersAdvancing(target: int)

  /** One redemption shot: who shot and how many points. */
  datatype Shot = Shot(player: string, score: int)

  datatype Scored = Scored(game: Game, signal: Signal)

  datatype Resolved = Resolved(game: Game, outcome: Outcome)

  /** The running state of a redemption batch: the scores so far and who has tied, in order. */
  datatype Batch = Batch(scores: map<string, int>, advancing: seq<string>)

  /** Where a shot of `delta` points from `total` lands against `target`. */
  datatype Landing = Overshoot | OnTarget | Short

  function Land(total: int, delta: int, target: int): Landing
  {
    if total + delta > target then Overshoot
    else if total + delta == target then OnTarget
    else Short
  }

  predicate Distinct(s: seq<string>)
  {
    forall i, j :: 0 <= i < j < |s| ==> s[i] != s[j]
  }

  /** `s` with every occurrence of `p` removed, the rest in their order. */
  function Without(s: seq<string>, p: string): (r: seq<string>)
    ensures forall q :: q in r <==> q in s && q != p
    ensures |r| <= |s|
  {
    if s == [] then []
    else if s[0] == p then Without(s[1..], p)
    else [s[0]] + Without(s[1..], p)
  }

  /** No score in `scores` is above `target`. */
  predicate AtMost(scores: map<string, int>, target: int)
  {
    forall q :: q in scores ==> scores[q] <= target
  }

  /** What the operations need of the state to be defined at all. */
  predicate WellFormed(g: Game)
  {
    && (forall q :: q in g.players ==> q in g.scores)
    && (forall q :: q in g.redemptionPlayers ==> q in g.scores)
    && (g.redemptionPlayers != [] ==> g.winner.Some?)
  }

  /** The invariant the engine keeps between calls; it makes every operation defined. */
  predicate Valid(g: Game)
    ensures Valid(g) ==> WellFormed(g)
  {
    // the target is 301, 401, 501, ... and only overtime has raised it
    && g.targetScore >= InitialTarget
    && (g.targetScore - InitialTarget) % OvertimeIncrement == 0
    && (g.inOvertime <==> g.targetScore > InitialTarget)
    // no stored score is ever above the target
    && AtMost(g.scores, g.targetScore)
    // every player has a non-empty name and a score
    && (forall q :: q in g.players ==> q != "" && q in g.scores)
    // only a provisional or final winner sits on the target
    && (forall q :: q in g.players && g.winner != Some(q) ==> g.scores[q] < g.targetScore)
    && (g.winner.Some? ==>
          && g.winner.value in g.players
          && g.winner.value !in g.redemptionPlayers
          && g.scores[g.winner.value] == g.targetScore)
    // redemption is owed only by current players, and only while there is a leader
    && (forall q :: q in g.redemptionPlayers ==> q in g.players)
    && (g.winner.None? ==> g.redemptionPlayers == [])
  }

  /** The state the constructor builds. */
  function Init(): (r: Game)
    ensures Valid(r)
  {
    Game([], map[], InitialTarget, false, None, [])
  }

  /** Adds `name` unless it is already playing. */
  function AddPlayer(g: Game, name: string): (r: Game)
    ensures name in r.players && g.players <= r.players
    ensures |r.players| <= |g.players| + 1
  {
    if name in g.players then g
    else g.(players := g.players + [name], scores := g.scores[name := 0])
  }

  /** A normal-turn shot of `delta` points by `p`. */
  function RecordScore(g: Game, p: string, delta: int): (r: Scored)
    requires WellFormed(g)
    ensures r.game.players == g.players && r.game.targetScore == g.targetScore && r.game.inOvertime == g.inOvertime
    ensures r.signal == NoSignal || r.signal == Bust <==> r.game.winner == g.winner
  {
    if p !in g.players || g.winner.Some? then Scored(g, NoSignal)
    else
      var total := g.scores[p] + delta;
      match Land(g.scores[p], delta, g.targetScore)
      case Overshoot => Scored(g, Bust)
      case OnTarget =>
        Scored(g.(scores := g.scores[p := total], winner := Some(p),
                  redemptionPlayers := Without(g.players, p)),
               if g.inOvertime then OvertimeRedemptionRoundBegins else RedemptionRoundBegins)
      case Short => Scored(g.(scores := g.scores[p := total]), NoSignal)
  }

  /** Raises the target by the increment for a new overtime round; players, scores and winner are kept. */
  function StartOvertime(g: Game): (r: Game)
    ensures r.inOvertime && r.targetScore > g.targetScore && r.redemptionPlayers == []
    ensures r.players == g.players && r.scores == g.scores && r.winner == g.winner
  {
    g.(inOvertime := true, targetScore := g.targetScore + OvertimeIncrement, redemptionPlayers := [])
  }

  /** One redemption shot applied to the running batch; shots by players who owe none are skipped. */
  function ApplyShot(b: Batch, rp: seq<string>, target: int, s: Shot): (r: Batch)
    requires s.player in rp ==> s.player in b.scores
    ensures r.scores.Keys == b.scores.Keys
  {
    if s.player !in rp then b
    else
      var total := b.scores[s.player] + s.score;
      match Land(b.scores[s.player], s.score, target)
      case Overshoot => b
      case OnTarget => Batch(b.scores[s.player := total], b.advancing + [s.player])
      case Short => Batch(b.scores[s.player := total], b.advancing)
  }

  /** The redemption shots applied in order, each against the shooter's running total. */
  function RunShots(scores: map<string, int>, rp: seq<string>, target: int, shots: seq<Shot>): (r: Batch)
    requires forall q :: q in rp ==> q in scores
    ensures r.scores.Keys == scores.Keys
    ensures forall q :: q in r.advancing ==> q in rp
    decreases |shots|
  {
    if shots == [] then Batch(scores, [])
    else ApplyShot(RunShots(scores, rp, target, shots[..|shots| - 1]), rp, target, shots[|shots| - 1])
  }

  /** Resolves a redemption round: the leader stands, or every tying player and the leader go to overtime. */
  function ProcessRedemption(g: Game, shots: seq<Shot>): (r: Resolved)
    requires WellFormed(g)
    ensures r.game.scores.Keys == g.scores.Keys
    ensures r.game.targetScore >= g.targetScore
    ensures r.outcome.WinnerStands? <==> r.game.winner == g.winner
  {
    var b := RunShots(g.scores, g.redemptionPlayers, g.targetScore, shots);
    if b.advancing == [] then Resolved(g.(scores := b.scores), WinnerStands(g.winner))
    else
      assert b.advancing[0] in g.redemptionPlayers;
      var next := StartOvertime(g.(scores := b.scores, players := b.advancing + [g.winner.value], winner := None));
      Resolved(next, PlayersAdvancing(next.targetScore))
  }
}
