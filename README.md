# Darts scoring engine, modelled in Dafny

This project models the `DartsGame` scoring engine of a darts score-keeping
application. The model is taken from `darts_scoring_game.js`. A game is played
to an exact target, 301 at first:

- A shot that would go over the target is a bust and is discarded.
- A shot that lands exactly on the target makes the shooter the provisional
  winner. Every other player then owes one redemption shot.
- A batch of redemption shots is applied in order, each against the shooter's
  running total.
- If nobody ties, the winner stands. If anyone ties, the tying players and then
  the leader go to overtime. The winner is cleared and the target rises by 100.

The model has four modules:

- `DartsRules` (`darts_rules.dfy`) is the specification. It holds the six fields
  of the engine as a `Game` value and every operation as a function on it. The
  redemption loop is the left fold `RunShots` over the shot list. `Valid` is the
  invariant the engine keeps between calls.
- `DartsProperties` (`darts_properties.dfy`) holds the lemmas about those
  functions:
  - the bust, exact-hit and undershoot rules;
  - the two outcomes of a redemption round;
  - preservation of `Valid` by adding a player, a shot and resolving a round, and by starting overtime when no winner is set.
- `DartsEngine` (`darts_game.dfy`) holds the class `DartsGame`:
  - Its six fields are updated in place.
  - `AddPlayer`, `RecordScore`, `StartOvertime` and `ProcessRedemption` are
    each proved to move the fields exactly as the matching function of
    `DartsRules` moves the game value.
  - `AddPlayer`, `RecordScore` and `ProcessRedemption` also keep `Valid`.
    `StartOvertime`, called directly, keeps it when no winner is set
    (`StartOvertimeKeepsValid`). The engine's own call inside
    `ProcessRedemption` starts from a state that is not valid, because the
    tying players and the old leader sit on the target with no winner;
    `TieKeepsValid` proves the state after that call valid.
  - `GetWinner` and `ApplyRedemptionShots` have no matching function.
    `GetWinner` returns the winner field. `ApplyRedemptionShots` is proved
    equal to the fold `RunShots`.
  - The redemption loop is a `for` loop. Its invariant is the fold over the
    shots processed so far.
- `DartsScenarios` (`darts_scenarios.dfy`) replays Tests 1 to 12 of `test.js` as
  lemmas about concrete games.

The invariant `Valid` states these facts:

- The target is 301, 401, 501, and so on.
- The game is in overtime exactly when the target is above 301.
- No stored score is above the target.
- Every player has a non-empty name and a score.
- Only the winner sits on the target, and the winner is a player who owes no
  redemption shot.
- Redemption is owed only by current players, and only while there is a winner.

## Model

| member | source | states |
|---|---|---|
| DartsEngine.DartsGame.constructor | darts_scoring_game.js:2-10 | a new engine has no players, no scores, target 301, no overtime, no winner, no redemption pending, and satisfies the invariant |
| DartsEngine.DartsGame.AddPlayer | darts_scoring_game.js:12-17 | a new name is appended and scored 0; a name already playing leaves every field unchanged; the invariant is kept |
| DartsEngine.DartsGame.RecordScore | darts_scoring_game.js:19-58 | the fields and the returned signal are exactly those of the bust / exact / undershoot rule; players, target and overtime flag are unchanged; a bust changes nothing; the invariant is kept |
| DartsEngine.DartsGame.StartOvertime | darts_scoring_game.js:60-64 | overtime is on, the target rises by exactly 100, and no redemption is pending |
| DartsEngine.DartsGame.GetWinner | darts_scoring_game.js:66-68 | returns the winner; a winner is a player on the target, and every other player is below it |
| DartsEngine.DartsGame.ApplyRedemptionShots | darts_scoring_game.js:77-101 | after the loop, the scores and the list of tying players equal the in-order fold of the shots over the old scores |
| DartsEngine.DartsGame.ProcessRedemption | darts_scoring_game.js:70-115 | the fields and the outcome are exactly those of resolving the round (winner stands, or tying players plus leader advance to a raised target); the invariant is kept |
| DartsRules.Valid | darts_scoring_game.js:2-115 | reference definition of the invariant the engine keeps between calls; it implies that every operation is defined on the state |
| DartsRules.Init | darts_scoring_game.js:2-10 | reference definition of the constructed state; that state satisfies the invariant |
| DartsRules.AddPlayer | darts_scoring_game.js:12-17 | reference definition of adding a player; afterwards the name is playing, the old list is a prefix of the new one, and at most one entry was added |
| DartsRules.RecordScore | darts_scoring_game.js:19-58 | reference definition of a normal-turn shot; players, target and overtime flag are kept, and the winner changes exactly when the signal is a redemption signal |
| DartsRules.StartOvertime | darts_scoring_game.js:60-64 | reference definition of starting overtime; overtime is on, the target rises, nothing is pending, and players, scores and winner are kept |
| DartsRules.ApplyShot | darts_scoring_game.js:81-100 | reference definition of one redemption shot (skip, bust, tie or add); the set of scored players is kept |
| DartsRules.ProcessRedemption | darts_scoring_game.js:70-115 | reference definition of resolving a round; the set of scored players is kept, the target never falls, and the winner is unchanged exactly when the outcome is that the winner stands |
| DartsRules.Without | darts_scoring_game.js:42 | the result holds exactly the players other than the scorer, and is no longer than the list |
| DartsRules.RunShots | darts_scoring_game.js:79-101 | the batch keeps the set of scored players, and only players who owed a redemption shot can be listed as tying |
| DartsProperties.WithoutConcat | darts_scoring_game.js:42 | removing the scorer keeps order: it distributes over concatenation |
| DartsProperties.WithoutAbsent | darts_scoring_game.js:42 | removing a name that is not there returns the list unchanged |
| DartsProperties.WithoutDistinct | darts_scoring_game.js:42 | from a duplicate-free list, removal keeps it duplicate-free and takes out exactly one entry when the scorer is present |
| DartsProperties.InitIsValid | darts_scoring_game.js:2-10 | the initial game has the constructor's field values and satisfies the invariant |
| DartsProperties.AddPlayerAppends | darts_scoring_game.js:12-17 | a new name goes at the end, the earlier players keep their order, it is scored 0 and other scores are unchanged; a known name changes nothing; membership is the old players plus the name |
| DartsProperties.AddPlayerKeepsDistinct | darts_scoring_game.js:12-17 | adding keeps the player list duplicate-free |
| DartsProperties.AddPlayerIdempotent | darts_scoring_game.js:12-17 | adding the same name twice equals adding it once |
| DartsProperties.AddPlayerPreservesValid | darts_scoring_game.js:12-17 | adding a non-empty name keeps the invariant |
| DartsProperties.RecordScoreIgnored | darts_scoring_game.js:21-23 | a shot by an unknown player, or once a winner is set, changes nothing and signals nothing |
| DartsProperties.RecordScoreBust | darts_scoring_game.js:29-32 | the signal is Bust if and only if a known player's shot goes over the target while there is no winner; a bust leaves the game unchanged |
| DartsProperties.RecordScoreExact | darts_scoring_game.js:34-52 | an exact hit puts the scorer on the target as winner; the pending list is the player list with the scorer removed, order kept, so redemption is owed by exactly the other players (one fewer than the players when they are distinct); the player list, target and overtime flag are kept; the signal depends on overtime |
| DartsProperties.RecordScoreSameInOvertime | darts_scoring_game.js:37-52 | the state change of a shot is the same in and out of overtime; only the signal differs |
| DartsProperties.RecordScoreShort | darts_scoring_game.js:55-57 | a shot under the target adds its points to the scorer, signals nothing, and changes nothing else |
| DartsProperties.RecordScoreFrame | darts_scoring_game.js:19-58 | a shot never changes the player list, the target, the overtime flag, the set of scored players or any other player's score |
| DartsProperties.RecordScorePreservesValid | darts_scoring_game.js:19-58 | every shot keeps the invariant, so no stored score is ever pushed above the target |
| DartsProperties.RunShotsAppend | darts_scoring_game.js:79-101 | helper: the definition of the fold unfolded for one more shot at the end, so the batch with one more shot is the previous batch with that shot applied |
| DartsProperties.StartOvertimeKeepsValid | darts_scoring_game.js:60-64 | with no winner set, starting overtime keeps the invariant and raises the target by exactly 100 |
| DartsProperties.StartOvertimeWithWinnerBreaksValid | darts_scoring_game.js:60-64 | a valid game with a winner on 301 is no longer valid after a direct start of overtime, because the winner is left below the raised target |
| DartsProperties.RunShotsSkipsOthers | darts_scoring_game.js:81-83 | shots by a player who owes no redemption shot never change that player's score |
| DartsProperties.RunShotsBounded | darts_scoring_game.js:88-100 | no redemption shot pushes a score above the target |
| DartsProperties.RunShotsNoTie | darts_scoring_game.js:88-100 | when nobody ties, every score is either untouched or still below the target |
| DartsProperties.RunShotsReachesTie | darts_scoring_game.js:92-96 | a redemption player who started below the target and ends on it is listed as tying |
| DartsProperties.RunShotsTiedStayOnTarget | darts_scoring_game.js:92-96 | with no negative shots, every tying player is still on the target at the end of the batch |
| DartsProperties.RunShotsNothingPending | darts_scoring_game.js:79-83 | with nobody owing a shot, the batch changes nothing |
| DartsProperties.OvershootThenExact | darts_scoring_game.js:85-96 | an overshoot followed by an exact shot by the same player ends on the target and counts as a tie |
| DartsProperties.RepeatedTieListedTwice | darts_scoring_game.js:92-95 | a player who ties and then scores 0 is listed as tying twice |
| DartsProperties.ProcessRedemptionNoTie | darts_scoring_game.js:103-105 | with no tie the outcome is the current winner; players, target, overtime flag, winner, pending list and all scores of players who owed no shot are unchanged |
| DartsProperties.ProcessRedemptionTie | darts_scoring_game.js:106-113 | with a tie the players become the tying players in shot order followed by the leader; the leader is not among them and every one was a player; the winner is cleared; overtime is on; the target rises by exactly 100; nothing is pending; the outcome names the new target |
| DartsProperties.ProcessRedemptionTiedLevel | darts_scoring_game.js:92-113 | with no negative shots, everyone who goes to overtime sits on the old target, level with the leader |
| DartsProperties.ProcessRedemptionIdle | darts_scoring_game.js:79-105 | with no redemption pending, resolving changes nothing and reports the current winner |
| DartsProperties.ProcessRedemptionPreservesValid | darts_scoring_game.js:70-115 | resolving keeps the invariant; the target never falls and overtime is never left |
| DartsProperties.NoTieKeepsValid | darts_scoring_game.js:103-105 | with no tie only the scores change, and the invariant is kept |
| DartsProperties.TieKeepsValid | darts_scoring_game.js:106-113 | with a tie the invariant is kept and the target rises by the increment |
| DartsScenarios.LeaderOfTwo | darts_scoring_game.js:34-43 | in a game of two, reaching 301 makes the scorer the leader and the other player owes redemption |
| DartsScenarios.LeaderOfThree | darts_scoring_game.js:34-43 | in a game of three, reaching 301 makes the scorer the leader and the other two owe redemption, in order |
| DartsScenarios.AddsInOrder | test.js:120-131 | Test 1: three players are listed in the order added |
| DartsScenarios.ScoresAddFor | test.js:134-154 | Test 2 for any three distinct names: shots of 50, 60 and 40 are the three totals |
| DartsScenarios.ScoresAdd | test.js:134-154 | Test 2: shots of 50, 60 and 40 are the three totals |
| DartsScenarios.RegulationHit | test.js:157-184 | Test 3: Alice at 250 scoring 51 is on 301 and is the winner; Bob then Charlie owe redemption; the signal is the regulation one |
| DartsScenarios.RedemptionFails | test.js:187-212 | Test 4: Bob to 299 and Charlie to 280 do not tie, so Alice stands and the totals are kept |
| DartsScenarios.RedemptionTiesLeader | test.js:215-229 | Test 5: Alice reaches 301 with Bob on 200 and Charlie on 280 owing redemption |
| DartsScenarios.RedemptionTies | test.js:231-248 | Test 5: Bob ties, so the players are Bob then Alice, the target is 401 and there is no winner |
| DartsScenarios.SoloUnderTarget | test.js:252-262 | Test 6: a lone player scoring 50 is not a winner |
| DartsScenarios.SoloHitsTarget | darts_scoring_game.js:34-43 | a lone player who hits 301 is the winner at once with nobody owing redemption |
| DartsScenarios.OvershootBusts | test.js:265-286 | Test 7: 300 plus 10 is a bust and the game is unchanged |
| DartsScenarios.FirstOvertime | test.js:288-305 | Test 8: Alice hits 301, Bob ties, and both go to 401 |
| DartsScenarios.SecondOvertime | test.js:307-323 | Test 8: from 400 each, Alice hits 401 with the overtime signal, Bob ties, and the target becomes 501 |
| DartsScenarios.MultiWayLeader | test.js:327-345 | Test 9: Dave reaches 301 and Alice, Bob, Charlie, Eve owe redemption, in order |
| DartsScenarios.MultiWayFirstPair | test.js:347-349 | Test 9: the first two redemption shots both tie |
| DartsScenarios.MultiWayShots | test.js:347-354 | Test 9: the first three redemption shots tie in order and Eve falls one short |
| DartsScenarios.MultiWayTie | test.js:327-371 | Test 9: Alice, Bob, Charlie and then Dave go to overtime, the target and the outcome are 401, and there is no winner |
| DartsScenarios.AlternatingTurnsFor | test.js:374-402 | Test 10 for any two distinct names: alternating turns give 75 and 100 |
| DartsScenarios.AlternatingTurns | test.js:374-402 | Test 10: alternating turns give Alice 75 and Bob 100 |
| DartsScenarios.OneOfTwoTiesLeader | test.js:405-423 | Test 11: A reaches 301 from 200, and B then C owe redemption |
| DartsScenarios.OneOfTwoTies | test.js:425-445 | Test 11: B falls short and C ties, so C then A go to 401 and B drops out |
| DartsScenarios.OvershootThenTie | test.js:448-489 | Test 12: B overshoots and then ties in one batch; A and B both go to 401 on 301 |

## Left out

- `app.js` is not part of this model. It is browser plumbing: DOM updates, input parsing and a turn counter that only calls the engine.
- The second copy of the engine class at the top of `test.js` is not modelled. Only the scenarios of that file are.
- The string results are modelled as datatypes:
  - the `recordScore` signals, with `NoSignal` for an undefined return;
  - `Winner: …` as `WinnerStands`;
  - `Players advancing to …` as `PlayersAdvancing`.
- `scores` is a plain JavaScript object in the source, and the model uses a map from names to integers. The object key `"__proto__"` is not captured. For that name, reading `scores[name]` yields `Object.prototype`, so the sum of a shot is a string. Both comparisons with the target (darts_scoring_game.js:29 and 34, and 88 and 92) are then false, and the writes at darts_scoring_game.js:15, 56 and 99 are silently ignored. In the source that player can never bust, never tie and never reach the target. The model stores and updates that player's score like any other.
- DartsEngine.DartsGame.StartOvertime: its contract does not include `Valid()`. A direct call to `startOvertime` (darts_scoring_game.js:60-64) while a winner is set breaks the invariant, because the winner is left below the raised target. `StartOvertimeWithWinnerBreaksValid` shows this. `StartOvertimeKeepsValid` covers a direct call when no winner is set. The engine's own call, inside `processRedemption`, is made on a state that is not valid; `TieKeepsValid` proves the state after it valid.
- JavaScript numbers are modelled as unbounded integers. No floating-point behaviour is captured.
- The source tests whether a winner exists by truthiness. The model uses `winner.Some?`. `Valid` requires every player name to be non-empty, because the empty string would be falsy. The application also rejects empty names.
- The tests assign totals directly to `scores` before a shot. This is not an operation of the engine. Each scenario starts from that state, written out as a game value.
- `overtimeIncrement` is a field of the source object that is never changed. It is modelled as the constant `OvertimeIncrement`.
- DartsProperties.ProcessRedemptionTie: the tie branch is specified only for games satisfying `Valid`, where a redemption round always has a winner. A call with redemption pending and no winner would append a missing winner to the players. That case is excluded by `WellFormed`.
- Duplicate-freedom of the players is not claimed after a tie. `RepeatedTieListedTwice` shows that one player can be listed twice.
- `ProcessRedemption` calls a separate method, `ApplyRedemptionShots`, for the shot loop of `processRedemption`. The loop body and its order are unchanged. Only the method boundary is new.
- When nobody ties, `processRedemption` does not clear the pending redemption list. Only `startOvertime` does. The model follows the code: after a round that the winner survives, the list is kept. Because the winner is set, every later shot and every later redemption batch works as in the source.
