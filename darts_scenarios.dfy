/**
  The scenarios of the engine's test suite, replayed on the rules. The tests
  set totals by hand before a shot; here each shot starts from that state
  written out as a game value, and each redemption batch starts from the state
  the shot before it left.
 */
module DartsScenarios {
  import opened DartsRules
  import DartsProperties

  /** A regulation game in progress with the given players and totals, before anyone has reached the target. */
  function Regulation(players: seq<string>, scores: map<string, int>): Game
  {
    Game(players, scores, InitialTarget, false, None, [])
  }

  /** A regulation game in which `leader` has just reached 301 and `rp` owe a redemption shot. */
  function Pending(players: seq<string>, scores: map<string, int>, leader: string, rp: seq<string>): Game
  {
    Game(players, scores, InitialTarget, false, Some(leader), rp)
  }

  /** A batch of two shots is the second applied after the first. */
  lemma TwoShots(scores: map<string, int>, rp: seq<string>, target: int, s0: Shot, s1: Shot)
    requires forall x :: x in rp ==> x in scores
    ensures RunShots(scores, rp, target, [s0, s1]) ==
            ApplyShot(ApplyShot(Batch(scores, []), rp, target, s0), rp, target, s1)
  {
    DartsProperties.RunShotsAppend(scores, rp, target, [], s0);
    DartsProperties.RunShotsAppend(scores, rp, target, [s0], s1);
    assert [] + [s0] == [s0];
    assert [s0] + [s1] == [s0, s1];
  }

  /** A batch of four shots is each applied after the ones before it. */
  lemma FourShots(scores: map<string, int>, rp: seq<string>, target: int, s0: Shot, s1: Shot, s2: Shot, s3: Shot)
    requires forall x :: x in rp ==> x in scores
    ensures RunShots(scores, rp, target, [s0, s1, s2, s3]) ==
            ApplyShot(ApplyShot(RunShots(scores, rp, target, [s0, s1]), rp, target, s2), rp, target, s3)
  {
    DartsProperties.RunShotsAppend(scores, rp, target, [s0, s1], s2);
    DartsProperties.RunShotsAppend(scores, rp, target, [s0, s1, s2], s3);
    assert [s0, s1] + [s2] == [s0, s1, s2];
    assert [s0, s1, s2] + [s3] == [s0, s1, s2, s3];
  }

  /** Test 1: players are kept in the order they were added. */
  lemma AddsInOrder()
    ensures AddPlayer(AddPlayer(AddPlayer(Init(), "Alice"), "Bob"), "Charlie").players == ["Alice", "Bob", "Charlie"]
  {
  }

  /** Test 2, for any three names: shots under the target simply add up. */
  lemma ScoresAddFor(a: string, b: string, c: string)
    requires a != b && a != c && b != c
    ensures var g := AddPlayer(AddPlayer(AddPlayer(Init(), a), b), c);
      var g1 := RecordScore(g, a, 50).game;
      var g2 := RecordScore(g1, b, 60).game;
      var g3 := RecordScore(g2, c, 40).game;
      g3.scores == map[a := 50, b := 60, c := 40]
  {
  }

  /** Test 2: shots of 50, 60 and 40 are the three totals. */
  lemma ScoresAdd()
    ensures var g := AddPlayer(AddPlayer(AddPlayer(Init(), "Alice"), "Bob"), "Charlie");
      var g1 := RecordScore(g, "Alice", 50).game;
      var g2 := RecordScore(g1, "Bob", 60).game;
      var g3 := RecordScore(g2, "Charlie", 40).game;
      g3.scores == map["Alice" := 50, "Bob" := 60, "Charlie" := 40]
  {
    ScoresAddFor("Alice", "Bob", "Charlie");
  }

  /** In a game of two, the first to reach 301 leads and the other owes a redemption shot. */
  lemma LeaderOfTwo(a: string, b: string, sa: int, sb: int, delta: int)
    requires a != b && sa + delta == 301
    ensures RecordScore(Regulation([a, b], map[a := sa, b := sb]), a, delta) ==
            Scored(Pending([a, b], map[a := 301, b := sb], a, [b]), RedemptionRoundBegins)
  {
    assert [a, b][1..] == [b];
    assert [b][1..] == [];
    assert Without([a, b], a) == [b];
    assert map[a := sa, b := sb][a := 301] == map[a := 301, b := sb];
  }

  /** In a game of three, the first to reach 301 leads and the other two owe a redemption shot, in order. */
  lemma LeaderOfThree(a: string, b: string, c: string, sa: int, sb: int, sc: int, delta: int)
    requires a != b && a != c && b != c && sa + delta == 301
    ensures RecordScore(Regulation([a, b, c], map[a := sa, b := sb, c := sc]), a, delta) ==
            Scored(Pending([a, b, c], map[a := 301, b := sb, c := sc], a, [b, c]), RedemptionRoundBegins)
  {
    assert [a, b, c][1..] == [b, c];
    assert [b, c][1..] == [c];
    assert [c][1..] == [];
    assert Without([c], a) == [c];
    assert Without([b, c], a) == [b, c];
    assert Without([a, b, c], a) == [b, c];
    assert map[a := sa, b := sb, c := sc][a := 301] == map[a := 301, b := sb, c := sc];
  }

  /** Test 3: hitting 301 exactly makes a provisional winner and opens redemption for the others, in order. */
  lemma RegulationHit()
    ensures var g := Regulation(["Alice", "Bob", "Charlie"], map["Alice" := 250, "Bob" := 100, "Charlie" := 100]);
      && Valid(g)
      && RecordScore(g, "Alice", 51) ==
         Scored(Pending(["Alice", "Bob", "Charlie"], map["Alice" := 301, "Bob" := 100, "Charlie" := 100],
                        "Alice", ["Bob", "Charlie"]),
                RedemptionRoundBegins)
  {
    LeaderOfThree("Alice", "Bob", "Charlie", 250, 100, 100, 51);
  }

  /** Test 4: when no redemption shot ties, the provisional winner stands and the totals are kept. */
  lemma RedemptionFails()
    ensures var hit := Pending(["Alice", "Bob", "Charlie"], map["Alice" := 301, "Bob" := 100, "Charlie" := 100],
                               "Alice", ["Bob", "Charlie"]);
      ProcessRedemption(hit, [Shot("Bob", 199), Shot("Charlie", 180)]) ==
      Resolved(hit.(scores := map["Alice" := 301, "Bob" := 299, "Charlie" := 280]), WinnerStands(Some("Alice")))
  {
    var hit := Pending(["Alice", "Bob", "Charlie"], map["Alice" := 301, "Bob" := 100, "Charlie" := 100],
                       "Alice", ["Bob", "Charlie"]);
    var b1 := ApplyShot(Batch(hit.scores, []), hit.redemptionPlayers, 301, Shot("Bob", 199));
    assert b1 == Batch(hit.scores["Bob" := 299], []);
    var b2 := ApplyShot(b1, hit.redemptionPlayers, 301, Shot("Charlie", 180));
    assert b2 == Batch(map["Alice" := 301, "Bob" := 299, "Charlie" := 280], []);
    TwoShots(hit.scores, hit.redemptionPlayers, 301, Shot("Bob", 199), Shot("Charlie", 180));
  }

  /** Test 5, the leader's shot: Alice hits 301 and Bob, then Charlie, owe a redemption shot. */
  lemma RedemptionTiesLeader()
    ensures RecordScore(Regulation(["Alice", "Bob", "Charlie"], map["Alice" := 250, "Bob" := 200, "Charlie" := 280]),
                        "Alice", 51) ==
            Scored(Pending(["Alice", "Bob", "Charlie"], map["Alice" := 301, "Bob" := 200, "Charlie" := 280],
                           "Alice", ["Bob", "Charlie"]),
                   RedemptionRoundBegins)
  {
    LeaderOfThree("Alice", "Bob", "Charlie", 250, 200, 280, 51);
  }

  /** Test 5: one tie sends the tying player and then the leader to overtime at 401. */
  lemma RedemptionTies()
    ensures var hit := Pending(["Alice", "Bob", "Charlie"], map["Alice" := 301, "Bob" := 200, "Charlie" := 280],
                               "Alice", ["Bob", "Charlie"]);
      ProcessRedemption(hit, [Shot("Bob", 101), Shot("Charlie", 20)]) ==
      Resolved(Game(["Bob", "Alice"], map["Alice" := 301, "Bob" := 301, "Charlie" := 300], 401, true, None, []),
               PlayersAdvancing(401))
  {
    var hit := Pending(["Alice", "Bob", "Charlie"], map["Alice" := 301, "Bob" := 200, "Charlie" := 280],
                       "Alice", ["Bob", "Charlie"]);
    var b1 := ApplyShot(Batch(hit.scores, []), hit.redemptionPlayers, 301, Shot("Bob", 101));
    assert b1 == Batch(hit.scores["Bob" := 301], ["Bob"]);
    var b2 := ApplyShot(b1, hit.redemptionPlayers, 301, Shot("Charlie", 20));
    assert b2 == Batch(map["Alice" := 301, "Bob" := 301, "Charlie" := 300], ["Bob"]);
    TwoShots(hit.scores, hit.redemptionPlayers, 301, Shot("Bob", 101), Shot("Charlie", 20));
  }

  /** Test 6: a lone player under the target is not a winner. */
  lemma SoloUnderTarget()
    ensures var g := AddPlayer(Init(), "SoloPlayer");
      RecordScore(g, "SoloPlayer", 50) == Scored(g.(scores := map["SoloPlayer" := 50]), NoSignal)
  {
  }

  /** A lone player who hits the target wins at once: nobody owes a redemption shot. */
  lemma SoloHitsTarget()
    ensures var g := Regulation(["SoloPlayer"], map["SoloPlayer" := 300]);
      var r := RecordScore(g, "SoloPlayer", 1);
      && r.signal == RedemptionRoundBegins
      && r.game.winner == Some("SoloPlayer")
      && r.game.redemptionPlayers == []
      && Valid(r.game)
  {
  }

  /** Test 7: overshooting the target is a bust and the total stays where it was. */
  lemma OvershootBusts()
    ensures var g := Regulation(["Alice", "Bob"], map["Alice" := 300, "Bob" := 0]);
      RecordScore(g, "Alice", 10) == Scored(g, Bust)
  {
  }

  /** Test 8, first round: Alice reaches 301, Bob ties, and both go to 401 with Bob listed first. */
  lemma FirstOvertime()
    ensures RecordScore(Regulation(["Alice", "Bob"], map["Alice" := 300, "Bob" := 300]), "Alice", 1) ==
            Scored(Pending(["Alice", "Bob"], map["Alice" := 301, "Bob" := 300], "Alice", ["Bob"]), RedemptionRoundBegins)
    ensures ProcessRedemption(Pending(["Alice", "Bob"], map["Alice" := 301, "Bob" := 300], "Alice", ["Bob"]),
                              [Shot("Bob", 1)]) ==
            Resolved(Game(["Bob", "Alice"], map["Alice" := 301, "Bob" := 301], 401, true, None, []),
                     PlayersAdvancing(401))
  {
    LeaderOfTwo("Alice", "Bob", 300, 300, 1);
    var shots := [Shot("Bob", 1)];
    DartsProperties.RunShotsAppend(map["Alice" := 301, "Bob" := 300], ["Bob"], 301, [], shots[0]);
    assert [] + [shots[0]] == shots;
    assert map["Alice" := 301, "Bob" := 300]["Bob" := 301] == map["Alice" := 301, "Bob" := 301];
  }

  /** Test 8, second round: from 400 each, Alice reaches 401 in overtime, Bob ties again, and the target becomes 501. */
  lemma SecondOvertime()
    ensures var ot := Game(["Bob", "Alice"], map["Alice" := 400, "Bob" := 400], 401, true, None, []);
      RecordScore(ot, "Alice", 1) ==
      Scored(ot.(scores := map["Alice" := 401, "Bob" := 400], winner := Some("Alice"), redemptionPlayers := ["Bob"]),
             OvertimeRedemptionRoundBegins)
    ensures var hit := Game(["Bob", "Alice"], map["Alice" := 401, "Bob" := 400], 401, true, Some("Alice"), ["Bob"]);
      ProcessRedemption(hit, [Shot("Bob", 1)]) ==
      Resolved(Game(["Bob", "Alice"], map["Alice" := 401, "Bob" := 401], 501, true, None, []), PlayersAdvancing(501))
  {
    assert ["Bob", "Alice"][1..] == ["Alice"];
    assert Without(["Bob", "Alice"], "Alice") == ["Bob"];
    assert map["Alice" := 400, "Bob" := 400]["Alice" := 401] == map["Alice" := 401, "Bob" := 400];
    var shots := [Shot("Bob", 1)];
    DartsProperties.RunShotsAppend(map["Alice" := 401, "Bob" := 400], ["Bob"], 401, [], shots[0]);
    assert [] + [shots[0]] == shots;
    assert map["Alice" := 401, "Bob" := 400]["Bob" := 401] == map["Alice" := 401, "Bob" := 401];
  }

  const Five: seq<string> := ["Alice", "Bob", "Charlie", "Dave", "Eve"]

  /** Test 9, the leader's shot: Dave reaches 301 and the other four owe a redemption shot, in order. */
  lemma MultiWayLeader()
    ensures var g := Regulation(Five, map["Alice" := 100, "Bob" := 150, "Charlie" := 250, "Dave" := 300, "Eve" := 200]);
      RecordScore(g, "Dave", 1) ==
        Scored(g.(scores := g.scores["Dave" := 301], winner := Some("Dave"),
                  redemptionPlayers := ["Alice", "Bob", "Charlie", "Eve"]),
               RedemptionRoundBegins)
  {
    assert Five[1..] == ["Bob", "Charlie", "Dave", "Eve"];
    assert Five[1..][1..] == ["Charlie", "Dave", "Eve"];
    assert Five[1..][1..][1..] == ["Dave", "Eve"];
    assert ["Dave", "Eve"][1..] == ["Eve"];
    assert Without(["Eve"], "Dave") == ["Eve"];
    assert Without(Five[1..][1..][1..], "Dave") == ["Eve"];
    assert Without(Five[1..][1..], "Dave") == ["Charlie", "Eve"];
    assert Without(Five[1..], "Dave") == ["Bob", "Charlie", "Eve"];
    assert Without(Five, "Dave") == ["Alice", "Bob", "Charlie", "Eve"];
  }

  /** Test 9, the first two redemption shots, for any five names: both tie. */
  lemma MultiWayFirstPair(a: string, b: string, c: string, d: string, e: string)
    requires a != b && a != c && a != d && a != e && b != c && b != d && b != e && c != d && c != e && d != e
    ensures var scores := map[a := 100, b := 150, c := 250, d := 301, e := 200];
      RunShots(scores, [a, b, c, e], 301, [Shot(a, 201), Shot(b, 151)]) == Batch(scores[a := 301][b := 301], [a, b])
  {
    var scores := map[a := 100, b := 150, c := 250, d := 301, e := 200];
    var rp := [a, b, c, e];
    var b1 := ApplyShot(Batch(scores, []), rp, 301, Shot(a, 201));
    assert b1 == Batch(scores[a := 301], [a]);
    assert scores[a := 301][b] == 150;
    TwoShots(scores, rp, 301, Shot(a, 201), Shot(b, 151));
  }

  /** Test 9, the redemption shots, for any five names: the first three tie in shot order; the fourth falls one short. */
  lemma MultiWayShots(a: string, b: string, c: string, d: string, e: string)
    requires a != b && a != c && a != d && a != e && b != c && b != d && b != e && c != d && c != e && d != e
    ensures RunShots(map[a := 100, b := 150, c := 250, d := 301, e := 200], [a, b, c, e], 301,
                     [Shot(a, 201), Shot(b, 151), Shot(c, 51), Shot(e, 100)]).advancing
            == [a, b, c]
  {
    var scores := map[a := 100, b := 150, c := 250, d := 301, e := 200];
    var rp := [a, b, c, e];
    MultiWayFirstPair(a, b, c, d, e);
    FourShots(scores, rp, 301, Shot(a, 201), Shot(b, 151), Shot(c, 51), Shot(e, 100));
    var m2 := scores[a := 301][b := 301];
    assert m2[c] == 250 && m2[e] == 200;
    var b3 := ApplyShot(Batch(m2, [a, b]), rp, 301, Shot(c, 51));
    assert b3 == Batch(m2[c := 301], [a, b, c]);
    assert m2[c := 301][e] == 200;
  }

  /** Test 9: the three who tied and then the leader go to overtime at 401, with no winner. */
  lemma MultiWayTie()
    ensures var hit := Game(Five, map["Alice" := 100, "Bob" := 150, "Charlie" := 250, "Dave" := 301, "Eve" := 200],
                            301, false, Some("Dave"), ["Alice", "Bob", "Charlie", "Eve"]);
      var r := ProcessRedemption(hit, [Shot("Alice", 201), Shot("Bob", 151), Shot("Charlie", 51), Shot("Eve", 100)]);
      && r.outcome == PlayersAdvancing(401)
      && r.game.targetScore == 401
      && r.game.players == ["Alice", "Bob", "Charlie", "Dave"]
      && r.game.winner == None && r.game.inOvertime && r.game.redemptionPlayers == []
  {
    MultiWayShots("Alice", "Bob", "Charlie", "Dave", "Eve");
  }

  /** Test 10, for any two names: alternating turns accumulate per player. */
  lemma AlternatingTurnsFor(a: string, b: string)
    requires a != b
    ensures var g := AddPlayer(AddPlayer(Init(), a), b);
      var g1 := RecordScore(g, a, 50).game;
      var g2 := RecordScore(g1, b, 40).game;
      var g3 := RecordScore(g2, a, 25).game;
      var g4 := RecordScore(g3, b, 60).game;
      g4.scores == map[a := 75, b := 100]
  {
  }

  /** Test 10: alternating turns give Alice 75 and Bob 100. */
  lemma AlternatingTurns()
    ensures var g := AddPlayer(AddPlayer(Init(), "Alice"), "Bob");
      var g1 := RecordScore(g, "Alice", 50).game;
      var g2 := RecordScore(g1, "Bob", 40).game;
      var g3 := RecordScore(g2, "Alice", 25).game;
      var g4 := RecordScore(g3, "Bob", 60).game;
      g4.scores == map["Alice" := 75, "Bob" := 100]
  {
    AlternatingTurnsFor("Alice", "Bob");
  }

  /** Test 11, the leader's shot: A hits 301 from 200 and B, then C, owe a redemption shot. */
  lemma OneOfTwoTiesLeader()
    ensures RecordScore(Regulation(["A", "B", "C"], map["A" := 200, "B" := 250, "C" := 250]), "A", 101) ==
            Scored(Pending(["A", "B", "C"], map["A" := 301, "B" := 250, "C" := 250], "A", ["B", "C"]),
                   RedemptionRoundBegins)
  {
    LeaderOfThree("A", "B", "C", 200, 250, 250, 101);
  }

  /** Test 11: B falls short, C ties; C and then A go to 401. */
  lemma OneOfTwoTies()
    ensures var hit := Pending(["A", "B", "C"], map["A" := 301, "B" := 250, "C" := 250], "A", ["B", "C"]);
      ProcessRedemption(hit, [Shot("B", 10), Shot("C", 51)]) ==
      Resolved(Game(["C", "A"], map["A" := 301, "B" := 260, "C" := 301], 401, true, None, []), PlayersAdvancing(401))
  {
    var hit := Pending(["A", "B", "C"], map["A" := 301, "B" := 250, "C" := 250], "A", ["B", "C"]);
    var b1 := ApplyShot(Batch(hit.scores, []), hit.redemptionPlayers, 301, Shot("B", 10));
    assert b1 == Batch(hit.scores["B" := 260], []);
    var b2 := ApplyShot(b1, hit.redemptionPlayers, 301, Shot("C", 51));
    assert b2 == Batch(map["A" := 301, "B" := 260, "C" := 301], ["C"]);
    TwoShots(hit.scores, hit.redemptionPlayers, 301, Shot("B", 10), Shot("C", 51));
  }

  /** Test 12: an overshoot and then an exact shot by the same player in one batch is a tie. */
  lemma OvershootThenTie()
    ensures RecordScore(Regulation(["A", "B"], map["A" := 200, "B" := 200]), "A", 101) ==
            Scored(Pending(["A", "B"], map["A" := 301, "B" := 200], "A", ["B"]), RedemptionRoundBegins)
    ensures ProcessRedemption(Pending(["A", "B"], map["A" := 301, "B" := 200], "A", ["B"]),
                              [Shot("B", 105), Shot("B", 101)]) ==
            Resolved(Game(["B", "A"], map["A" := 301, "B" := 301], 401, true, None, []), PlayersAdvancing(401))
  {
    LeaderOfTwo("A", "B", 200, 200, 101);
    var scores := map["A" := 301, "B" := 200];
    var b1 := ApplyShot(Batch(scores, []), ["B"], 301, Shot("B", 105));
    assert b1 == Batch(scores, []);
    var b2 := ApplyShot(b1, ["B"], 301, Shot("B", 101));
    assert b2 == Batch(map["A" := 301, "B" := 301], ["B"]);
    TwoShots(scores, ["B"], 301, Shot("B", 105), Shot("B", 101));
  }
}
