/**
  The turn structure of the program's simulation: two players, Verde and
  Amarelo, each making one scripted attack per turn (Brasil on Argentina for
  Verde, Canada on Alasca for Amarelo), each followed by a check of that
  player's mission, for at most five turns.
*/
module Game {
  import opened Territories
  import opened Combat
  import opened Missions

  const Player1 := "Verde"
  const Player2 := "Amarelo"
  const TurnLimit := 5

  /** The program only launches an attack from a territory of the current
      player's colour against one of another colour; so a territory never
      attacks itself, nor one of its own colour. */
  predicate MayAttack(b: Board, player: string, from: int, to: int)
    requires 0 <= from < |b| && 0 <= to < |b|
    ensures MayAttack(b, player, from, to) ==> from != to && b[from].color != b[to].color
  {
    b[from].color == player && b[to].color != player
  }

  /** One attack attempt by `player` from `from` on `to`: if the gate is
      closed the board is unchanged; otherwise the two territories are
      replaced by the result of the attack. */
  function TurnStep(b: Board, player: string, from: int, to: int, rollA: int, rollD: int): (r: Board)
    requires 0 <= from < |b| && 0 <= to < |b|
    requires IsRoll(rollA) && IsRoll(rollD)
    ensures |r| == |b|
    ensures !MayAttack(b, player, from, to) ==> r == b
    ensures MayAttack(b, player, from, to) ==>
      && from != to
      && r[from] == Attack(b[from], b[to], rollA, rollD).attacker
      && r[to] == Attack(b[from], b[to], rollA, rollD).defender
    ensures forall k :: 0 <= k < |b| && k != from && k != to ==> r[k] == b[k]
    ensures Names(r) == Names(b)
  {
    if MayAttack(b, player, from, to) then
      var c := Attack(b[from], b[to], rollA, rollD);
      b[from := c.attacker][to := c.defender]
    else
      b
  }

  /** A turn step keeps every garrison non-negative. */
  lemma TurnStepPreservesValid(b: Board, player: string, from: int, to: int, rollA: int, rollD: int)
    requires 0 <= from < |b| && 0 <= to < |b|
    requires IsRoll(rollA) && IsRoll(rollD)
    ensures ValidBoard(b) ==> ValidBoard(TurnStep(b, player, from, to, rollA, rollD))
  {
  }

  /** A turn step never brings a new colour onto the board. */
  lemma TurnStepColors(b: Board, player: string, from: int, to: int, rollA: int, rollD: int)
    requires 0 <= from < |b| && 0 <= to < |b|
    requires IsRoll(rollA) && IsRoll(rollD)
    ensures Colors(TurnStep(b, player, from, to, rollA, rollD)) <= Colors(b)
  {
  }

  /** Troops on the whole board after a turn step: unchanged when the gate
      or the troop guard stops the attack, the defender's old garrison less
      after a conquest, one less after a failed attack. */
  lemma TurnStepTotalTroops(b: Board, player: string, from: int, to: int, rollA: int, rollD: int)
    requires 0 <= from < |b| && 0 <= to < |b|
    requires IsRoll(rollA) && IsRoll(rollD)
    ensures TotalTroops(TurnStep(b, player, from, to, rollA, rollD)) ==
      TotalTroops(b) - (if MayAttack(b, player, from, to) then Losses(b[from], b[to], rollA, rollD) else 0)
  {
    if MayAttack(b, player, from, to) {
      var c := Attack(b[from], b[to], rollA, rollD);
      var b1 := b[from := c.attacker];
      TotalTroopsUpdate(b, from, c.attacker);
      TotalTroopsUpdate(b1, to, c.defender);
      AttackTroopBalance(b[from], b[to], rollA, rollD);
    }
  }

  /** The dice of one turn: Verde's attack and defence rolls, then Amarelo's. */
  datatype Dice = Dice(attack1: int, defend1: int, attack2: int, defend2: int)

  predicate ValidDice(d: Dice) {
    IsRoll(d.attack1) && IsRoll(d.defend1) && IsRoll(d.attack2) && IsRoll(d.defend2)
  }

  /** How the simulation ends: a player (1 or 2) whose mission held, or the
      turn limit; both with the final board. */
  datatype Outcome = Winner(player: int, board: Board) | Exhausted(board: Board)

  /** Runs the remaining turns, one element of `rolls` per turn. After each
      attack attempt the attacking player's mission is checked and the game
      stops at the first that holds; Verde moves and is checked first. */
  function Play(b: Board, m1: Mission, m2: Mission, rolls: seq<Dice>): (o: Outcome)
    requires |b| >= 4
    requires forall k :: 0 <= k < |rolls| ==> ValidDice(rolls[k])
    ensures |o.board| == |b| && Names(o.board) == Names(b)
    ensures ValidBoard(b) ==> ValidBoard(o.board)
    ensures Colors(o.board) <= Colors(b)
    ensures o.Winner? ==> o.player == 1 || o.player == 2
    ensures o.Winner? && o.player == 1 ==> Satisfied(m1, o.board, Player1)
    ensures o.Winner? && o.player == 2 ==> Satisfied(m2, o.board, Player2)
    ensures |rolls| == 0 ==> o == Exhausted(b)
    ensures |rolls| > 0 && o.Exhausted? ==> !Satisfied(m2, o.board, Player2)
    decreases |rolls|
  {
    if |rolls| == 0 then Exhausted(b)
    else
      var d := rolls[0];
      assert ValidDice(d);
      var b1 := TurnStep(b, Player1, 0, 1, d.attack1, d.defend1);
      TurnStepPreservesValid(b, Player1, 0, 1, d.attack1, d.defend1);
      TurnStepColors(b, Player1, 0, 1, d.attack1, d.defend1);
      if Satisfied(m1, b1, Player1) then Winner(1, b1)
      else
        var b2 := TurnStep(b1, Player2, 2, 3, d.attack2, d.defend2);
        TurnStepPreservesValid(b1, Player2, 2, 3, d.attack2, d.defend2);
        TurnStepColors(b1, Player2, 2, 3, d.attack2, d.defend2);
        if Satisfied(m2, b2, Player2) then Winner(2, b2)
        else Play(b2, m1, m2, rolls[1..])
  }

  /** Each turn Verde attacks and is checked first, and the first check that
      holds ends the game: Verde wins if its mission holds after its attack;
      otherwise Amarelo wins if its mission holds after its own attack;
      otherwise play goes on from the board both attacks left. */
  lemma PlayChecksInOrder(b: Board, m1: Mission, m2: Mission, rolls: seq<Dice>)
    requires |b| >= 4
    requires forall k :: 0 <= k < |rolls| ==> ValidDice(rolls[k])
    requires |rolls| > 0
    ensures ValidDice(rolls[0])
    ensures var d := rolls[0];
      var b1 := TurnStep(b, Player1, 0, 1, d.attack1, d.defend1);
      var b2 := TurnStep(b1, Player2, 2, 3, d.attack2, d.defend2);
      && (Satisfied(m1, b1, Player1) ==> Play(b, m1, m2, rolls) == Winner(1, b1))
      && (!Satisfied(m1, b1, Player1) && Satisfied(m2, b2, Player2) ==> Play(b, m1, m2, rolls) == Winner(2, b2))
      && (!Satisfied(m1, b1, Player1) && !Satisfied(m2, b2, Player2) ==>
            Play(b, m1, m2, rolls) == Play(b2, m1, m2, rolls[1..]))
  {
  }

  /** The whole simulation: missions drawn for Verde and Amarelo with the
      draws `draw1` and `draw2`, then five turns from the opening board. The
      final board keeps the opening's names and non-negative garrisons and
      adds no colour; a winner's drawn mission holds on it. */
  function Simulate(draw1: nat, draw2: nat, rolls: seq<Dice>): (o: Outcome)
    requires |rolls| == TurnLimit
    requires forall k :: 0 <= k < |rolls| ==> ValidDice(rolls[k])
    ensures Names(o.board) == Names(InitialBoard)
    ensures ValidBoard(o.board)
    ensures Colors(o.board) <= Colors(InitialBoard)
    ensures o.Winner? && o.player == 1 ==> Satisfied(Parse(AssignMission(Catalog, draw1)), o.board, Player1)
    ensures o.Winner? && o.player == 2 ==> Satisfied(Parse(AssignMission(Catalog, draw2)), o.board, Player2)
  {
    InitialBoardFacts();
    Play(InitialBoard, Parse(AssignMission(Catalog, draw1)), Parse(AssignMission(Catalog, draw2)), rolls)
  }

  /** What every board reached from the opening keeps: Verde still holds
      Brasil, Canada and Alasca are exactly as at the start, and no colour
      is new. */
  predicate OpeningShape(b: Board) {
    && |b| == |InitialBoard|
    && Names(b) == Names(InitialBoard)
    && b[0].color == Player1
    && b[2] == InitialBoard[2]
    && b[3] == InitialBoard[3]
    && Colors(b) <= Colors(InitialBoard)
  }

  /** On such a board Amarelo's scripted attack never passes the gate, since
      Canada is Verde, and Verde's attack touches only Brasil and Argentina. */
  lemma OpeningShapeStep(b: Board, d: Dice)
    requires OpeningShape(b) && ValidDice(d)
    ensures !MayAttack(b, Player2, 2, 3)
    ensures OpeningShape(TurnStep(b, Player1, 0, 1, d.attack1, d.defend1))
    ensures TurnStep(b, Player2, 2, 3, d.attack2, d.defend2) == b
  {
  }

  /** The opening shape holds on the final board of any run from it. */
  lemma {:induction false} PlayKeepsOpeningShape(b: Board, m1: Mission, m2: Mission, rolls: seq<Dice>)
    requires OpeningShape(b)
    requires forall k :: 0 <= k < |rolls| ==> ValidDice(rolls[k])
    ensures OpeningShape(Play(b, m1, m2, rolls).board)
    decreases |rolls|
  {
    if |rolls| > 0 {
      var d := rolls[0];
      assert ValidDice(d);
      OpeningShapeStep(b, d);
      var b1 := TurnStep(b, Player1, 0, 1, d.attack1, d.defend1);
      OpeningShapeStep(b1, d);
      PlayKeepsOpeningShape(b1, m1, m2, rolls[1..]);
    }
  }

  /** On a board of the opening shape the red elimination and the ten troops
      in Canada hold for nobody (Alasca stays red, Canada keeps eight troops),
      while the blue elimination and the conquest of Brasil hold for Verde. */
  lemma OpeningShapeMissions(b: Board, player: string)
    requires OpeningShape(b)
    ensures !Satisfied(EliminateRed, b, player)
    ensures !Satisfied(TenInCanada, b, player)
    ensures Satisfied(EliminateBlue, b, Player1)
    ensures Satisfied(ConquerBrasil, b, Player1)
  {
    assert Names(b)[0] == "Brasil" && Names(b)[1] == "Argentina" && Names(b)[2] == "Canada";
    assert b[3].color == "Vermelha";
    FindNamedIsFirst(b, "Brasil", 0);
    FindNamedIsFirst(b, "Canada", 2);
    InitialBoardFacts();
    EliminationIff(b, Player1, Player1);
  }

  /** In the five-turn simulation only Verde ever attacks, the red elimination
      and the ten troops in Canada never win, and Verde wins on the very first
      check when drawn the blue elimination or the conquest of Brasil. */
  lemma SimulationFacts(draw1: nat, draw2: nat, rolls: seq<Dice>)
    requires |rolls| == TurnLimit
    requires forall k :: 0 <= k < |rolls| ==> ValidDice(rolls[k])
    ensures var o := Simulate(draw1, draw2, rolls);
      && OpeningShape(o.board)
      && (o.Winner? && o.player == 1 ==> Parse(AssignMission(Catalog, draw1)) !in {EliminateRed, TenInCanada})
      && (o.Winner? && o.player == 2 ==> Parse(AssignMission(Catalog, draw2)) !in {EliminateRed, TenInCanada})
    ensures Parse(AssignMission(Catalog, draw1)) in {EliminateBlue, ConquerBrasil} ==>
      Simulate(draw1, draw2, rolls) ==
        Winner(1, TurnStep(InitialBoard, Player1, 0, 1, rolls[0].attack1, rolls[0].defend1))
  {
    var m1 := Parse(AssignMission(Catalog, draw1));
    var m2 := Parse(AssignMission(Catalog, draw2));
    assert OpeningShape(InitialBoard);
    PlayKeepsOpeningShape(InitialBoard, m1, m2, rolls);
    var o := Simulate(draw1, draw2, rolls);
    OpeningShapeMissions(o.board, Player1);
    OpeningShapeMissions(o.board, Player2);
    assert ValidDice(rolls[0]);
    OpeningShapeStep(InitialBoard, rolls[0]);
    OpeningShapeMissions(TurnStep(InitialBoard, Player1, 0, 1, rolls[0].attack1, rolls[0].defend1), Player1);
  }
}
