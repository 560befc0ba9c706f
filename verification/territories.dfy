/**
  The board of the game: a fixed, ordered sequence of territories, each with a
  name, the colour of the player holding it and a garrison of troops. The
  index in the sequence is the territory's only identity.
*/
module Territories {

  /** One territory. `troops` is a C `int`; no operation of the model brings
      it near the bounds of 32 bits, so it is an unbounded `int` here. */
  datatype Territory = Territory(name: string, color: string, troops: int)

  type Board = seq<Territory>

  /** Every garrison on the board is non-negative. */
  predicate ValidBoard(b: Board) {
    forall i :: 0 <= i < |b| ==> b[i].troops >= 0
  }

  /** The colours present on the board, whatever the garrisons. */
  function Colors(b: Board): set<string> {
    set i | 0 <= i < |b| :: b[i].color
  }

  /** The names of the territories, in board order. */
  function Names(b: Board): (ns: seq<string>)
    ensures |ns| == |b|
    ensures forall i :: 0 <= i < |b| ==> ns[i] == b[i].name
  {
    seq(|b|, i requires 0 <= i < |b| => b[i].name)
  }

  /** Sum of all garrisons on the board. */
  function TotalTroops(b: Board): int {
    if |b| == 0 then 0 else TotalTroops(b[..|b| - 1]) + b[|b| - 1].troops
  }

  /** Replacing one territory changes the total by exactly the difference of
      the two garrisons. */
  lemma {:induction false} TotalTroopsUpdate(b: Board, i: nat, t: Territory)
    requires i < |b|
    ensures TotalTroops(b[i := t]) == TotalTroops(b) - b[i].troops + t.troops
    decreases |b|
  {
    var n := |b| - 1;
    var u := b[i := t];
    if i == n {
      assert u[..n] == b[..n];
    } else {
      assert u[..n] == b[..n][i := t];
      TotalTroopsUpdate(b[..n], i, t);
    }
  }

  /** The opening board built at game start: four territories with fixed
      names, colours and garrisons. */
  const InitialBoard: Board := [
    Territory("Brasil", "Verde", 5),
    Territory("Argentina", "Amarelo", 3),
    Territory("Canada", "Verde", 8),
    Territory("Alasca", "Vermelha", 2)
  ]

  /** The opening board is well formed, holds 18 troops, and has exactly the
      three colours Verde, Amarelo and Vermelha. */
  lemma InitialBoardFacts()
    ensures |InitialBoard| == 4
    ensures ValidBoard(InitialBoard)
    ensures TotalTroops(InitialBoard) == 18
    ensures Colors(InitialBoard) == {"Verde", "Amarelo", "Vermelha"}
  {
    var b := InitialBoard;
    assert b[..3][..2][..1][..0] == [];
    assert b[..3][..2][..1] == [b[0]];
    assert b[..3][..2] == [b[0], b[1]];
    assert b[..3] == [b[0], b[1], b[2]];
    assert TotalTroops(b[..3][..2][..1]) == 5;
    assert TotalTroops(b[..3][..2]) == 8;
    assert TotalTroops(b[..3]) == 16;
    assert b[0].color in Colors(b) && b[1].color in Colors(b) && b[3].color in Colors(b);
  }
}
