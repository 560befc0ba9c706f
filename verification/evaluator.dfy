/**
  Mission checking as the program performs it: the mission text is compared
  with each catalog text in turn, and the matching branch scans the board
  with an early exit. Each branch is shown to agree with `Missions.Satisfied`.
*/
module Evaluator {
  import opened Wrappers
  import opened Territories
  import opened Missions

  /** Scans for a territory of colour `c`; true when there is none. */
  method ScanEliminated(b: Board, c: string) returns (won: bool)
    ensures won <==> c !in Colors(b)
  {
    var i := 0;
    while i < |b|
      invariant 0 <= i <= |b|
      invariant forall j :: 0 <= j < i ==> b[j].color != c
    {
      if b[i].color == c {
        return false;
      }
      i := i + 1;
    }
    return true;
  }

  /** Scans for the first territory called `name`. */
  method ScanNamed(b: Board, name: string) returns (r: Option<nat>)
    ensures r.Some? ==> FirstNamed(b, name, r.value)
    ensures r.None? ==> forall j :: 0 <= j < |b| ==> b[j].name != name
  {
    var i := 0;
    while i < |b|
      invariant 0 <= i <= |b|
      invariant forall j :: 0 <= j < i ==> b[j].name != name
    {
      if b[i].name == name {
        return Some(i);
      }
      i := i + 1;
    }
    return None;
  }

  /** Counts the territories of the player's colour. */
  method CountOwned(b: Board, player: string) returns (count: nat)
    ensures count == |ColorIndices(b, player)|
  {
    count := 0;
    var i := 0;
    while i < |b|
      invariant 0 <= i <= |b|
      invariant count == CountColor(b[..i], player)
    {
      assert b[..i + 1][..i] == b[..i];
      if b[i].color == player {
        count := count + 1;
      }
      i := i + 1;
    }
    assert b[..|b|] == b;
    CountColorIsCardinality(b, player);
  }

  /** The mission check: a text outside the catalog never holds. */
  method CheckMission(mission: string, b: Board, player: string) returns (won: bool)
    ensures won == Satisfied(Parse(mission), b, player)
  {
    if mission == RedText {
      won := ScanEliminated(b, "Vermelha");
      return;
    }
    if mission == BlueText {
      won := ScanEliminated(b, "Azul");
      return;
    }
    if mission == BrasilText {
      var r := ScanNamed(b, "Brasil");
      if r.Some? {
        FindNamedIsFirst(b, "Brasil", r.value);
        won := b[r.value].color == player;
      } else {
        won := false;
      }
      return;
    }
    if mission == ThreeText {
      var count := CountOwned(b, player);
      CountColorIsCardinality(b, player);
      won := count >= 3;
      return;
    }
    if mission == CanadaText {
      var r := ScanNamed(b, "Canada");
      if r.Some? {
        FindNamedIsFirst(b, "Canada", r.value);
        won := b[r.value].color == player && b[r.value].troops >= 10;
      } else {
        won := false;
      }
      return;
    }
    won := false;
  }
}
