/**
  The mission catalog and the win conditions. The program keeps a player's
  mission as its description text and picks the condition by exact comparison
  with the five catalog texts; here the text is parsed into a `Mission` and
  the condition is a predicate over the mission, the board and the colour of
  the player being checked.
*/
module Missions {
  import opened Wrappers
  import opened Territories

  const RedText := "Eliminar todas as tropas da cor Vermelha"
  const BrasilText := "Conquistar o territorio 'Brasil'"
  const ThreeText := "Possuir 3 territorios"
  const CanadaText := "Possuir 10 tropas no territorio 'Canada'"
  const BlueText := "Eliminar todas as tropas da cor Azul"

  /** The predefined missions, in catalog order. */
  const Catalog: seq<string> := [RedText, BrasilText, ThreeText, CanadaText, BlueText]

  /** One constructor per catalog entry; any other text is `Unknown`. */
  datatype Mission =
    | EliminateRed
    | ConquerBrasil
    | OwnThree
    | TenInCanada
    | EliminateBlue
    | Unknown(text: string)

  /** A mission as the program can hold it: an unknown mission never carries
      one of the catalog texts. */
  predicate WellFormed(m: Mission) {
    m.Unknown? ==> m.text !in Catalog
  }

  /** The description text the program stores and shows for a mission: a
      catalog text for a recognised mission, and for a well-formed mission a
      catalog text only then. */
  function Describe(m: Mission): (s: string)
    ensures !m.Unknown? ==> s in Catalog
    ensures WellFormed(m) ==> (s in Catalog <==> !m.Unknown?)
  {
    match m
    case EliminateRed => RedText
    case ConquerBrasil => BrasilText
    case OwnThree => ThreeText
    case TenInCanada => CanadaText
    case EliminateBlue => BlueText
    case Unknown(t) => t
  }

  /** Recognises a mission text by exact comparison with the catalog. */
  function Parse(s: string): (m: Mission)
    ensures Describe(m) == s
    ensures WellFormed(m)
    ensures m.Unknown? <==> s !in Catalog
  {
    if s == RedText then EliminateRed
    else if s == BlueText then EliminateBlue
    else if s == BrasilText then ConquerBrasil
    else if s == ThreeText then OwnThree
    else if s == CanadaText then TenInCanada
    else Unknown(s)
  }

  /** Parsing the description of a well-formed mission gives it back. */
  lemma ParseDescribe(m: Mission)
    requires WellFormed(m)
    ensures Parse(Describe(m)) == m
  {
  }

  /** The five catalog texts are pairwise distinct, so each names exactly one
      mission. */
  lemma CatalogParses(i: int)
    requires 0 <= i < |Catalog|
    ensures !Parse(Catalog[i]).Unknown?
    ensures Describe(Parse(Catalog[i])) == Catalog[i]
    ensures forall j :: 0 <= j < |Catalog| && j != i ==> Parse(Catalog[j]) != Parse(Catalog[i])
  {
  }

  /** `i` is the index of the first territory called `name`. */
  predicate FirstNamed(b: Board, name: string, i: int) {
    && 0 <= i < |b|
    && b[i].name == name
    && forall j :: 0 <= j < i ==> b[j].name != name
  }

  /** The first territory called `name`, if any: the linear search the
      program runs for the named-territory missions. */
  function FindNamed(b: Board, name: string): (r: Option<nat>)
    ensures r.Some? ==> FirstNamed(b, name, r.value)
    ensures r.None? ==> forall j :: 0 <= j < |b| ==> b[j].name != name
  {
    if |b| == 0 then None
    else if b[0].name == name then Some(0)
    else
      match FindNamed(b[1..], name)
      case None => None
      case Some(i) => Some(i + 1)
  }

  /** There is at most one first territory with a given name, and the search
      finds it. */
  lemma FindNamedIsFirst(b: Board, name: string, i: int)
    requires FirstNamed(b, name, i)
    ensures FindNamed(b, name) == Some(i)
  {
  }

  /** Number of territories of colour `c`, whatever their garrisons. */
  function CountColor(b: Board, c: string): (n: nat)
    ensures n <= |b|
    ensures n == 0 <==> forall i :: 0 <= i < |b| ==> b[i].color != c
    ensures n == |b| <==> forall i :: 0 <= i < |b| ==> b[i].color == c
  {
    if |b| == 0 then 0
    else CountColor(b[..|b| - 1], c) + (if b[|b| - 1].color == c then 1 else 0)
  }

  /** The indices of the territories of colour `c`. */
  function ColorIndices(b: Board, c: string): set<int> {
    set i | 0 <= i < |b| && b[i].color == c
  }

  /** The count is the size of the set of territories of that colour. */
  lemma {:induction false} CountColorIsCardinality(b: Board, c: string)
    ensures CountColor(b, c) == |ColorIndices(b, c)|
    decreases |b|
  {
    if |b| > 0 {
      var n := |b| - 1;
      CountColorIsCardinality(b[..n], c);
      var before := ColorIndices(b[..n], c);
      if b[n].color == c {
        assert ColorIndices(b, c) == before + {n};
        assert n !in before;
      } else {
        assert ColorIndices(b, c) == before;
      }
    }
  }

  /** The first territory called `name` exists and belongs to `player`. */
  predicate OwnsNamed(b: Board, name: string, player: string) {
    match FindNamed(b, name)
    case None => false
    case Some(i) => b[i].color == player
  }

  /** The first territory called `name` exists, belongs to `player` and holds
      at least `minimum` troops. */
  predicate GarrisonsNamed(b: Board, name: string, player: string, minimum: int) {
    match FindNamed(b, name)
    case None => false
    case Some(i) => b[i].color == player && b[i].troops >= minimum
  }

  /** Whether `player`'s mission holds on board `b`. An unrecognised mission
      never holds, and the missions about the player's own territories can
      only hold for a colour present on the board. */
  predicate Satisfied(m: Mission, b: Board, player: string)
    ensures Satisfied(m, b, player) ==> !m.Unknown?
    ensures Satisfied(m, b, player) && !m.EliminateRed? && !m.EliminateBlue? ==> player in Colors(b)
  {
    match m
    case EliminateRed => "Vermelha" !in Colors(b)
    case EliminateBlue => "Azul" !in Colors(b)
    case ConquerBrasil => OwnsNamed(b, "Brasil", player)
    case OwnThree => CountColor(b, player) >= 3
    case TenInCanada => GarrisonsNamed(b, "Canada", player, 10)
    case Unknown(_) => false
  }

  /** The elimination missions hold exactly when no territory of the colour is
      counted: a territory of that colour blocks them even with no troops, and
      the colour of the player being checked plays no part. */
  lemma EliminationIff(b: Board, player: string, other: string)
    ensures Satisfied(EliminateRed, b, player) <==> CountColor(b, "Vermelha") == 0
    ensures Satisfied(EliminateBlue, b, player) <==> CountColor(b, "Azul") == 0
    ensures Satisfied(EliminateRed, b, player) == Satisfied(EliminateRed, b, other)
    ensures Satisfied(EliminateBlue, b, player) == Satisfied(EliminateBlue, b, other)
  {
  }

  /** The named-territory missions look only at the first territory with the
      name: they hold exactly when it exists, has the player's colour and,
      for Canada, at least ten troops. */
  lemma NamedMissionIff(b: Board, player: string)
    ensures Satisfied(ConquerBrasil, b, player) <==>
      exists i :: FirstNamed(b, "Brasil", i) && b[i].color == player
    ensures Satisfied(TenInCanada, b, player) <==>
      exists i :: FirstNamed(b, "Canada", i) && b[i].color == player && b[i].troops >= 10
    ensures (forall j :: 0 <= j < |b| ==> b[j].name != "Brasil") ==> !Satisfied(ConquerBrasil, b, player)
    ensures (forall j :: 0 <= j < |b| ==> b[j].name != "Canada") ==> !Satisfied(TenInCanada, b, player)
  {
  }

  /** "Own three territories" holds exactly when at least three distinct
      territories have the player's colour. */
  lemma OwnThreeIff(b: Board, player: string)
    ensures Satisfied(OwnThree, b, player) <==> |ColorIndices(b, player)| >= 3
  {
    CountColorIsCardinality(b, player);
  }

  /** A text outside the catalog never wins. */
  lemma UnknownNeverHolds(s: string, b: Board, player: string)
    requires s !in Catalog
    ensures !Satisfied(Parse(s), b, player)
  {
  }

  /** A red territory with no troops left still blocks the red elimination. */
  lemma ScenarioEmptyRedBlocks(player: string)
    ensures !Satisfied(EliminateRed, [Territory("Alasca", "Vermelha", 0), Territory("Brasil", "Verde", 5)], player)
  {
    var b := [Territory("Alasca", "Vermelha", 0), Territory("Brasil", "Verde", 5)];
    assert b[0].color == "Vermelha";
  }

  /** Three of six territories satisfy "own three"; two do not. */
  lemma ScenarioOwnThree()
    ensures Satisfied(OwnThree, [
      Territory("A", "Verde", 1), Territory("B", "Azul", 1), Territory("C", "Verde", 1),
      Territory("D", "Azul", 1), Territory("E", "Verde", 1), Territory("F", "Azul", 1)], "Verde")
    ensures !Satisfied(OwnThree, [
      Territory("A", "Verde", 1), Territory("B", "Azul", 1), Territory("C", "Verde", 1),
      Territory("D", "Azul", 1), Territory("E", "Azul", 1), Territory("F", "Azul", 1)], "Verde")
  {
    var b := [
      Territory("A", "Verde", 1), Territory("B", "Azul", 1), Territory("C", "Verde", 1),
      Territory("D", "Azul", 1), Territory("E", "Verde", 1), Territory("F", "Azul", 1)];
    var b' := [
      Territory("A", "Verde", 1), Territory("B", "Azul", 1), Territory("C", "Verde", 1),
      Territory("D", "Azul", 1), Territory("E", "Azul", 1), Territory("F", "Azul", 1)];
    OwnThreeIff(b, "Verde");
    OwnThreeIff(b', "Verde");
    assert ColorIndices(b, "Verde") == {0, 2, 4};
    assert forall i :: i in ColorIndices(b', "Verde") ==> i == 0 || i == 2;
    assert ColorIndices(b', "Verde") == {0, 2};
  }

  /** The index drawn for a mission: the program's `rand() % total`, with the
      non-negative `rand()` value as the parameter `draw`. It always lies in
      `[0, total)` and is the remainder of the draw divided by `total`. */
  function PickIndex(draw: nat, total: int): (i: nat)
    requires total > 0
    ensures i < total
    ensures draw == total * (draw / total) + i
    ensures draw < total ==> i == draw
  {
    draw % total
  }

  /** The mission text handed to a player: a copy of one catalog entry. */
  function AssignMission(missions: seq<string>, draw: nat): (s: string)
    requires |missions| > 0
    ensures s in missions
  {
    missions[PickIndex(draw, |missions|)]
  }

  /** Drawing from the catalog always yields a recognised mission, and every
      catalog entry can be drawn. */
  lemma AssignFromCatalog(draw: nat)
    ensures !Parse(AssignMission(Catalog, draw)).Unknown?
    ensures forall i: nat :: i < |Catalog| ==> AssignMission(Catalog, i) == Catalog[i]
  {
  }
}
