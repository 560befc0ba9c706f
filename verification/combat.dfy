/**
  Combat resolution between an attacking and a defending territory. The two
  die rolls, drawn with `rand() % 6 + 1` in the program, are parameters here.
*/
module Combat {
  import opened Territories

  /** A face of a six-sided die. */
  predicate IsRoll(r: int) {
    1 <= r <= 6
  }

  /** An attack goes ahead only when the attacker has more than one troop. */
  predicate CanFight(attacker: Territory) {
    attacker.troops > 1
  }

  /** The attacker conquers exactly when the attack goes ahead and its roll is
      strictly higher: a tie goes to the defender. */
  predicate Conquers(attacker: Territory, rollA: int, rollD: int) {
    CanFight(attacker) && rollA > rollD
  }

  /** Troops that march into a conquered territory: half the attacker's
      garrison rounded down, but never zero. */
  function Moved(troops: int): (n: int)
    requires troops > 1
    ensures 1 <= n < troops
    ensures 2 * n <= troops <= 2 * n + 1
  {
    var half := troops / 2;
    if half == 0 then 1 else half
  }

  /** Both territories after an attack. */
  datatype Clash = Clash(attacker: Territory, defender: Territory)

  /** Resolves one attack. With one troop or fewer nothing happens. Otherwise a
      strictly higher attacker roll hands the defender to the attacker's colour
      and replaces its garrison with the troops moved in; any other roll costs
      the attacker one troop. Colours are not checked here. */
  function Attack(attacker: Territory, defender: Territory, rollA: int, rollD: int): (r: Clash)
    requires IsRoll(rollA) && IsRoll(rollD)
    ensures r.attacker.name == attacker.name && r.attacker.color == attacker.color
    ensures r.defender.name == defender.name
    ensures !CanFight(attacker) ==> r == Clash(attacker, defender)
    ensures !Conquers(attacker, rollA, rollD) ==> r.defender == defender
    ensures CanFight(attacker) && rollA <= rollD ==> r.attacker.troops == attacker.troops - 1
    ensures Conquers(attacker, rollA, rollD) ==>
      && r.defender.color == attacker.color
      && r.defender.troops == Moved(attacker.troops)
      && r.attacker.troops + r.defender.troops == attacker.troops
  {
    if !CanFight(attacker) then
      Clash(attacker, defender)
    else if rollA > rollD then
      var n := Moved(attacker.troops);
      Clash(attacker.(troops := attacker.troops - n),
            defender.(color := attacker.color, troops := n))
    else
      Clash(attacker.(troops := attacker.troops - 1), defender)
  }

  /** An attack that goes ahead always leaves at least one troop behind, and
      a conquered territory always receives at least one: the guard is what
      keeps the unclamped decrement from going below one. */
  lemma AttackKeepsGarrisons(attacker: Territory, defender: Territory, rollA: int, rollD: int)
    requires IsRoll(rollA) && IsRoll(rollD)
    requires CanFight(attacker)
    ensures Attack(attacker, defender, rollA, rollD).attacker.troops >= 1
    ensures Conquers(attacker, rollA, rollD) ==> Attack(attacker, defender, rollA, rollD).defender.troops >= 1
  {
  }

  /** Non-negative garrisons stay non-negative. */
  lemma AttackPreservesValid(attacker: Territory, defender: Territory, rollA: int, rollD: int)
    requires IsRoll(rollA) && IsRoll(rollD)
    requires attacker.troops >= 0 && defender.troops >= 0
    ensures Attack(attacker, defender, rollA, rollD).attacker.troops >= 0
    ensures Attack(attacker, defender, rollA, rollD).defender.troops >= 0
  {
  }

  /** Troops of the pair after the attack: the defender's old garrison is lost
      on a conquest, one attacking troop is lost on a failed attack, and
      nothing changes when the attack does not go ahead. */
  lemma AttackTroopBalance(attacker: Territory, defender: Territory, rollA: int, rollD: int)
    requires IsRoll(rollA) && IsRoll(rollD)
    ensures var r := Attack(attacker, defender, rollA, rollD);
      r.attacker.troops + r.defender.troops ==
        attacker.troops + defender.troops - Losses(attacker, defender, rollA, rollD)
  {
  }

  /** Troops that disappear from the board in one attack. */
  function Losses(attacker: Territory, defender: Territory, rollA: int, rollD: int): int {
    if !CanFight(attacker) then 0
    else if rollA > rollD then defender.troops
    else 1
  }

  /** Only the attacker's colour can be given to the defender. */
  lemma AttackColors(attacker: Territory, defender: Territory, rollA: int, rollD: int)
    requires IsRoll(rollA) && IsRoll(rollD)
    ensures Attack(attacker, defender, rollA, rollD).defender.color in {attacker.color, defender.color}
  {
  }

  /** Five troops against three, rolls six and two: the attacker conquers,
      moves two troops and keeps three. */
  lemma ScenarioConquest()
    ensures Attack(Territory("Brasil", "Verde", 5), Territory("Argentina", "Amarelo", 3), 6, 2)
      == Clash(Territory("Brasil", "Verde", 3), Territory("Argentina", "Verde", 2))
  {
  }

  /** Two troops against ten, both rolling one: the tie goes to the defender,
      the attacker drops to one troop and the defender is untouched. */
  lemma ScenarioTie()
    ensures Attack(Territory("Canada", "Amarelo", 2), Territory("Alasca", "Vermelha", 10), 1, 1)
      == Clash(Territory("Canada", "Amarelo", 1), Territory("Alasca", "Vermelha", 10))
  {
  }

  /** An attacker with one troop changes nothing, whatever the rolls. */
  lemma ScenarioTooFewTroops(rollA: int, rollD: int)
    requires IsRoll(rollA) && IsRoll(rollD)
    ensures Attack(Territory("Brasil", "Verde", 1), Territory("Argentina", "Amarelo", 3), rollA, rollD)
      == Clash(Territory("Brasil", "Verde", 1), Territory("Argentina", "Amarelo", 3))
  {
  }

  /** Under the troop guard the rounding-down half is already at least one,
      so the never-zero clamp never changes the number moved. */
  lemma ClampNeverFires(troops: int)
    requires troops > 1
    ensures troops / 2 >= 1
    ensures Moved(troops) == troops / 2
  {
  }
}
