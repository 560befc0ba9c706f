# WAR-style rule engine in Dafny

A model of the rule engine of a small WAR-style territory-conquest game
(`nivel-mestre.c`). The board is a fixed sequence of territories, each with
a name, the colour of the player holding it and a troop count. The model
covers:

- **Combat** (`Combat.Attack`): an attacker with more than one troop rolls
  against the defender; a strictly higher roll conquers: the defender takes
  the attacker's colour and its garrison is *replaced* by half the
  attacker's troops (rounded down, at least one), which leave the attacker.
  A tie or lower roll costs the attacker one troop. An attacker with one
  troop or fewer changes nothing. Colours are not checked here.
- **Missions** (`Missions`): the five catalog texts, parsed by exact
  comparison into a `Mission` datatype (any other text is `Unknown`), and
  the win condition `Satisfied(mission, board, playerColour)`.
  `Evaluator.CheckMission` is the branch-by-branch scan the program
  performs, shown equal to `Satisfied`.
- **Turns** (`Game`): the gate in the main loop (attack only from a
  territory of the current player's colour against one of another colour),
  the turn step around `Attack`, the five-turn loop that checks the
  attacking player's mission after each attack, the mission draw
  (`rand() % total`), and the opening board.

Randomness is a parameter: each die roll is an `int` with `1 <= r <= 6`,
and the mission draw is the non-negative `rand()` value as a `nat`. Names
and colours are Dafny strings compared with `==`. Troop counts are `int`;
no operation comes near 32-bit limits (the only arithmetic is halving and
subtracting from a garrison of at least two), so there is no wrap-around
to model.

The model follows the code exactly, including where its behaviour may
surprise:

- The elimination missions ignore troop counts: a territory of the colour
  with zero troops still blocks them (`Missions.ScenarioEmptyRedBlocks`).
- A failed attack decrements the attacker with no clamp; only the
  `troops > 1` guard keeps it at one or more (`Combat.AttackKeepsGarrisons`).
- An attack with too few troops is a no-op that returns no error (it only
  prints a message), and `atacar` checks no colours; the colour check is the
  gate in the main loop.
- Missions are identified by their description text, not by an id.

Two consequences the lemmas make precise: the "at least one troop" clamp in
the halving never fires under the guard, since two or three troops already
halve to one (`Combat.ClampNeverFires`); and in the scripted
simulation from the opening board, Amarelo's attack (Canada on Alasca)
never passes the gate because Canada starts Verde, so the red elimination
and "10 troops in Canada" can never win, while Verde wins at the first
check when drawn the blue elimination or the conquest of Brasil
(`Game.SimulationFacts`). `Game.Simulate` composes the mission draws and
`Game.Play` from the opening board.

## Model

| member | source | states |
|---|---|---|
| Territories.InitialBoardFacts | nivel-mestre.c:190-220 | the opening board has four territories, non-negative garrisons, 18 troops in all and exactly the colours Verde, Amarelo and Vermelha |
| Combat.Moved | nivel-mestre.c:276-279 | the troops moved on a conquest are at least one, fewer than the attacker holds, and half the attacker's troops rounded down |
| Combat.Attack | nivel-mestre.c:255-289 | names and the attacker's colour never change; too few troops leaves both untouched; only a strictly higher roll conquers, and then the defender gets the attacker's colour and exactly the moved troops, which leave the attacker; otherwise the defender is unchanged and the attacker loses exactly one troop |
| Combat.AttackKeepsGarrisons | nivel-mestre.c:255-289 | an attack that goes ahead leaves the attacker at least one troop and a conquered territory at least one |
| Combat.AttackPreservesValid | nivel-mestre.c:255-289 | non-negative garrisons stay non-negative |
| Combat.AttackTroopBalance | nivel-mestre.c:268-288 | the pair loses the defender's old garrison on a conquest, one troop on a failed attack, nothing when the attack does not go ahead |
| Combat.AttackColors | nivel-mestre.c:273 | the defender ends with its own or the attacker's colour, never a third one |
| Combat.ScenarioConquest | nivel-mestre.c:268-282 | five troops against three with rolls 6 and 2: defender becomes the attacker's colour with 2 troops, attacker keeps 3 |
| Combat.ScenarioTie | nivel-mestre.c:284-288 | two troops against ten with a tie: attacker drops to one, defender unchanged |
| Combat.ScenarioTooFewTroops | nivel-mestre.c:257-260 | an attacker with one troop changes nothing for any rolls |
| Combat.ClampNeverFires | nivel-mestre.c:276-279 | for every garrison the guard admits, half rounded down is at least one, so the number moved is exactly that half and the clamp never changes it |
| Missions.Describe | nivel-mestre.c:36-42 | a recognised mission's text is a catalog entry, and for a well-formed mission the text is in the catalog exactly when the mission is recognised |
| Missions.Parse | nivel-mestre.c:36-42 | describing the parsed mission gives back the text; the result is unknown exactly when the text is not in the catalog |
| Missions.ParseDescribe | nivel-mestre.c:36-42 | parsing the description of a well-formed mission gives back the mission |
| Missions.CatalogParses | nivel-mestre.c:36-42 | every catalog entry is recognised and the five entries name five different missions |
| Missions.FindNamed | nivel-mestre.c:339-345 | the search returns the index of the first territory with the name, or nothing when no territory has it |
| Missions.FindNamedIsFirst | nivel-mestre.c:339-345 | the first territory with a name is unique and is what the search returns |
| Missions.CountColor | nivel-mestre.c:349-355 | the count is at most the board size, zero exactly when no territory has the colour, the board size exactly when all have it |
| Missions.CountColorIsCardinality | nivel-mestre.c:348-356 | the count equals the number of distinct territories of the colour |
| Missions.Satisfied | nivel-mestre.c:316-370 | an unrecognised mission never holds, and the Brasil, three-territory and Canada missions hold only for a colour present on the board |
| Missions.EliminationIff | nivel-mestre.c:320-336 | the red and blue eliminations hold exactly when the count of territories of the colour is zero, whatever the troops, independently of the player |
| Missions.NamedMissionIff | nivel-mestre.c:338-366 | Brasil and Canada missions hold exactly when the first territory of that name has the player's colour (and, for Canada, at least ten troops); false when no territory has the name |
| Missions.OwnThreeIff | nivel-mestre.c:348-356 | "own three" holds exactly when at least three distinct territories have the player's colour |
| Missions.UnknownNeverHolds | nivel-mestre.c:368-369 | a text outside the catalog never holds |
| Missions.ScenarioEmptyRedBlocks | nivel-mestre.c:320-327 | a red territory with zero troops still blocks the red elimination |
| Missions.ScenarioOwnThree | nivel-mestre.c:348-356 | three of six territories satisfy "own three", two do not |
| Missions.PickIndex | nivel-mestre.c:231 | the drawn index lies in [0, total), is the remainder of the draw, and equals the draw when it is already below total |
| Missions.AssignMission | nivel-mestre.c:230-235 | the assigned text is one of the missions it was given |
| Missions.AssignFromCatalog | nivel-mestre.c:88-92 | a mission drawn from the catalog is always recognised, and every catalog entry can be drawn |
| Evaluator.ScanEliminated | nivel-mestre.c:320-336 | the early-exit scan answers true exactly when no territory has the colour |
| Evaluator.ScanNamed | nivel-mestre.c:339-345 | the early-exit scan returns the first territory with the name, or nothing when there is none |
| Evaluator.CountOwned | nivel-mestre.c:349-355 | the counting loop returns the number of distinct territories of the player's colour |
| Evaluator.CheckMission | nivel-mestre.c:316-370 | the string-dispatched check agrees with the win condition of the parsed mission |
| Game.MayAttack | nivel-mestre.c:120-121 | an attack the gate admits is between two different territories of different colours |
| Game.TurnStep | nivel-mestre.c:119-130 | with the gate closed the board is unchanged; with it open the two territories are distinct and hold the attack's result; every other territory and every name is unchanged |
| Game.TurnStepPreservesValid | nivel-mestre.c:119-130 | a turn step keeps garrisons non-negative |
| Game.TurnStepColors | nivel-mestre.c:120-127 | a turn step brings no new colour onto the board |
| Game.TurnStepTotalTroops | nivel-mestre.c:120-127 | the board's total troops drop by the attack's losses when the gate is open and not at all otherwise |
| Game.Play | nivel-mestre.c:103-169 | the loop keeps size, names and non-negative garrisons, adds no colour, a declared winner is player 1 or 2 whose mission holds on the final board, and a game that runs out of turns ends on a board where Amarelo's last check failed |
| Game.PlayChecksInOrder | nivel-mestre.c:113-166 | the step equation of `Play` (its if/else cascade written out, proved by unfolding): each turn Verde attacks and is checked first; the first check that holds ends the game with that player as winner, and only when both fail does play continue from the board both attacks left |
| Game.Simulate | nivel-mestre.c:88-169 | the simulation from the opening board ends on a board with the opening's names, non-negative garrisons and no new colour, on which a winner's drawn mission holds |
| Game.OpeningShapeStep | nivel-mestre.c:141-158 | on a board shaped like the opening, Amarelo's attack never passes the gate and Verde's attack keeps the shape |
| Game.PlayKeepsOpeningShape | nivel-mestre.c:107-169 | every board reached from the opening keeps Canada and Alasca unchanged, Brasil Verde and no new colour |
| Game.OpeningShapeMissions | nivel-mestre.c:200-218 | on such boards the red elimination and ten troops in Canada hold for nobody, the blue elimination and the conquest of Brasil hold for Verde |
| Game.SimulationFacts | nivel-mestre.c:88-169 | in the five-turn simulation no one wins with the red elimination or Canada mission, and Verde wins at the first check when drawn the blue elimination or Brasil |

## Left out

- Output: `exibirMapa`, `exibirMissao` and every `printf` message; they only render state.
- Memory management: `malloc`/`calloc`/`free`, `liberarMemoria` and the allocation-failure exits; the board is an immutable sequence and mission texts are strings.
- Randomness: `srand`, `time` and `rand`; rolls and the mission draw are parameters, so nothing about their distribution is modelled.
- Fixed-size `char` buffers and `strcpy` bounds; names, colours and mission texts are unbounded strings compared with `==`.
- `nivel-novato.c`: it only reads and echoes territory records.
- `Jogo War/nivel-novato.c`: a separate interactive variant with its own menu, checks and clamped `atacar`; it is not the modelled program.
- Missions.PickIndex: `rand() % total` with `total <= 0` is undefined in C; the model requires `total > 0`, as every call passes the catalog size 5.
