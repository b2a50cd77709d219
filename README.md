# Number-guessing game: the game-state object in Dafny

This project models `JogoAdivinhacao`, the game object of a small
number-guessing game. The player picks a level, which fixes an inclusive
range of numbers and the allowed attempt budget. The player then starts a
round with a chosen number of attempts, and the game hides a number in the
range. Each guess gets one of three answers:

- out of range: the guess is not counted;
- correct: the player has won;
- wrong: the player gets a "higher" or "lower" hint.

When the attempts run out, the round ends and the hidden number is revealed.

Files:

- `wrappers.dfy` (module `Wrappers`): `Option`, the model of Python's `None`.
- `game_logic.dfy` (module `GameLogic`):
  - the level lookup (`ParseLevel`, `PresetOf`);
  - the object's six fields as a `Snapshot` value;
  - the three transitions as functions (`Configure`, `StartRound`, `Guess`) and their invariants;
  - the class `JogoAdivinhacao`. Its methods assign the fields in place, as the game object does. Each method is proved to perform exactly the matching transition.
- `session.dfy` (module `Session`): `Play` evaluates a whole sequence of guesses, one after another. The lemmas about it cover:
  - how many attempts a session uses;
  - the attempt number a win reports;
  - when the budget runs out;
  - two concrete rounds on the easy level.

Behaviour of the code that the model keeps:

- The level lookup compares against three exact labels. Any other value falls through to the hardest preset (range 1..100, attempts 1..10), and so does no selection at all (`None`).
- Choosing a level (`definir_nivel`, game_logic.py:50-64) does not clear the hidden number or the counters, and the model follows the code. A round that was started on a wider range can therefore keep a hidden number that lies outside the new range. `ConfigureKeepsStaleTarget` shows that a hidden number above the new maximum is kept and that no counted guess can then win.
- The object does not stop guesses after the round ends. A wrong guess in range made with no attempts left drives the counter to -1 and does not end the game (`GuessAfterLossBreaksCounters`). A guess that hits the hidden number then also drives the counter to -1, and it wins at attempt `total + 1` (`HitAfterLossWinsLate`). The counter invariant `0 <= remaining <= total` is therefore proved under the hypothesis that attempts remain before the guess (`GuessKeepsInvariants`, `VerificarPalpite`). The caller provides that hypothesis by disabling input at game over (app.py:226-229).
- The random draw of the hidden number is a nondeterministic choice from the range (`:|` in `IniciarJogo`). The pure `StartRound` takes the drawn number as a parameter, which must lie in the range.

## Model

| member | source | states |
|---|---|---|
| `GameLogic.ParseLevel` | game_logic.py:53-62 | Each of the three labels selects its own level. Every other name, and no selection, selects the hardest (both directions). |
| `GameLogic.PresetOf` | game_logic.py:53-64 | Every preset range starts at 1 and is non-empty. Every attempt budget starts at 1 and fits in its range. The slider has `max - min` divisions. |
| `GameLogic.PresetTable` | game_logic.py:53-64 | The exact range, attempt bounds and divisions of each of the four presets. |
| `GameLogic.ParseLevelName` | game_logic.py:53-64 | Each dropdown label selects the level it names. |
| `GameLogic.HarderLevelsWiden` | game_logic.py:53-64 | A harder level has a strictly wider range and a strictly larger maximum budget. |
| `GameLogic.Configure` | game_logic.py:37-64 | Choosing a level stores the name and sets the range of the selected preset, which starts at 1 and is non-empty. It returns that preset's attempt bounds. The hidden number and the counters stay as they were. |
| `GameLogic.StartRound` | game_logic.py:66-89 | Starting a round stores the drawn number `alvo` as the hidden number, which lies in the range, and sets both counters to `n`. Level and range stay as they were. The report carries the number, `n`, and the minimum and maximum. |
| `GameLogic.Guess` | game_logic.py:91-146 | A guess is valid exactly when it is in range; an out-of-range guess changes nothing. A counted guess lowers the remaining attempts by one and changes nothing else. It wins exactly when it equals the hidden number, reporting total minus remaining. A wrong guess hints higher exactly when it is below the number. A miss ends the game exactly when no attempts remain, and then reveals the number. The colour tag follows the outcome. |
| `GameLogic.InitialOk` | game_logic.py:28-35 | A new game has a non-empty range starting at 1, no hidden number and zero attempts. |
| `GameLogic.GuessKeepsInvariants` | game_logic.py:109-146 | When attempts remain, a guess keeps the range, keeps the hidden number in the range, and keeps `0 <= remaining <= total`. |
| `GameLogic.GuessAfterLossBreaksCounters` | game_logic.py:117-145 | For every state with no attempts left, a wrong guess in range leaves -1 attempts, breaks the counter invariant and does not end the game. |
| `GameLogic.HitAfterLossWinsLate` | game_logic.py:117-128 | For every state with no attempts left, a guess that hits the hidden number wins and ends the game at attempt `total + 1`, with -1 attempts left. |
| `GameLogic.ConfigureKeepsStaleTarget` | game_logic.py:50-64 | Choosing a level keeps the hidden number. A hidden number from 1 up stays in the new range exactly when it is at most the new maximum. A hidden number above the new maximum is kept anyway, and then no counted guess can win. |
| `GameLogic.JogoAdivinhacao.constructor` | game_logic.py:28-35 | The fields start as the initial state, and all three invariants hold. |
| `GameLogic.JogoAdivinhacao.DefinirNivel` | game_logic.py:37-64 | The if-chain over the fields makes exactly the `Configure` transition. The range starts at 1, and the round fields stay unchanged. |
| `GameLogic.JogoAdivinhacao.IniciarJogo` | game_logic.py:66-89 | Draws a hidden number from the range and makes exactly the `StartRound` transition with it. Both counters become the chosen count, and the level and range stay unchanged. |
| `GameLogic.JogoAdivinhacao.VerificarPalpite` | game_logic.py:91-146 | The in-place update makes exactly the `Guess` transition. The counter drops by one exactly for a valid guess, and every other field stays unchanged. The counter invariant is kept when attempts remained. |
| `Session.ValidCount` | game_logic.py:109-117 | Counts the guesses that lie in the range, which are the ones line 117 charges. Its only contract is the bound by the number of guesses, which is bookkeeping for `Play`. |
| `Session.Play` | game_logic.py:109-117 | Over a sequence of guesses, only the remaining attempts change. They drop by exactly the number of guesses that were in range. |
| `Session.PlayStep` | game_logic.py:91-146 | The i-th answer of a session is that guess evaluated on the state the earlier guesses left. |
| `Session.PlayKeepsInvariants` | game_logic.py:109-146 | A session that counts no more guesses than the attempts left keeps all three invariants. |
| `Session.WinAttemptNumber` | game_logic.py:120-128 | A win reports as its attempt number the count of in-range guesses up to and including it. |
| `Session.FirstCountedGuessWins` | game_logic.py:109-128 | After any number of out-of-range guesses, a first counted guess that hits the hidden number reports a win at attempt 1. |
| `Session.BudgetExhaustion` | game_logic.py:117-145 | With every guess in range and wrong, the i-th guess leaves `n - (i + 1)` attempts. It ends the round and reveals the hidden number exactly when it is the n-th. |
| `Session.ScenarioWin` | game_logic.py:117-146 | Easy level, 3 attempts, hidden number 7: guesses 3, 9, 7 answer higher, lower, and won at attempt 3. Attempts left are 2, 1, 0. |
| `Session.ScenarioLoss` | game_logic.py:117-146 | Easy level, 3 attempts, hidden number 7: guesses 1, 2, 3 answer higher, higher and game over. The last answer reveals 7. |

## Left out

- GameLogic.Guess: an in-range guess made before any round has started is excluded by its precondition, and so it is for `GameLogic.JogoAdivinhacao.VerificarPalpite`. In Python such a guess first decrements the counter (game_logic.py:117). It then passes the `==` test against `None` (line 120) and raises a `TypeError` at the `<` comparison (line 131), leaving the counter decremented. The front end keeps input disabled until a round starts, so it never makes such a guess.

- The graphical front end in app.py: widgets, visibility and disabled flags, layout and resize handling. It only forwards user actions to the game object.
- Parsing the typed guess with `int()` and its error message. This happens in the front end before the game object is called, so guesses enter the model as integers.
- The distribution of `random.randint`. The model keeps only that the hidden number lies in the range.
- The wording of the messages and the emoji. A `Message` tag carries their data (range, attempt number, hint direction, revealed number). The colours are the tags `Amber400`, `Green300` and `Red300`.
- The exact dictionary shape of the results, including which keys are absent. `Feedback` has one variant per dictionary shape, and its fields are the values that shape carries.
