# Word-grouping puzzle: game-status store and game-data flattening

A Dafny model of two pieces of a word-grouping puzzle game.

- `game_status.dfy`, module `GameStatus`, models the client's game-status store, `GameStatusProvider`. The store is a class. Its fields are the submitted guesses, the solved categories, the game-over and game-won flags, the analysis in-flight flag, the analysis results and the hints. A ghost field holds the snapshot last written to local storage. The constructor is the store's mount:
  - it restores from the loaded snapshot;
  - it then runs the solved-set effect and the guesses effect once, as React does after the first render.
  
  The provider's `numMistakesUsed` is the function `MistakesUsed`: the number of submitted guesses minus the number of solved categories. The setters `SetSolvedGameData` and `SetSubmittedGuesses` each run their effect right after the assignment. `SetGuessesAndSolved` models both setters called in the same event: one render, then the solved-set effect, then the guesses effect. `AnalyzeCurrentGame`, `GetGameHints` and the function `ValidateGuess` model how the store handles the outcome of each remote request. The class keeps an invariant `Valid()`: a game is never won without being over, and local storage holds the current snapshot `{submittedGuesses, solvedGameData, gameData}`.
- `game_data_processor.dfy`, module `GameDataProcessor`, models the row-building loop of the backend's `process_game_data`. `BuildRows` is the triple loop. It is proved equal to the specification function `Rows`. The lemmas give the exact count, position and content of every row.

Things outside the component are inputs:
- The puzzle and `MAX_MISTAKES` are constructor parameters.
- The snapshot read from local storage is a `LoadedState` value.
- `isGameDataEquivalent` and `isGuessesFromGame` are function parameters. Their definitions are not part of this model.
- Each remote request (`analyzeWordGroups`, `validateWordGroup`, `getHints`) is a function from its arguments to an `Outcome`: either `Success(v)` or `Failure`. The contracts therefore also say what the request was asked with.

Three behaviours of the code that are easy to miss:
- The loss effect sets `isGameWon` to false even after a win (GameStatusProvider.js:122). So `isGameWon` can go from true back to false, and `WonGameCanEndLost` exhibits this. Only `isGameOver` is monotone.
- `getGameHints` sends every word of the puzzle, not only the unsolved ones (GameStatusProvider.js:98-99).
- Both effects also run at mount. With an empty puzzle and a positive `MAX_MISTAKES`, a fresh session is therefore immediately over and won.

## Model

| member | source | states |
|---|---|---|
| GameStatus.RestoreSolvedGameData | src/providers/GameStatusProvider/GameStatusProvider.js:19-45 | if the loaded puzzle is not equivalent, or the loaded guesses are not from this game, nothing is restored: solved is `[]` and the guesses setter is not called. Otherwise guesses are restored exactly when they are an array, and solved is the loaded array or `[]`. Anything restored is exactly what the snapshot held |
| GameStatus.GameStatusProvider.constructor | src/providers/GameStatusProvider/GameStatusProvider.js:18-52 | guesses start at `[]` and take the restored value; solved is the restored value; after both mount effects, over iff all categories are solved or the mistakes reach the maximum, and won iff all are solved and the mistakes stay below it; not analysing, no results, no hints; the snapshot is saved |
| GameStatus.MistakesCountWrongGuesses | src/providers/GameStatusProvider/GameStatusProvider.js:54 | for guesses and a solved set built up move by move, the mistake counter `MistakesUsed` (the provider's `numMistakesUsed`) equals the number of guesses that solved no category, so it is never negative |
| GameStatus.CorrectGuessCostsNothing | src/providers/GameStatusProvider/GameStatusProvider.js:54 | a guess that adds a solved category leaves the mistake counter unchanged |
| GameStatus.WrongGuessCostsOne | src/providers/GameStatusProvider/GameStatusProvider.js:54 | a guess that adds no solved category raises the mistake counter by one |
| GameStatus.GameStatusProvider.OnSolvedGameDataChanged | src/providers/GameStatusProvider/GameStatusProvider.js:109-116 | when the solved count equals the number of categories, the game is over and won; otherwise both flags are unchanged; the game stays over if it was; the current snapshot is saved |
| GameStatus.GameStatusProvider.OnSubmittedGuessesChanged | src/providers/GameStatusProvider/GameStatusProvider.js:119-126 | when the mistakes reach `MAX_MISTAKES`, the game is over and not won, even if it was won; otherwise both flags are unchanged; the game stays over if it was; the current snapshot is saved |
| GameStatus.GameStatusProvider.SetSolvedGameData | src/providers/GameStatusProvider/GameStatusProvider.js:109-116 | the new solved set replaces the old, guesses untouched, the win effect's outcome, over stays over, the saved snapshot holds the new solved set, and the invariant is kept |
| GameStatus.GameStatusProvider.SetSubmittedGuesses | src/providers/GameStatusProvider/GameStatusProvider.js:119-126 | the new guesses replace the old, solved untouched, the loss effect's outcome on the new counter, over stays over, the saved snapshot holds the new guesses, and the invariant is kept |
| GameStatus.GameStatusProvider.SetGuessesAndSolved | src/providers/GameStatusProvider/GameStatusProvider.js:109-126 | both new values are set; the loss effect's outcome on the new counter wins over the win effect's; otherwise all categories solved means over and won, and else the flags are unchanged; over stays over; the saved snapshot holds both new values |
| GameStatus.GameStatusProvider.AnalyzeCurrentGame | src/providers/GameStatusProvider/GameStatusProvider.js:71-82 | the request is made with every word of the puzzle; on success its answer becomes the analysis results, on failure they are unchanged; the in-flight flag ends false either way |
| GameStatus.ValidateGuess | src/providers/GameStatusProvider/GameStatusProvider.js:85-93 | the backend's answer on success, `{isValid: false}` on failure; so a guess is only ever valid on the backend's word |
| GameStatus.GameStatusProvider.GetGameHints | src/providers/GameStatusProvider/GameStatusProvider.js:96-106 | the request is made with every word and the solved set; on success the answer is stored as the hints and returned; on failure `null` is returned and the hints are unchanged |
| GameStatus.AllWords | src/providers/GameStatusProvider/GameStatusProvider.js:74 | the pooled words number the sum of the categories' word counts, and a word is in the pool iff some category holds it |
| GameStatus.AllWordsOrder | src/providers/GameStatusProvider/GameStatusProvider.js:74 | word j of category i sits in the pool after all words of the earlier categories |
| GameStatus.SolvingEveryCategoryWins | src/providers/GameStatusProvider/GameStatusProvider.js:109-113 | for any snapshot, any helpers, any `MAX_MISTAKES` and any guesses set before, setting a solved set as long as the puzzle makes the game over and won |
| GameStatus.WonGameCanEndLost | src/providers/GameStatusProvider/GameStatusProvider.js:119-123 | a won game whose guesses then push the mistakes to the maximum ends over and not won |
| GameStatus.StaleSnapshotIsIgnored | src/providers/GameStatusProvider/GameStatusProvider.js:26-36 | for any `MAX_MISTAKES`, a snapshot that the equivalence check or the guesses check rejects gives a session with no guesses and nothing solved |
| GameStatus.GuessesBeforeSolvedEndsLost | src/providers/GameStatusProvider/GameStatusProvider.js:119-123 | the loss effect reads the counter of the render it runs after: a correct guess set in one batch keeps the game going, while the guesses set alone first end it as lost |
| GameDataProcessor.BuildRows | backend/app/services/data_processor.py:10-25 | the triple loop produces exactly `Rows(game_data)` |
| GameDataProcessor.ProcessGameData | backend/app/services/data_processor.py:5-37 | returns `'data/game_data.csv'`; the table has one row per word, and each word's row sits at its offset with its word, category, difficulty, 1-based game set and 1-based word index |
| GameDataProcessor.SetRowCount | backend/app/services/data_processor.py:15-25 | one game set yields one row per word of its categories |
| GameDataProcessor.RowCount | backend/app/services/data_processor.py:13-25 | the row count is the sum of the lengths of every category's `words` |
| GameDataProcessor.SetRowAt | backend/app/services/data_processor.py:15-25 | within a game set, word w of category c is at the number of words of the earlier categories plus w; its row copies the word, the category name and the difficulty, and its word index is w + 1 |
| GameDataProcessor.RowAt | backend/app/services/data_processor.py:13-25 | the row of word (s, c, w) is at its offset and holds `word`, `category['category']` and `category['difficulty']` unchanged, `game_set` = s + 1 and `word_index` = w + 1 |
| GameDataProcessor.SetRowOrigin | backend/app/services/data_processor.py:15-25 | every row of a game set comes from some word of some category, at that word's offset |
| GameDataProcessor.RowOrigin | backend/app/services/data_processor.py:13-25 | every row of the table comes from some word of some category of some game set, at that word's offset |
| GameDataProcessor.WordCountPrefix | backend/app/services/data_processor.py:15-17 | the word count of a longer prefix of categories is at least that of a shorter one, by at least the words of the category in between |
| GameDataProcessor.TotalWordCountPrefix | backend/app/services/data_processor.py:13-17 | the same for prefixes of game sets |
| GameDataProcessor.WordCountCovers | backend/app/services/data_processor.py:15-17 | a word's position inside its game set is below the game set's word count |
| GameDataProcessor.RowOrder | backend/app/services/data_processor.py:13-25 | rows come in input order: an earlier game set, or an earlier category in the same set, or an earlier word in the same category, gives a strictly earlier row |

## Left out

- Local storage I/O (`loadGameStateFromLocalStorage`, `saveGameStateToLocalStorage`): the loaded snapshot is an input value, and a save is an assignment to the ghost field `lastSaved`. A `null` snapshot is modelled as one whose three fields are all `Missing`, which is all that optional chaining lets the code observe.
- The elements of a loaded array are taken to have the right shape (guesses are lists of strings, categories have a name and words). Arbitrary JSON inside a loaded array is not modelled.
- `isGameDataEquivalent`, `isGuessesFromGame` and `MAX_MISTAKES` are defined in `lib/game-helpers` and `lib/constants`, which are not part of this model. They are parameters.
- The fire-and-forget `sendGameData` effect (GameStatusProvider.js:57-68) is left out. Its outcome is only logged.
- The `await getCurrentGameAnswers(...)` at GameStatusProvider.js:128 is left out. It is a network call whose result is never used, written in a non-async function.
- `guessCandidate` and its setter are left out. No logic reads or checks them.
- React context, rendering and console logging are left out.
- Async interleaving is left out: each request completes within its method. The model does not capture the moment where `isAnalyzing` is true, or a request that never settles and leaves the flag up.
- React runs an effect only when its dependency changes by reference. The model runs the effect after every setter call, even one that sets an equal value.
- Batched setter calls are modelled only for the pair of guesses and solved set, by `SetGuessesAndSolved`. Two consecutive setter calls are not the same as one batch when the guesses come first: the loss effect then sees the new guesses with the old solved set, and `GuessesBeforeSolvedEndsLost` shows the game ending lost where the batch keeps it going.
- The puzzle from context is a constant of a provider. A change of `gameData` during a session is not modelled.
- The remote API client (`src/services/gameApi.js`) is pure HTTP I/O. Each request is a function parameter returning `Success(v)` or `Failure`.
- In `process_game_data`, the pandas `DataFrame`, `os.makedirs` and `to_csv` are left out (data_processor.py:28-35). The table returned beside the path stands for what is written. A `KeyError` from a record missing `category`, `difficulty` or `words` is not modelled, because the record datatype always has all three.
- `process_game_data` is annotated as taking `List[Dict[str, Any]]`, a list of dicts. For a dict game set, `for category in game_set` (data_processor.py:15) iterates its keys, and `category['words']` (line 17) then raises `TypeError` on a key string. The model takes the shape on which the loop works: a list of game sets, each a list of category records. The annotated shape and its `TypeError` are not modelled.
- The difficulty is modelled as an integer. The source accepts any value and copies it unchanged.
- The FastAPI glue (`backend/app/main.py`, `backend/app/api/routes.py`) and the stub `predict` model are left out. They hold no logic.
