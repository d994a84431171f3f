/**
 * The game-status store of the word-grouping puzzle client
 * (`GameStatusProvider`): the submitted guesses, the solved categories, the
 * game-over and game-won flags, and the results of the on-demand remote
 * requests (analysis, validation, hints).
 *
 * What lives outside this component is passed in:
 *  - the puzzle (`gameData`) and the maximum number of mistakes are
 *    constants of a provider;
 *  - the snapshot read from local storage is an input value, and a save is an
 *    assignment to the ghost field `lastSaved`;
 *  - the puzzle-equivalence and guesses-from-game helpers, whose definitions
 *    are not part of this model, are function parameters;
 *  - each remote request is a function from its arguments to an `Outcome`.
 */
module GameStatus {

  /** A category of the puzzle: its name and its words. */
  datatype Category = Category(category: string, words: seq<string>)

  /** One submitted attempt: the words the player grouped together. */
  type Guess = seq<string>

  /** An answer of the backend, opaque to this component. */
  type Payload = string

  /** How a remote request ended: its response, or a rejected promise. */
  datatype Outcome<T> = Success(value: T) | Failure

  datatype Option<T> = None | Some(value: T)

  /**
   * A field of the snapshot read back from local storage: absent, present but
   * not an array, or an array.
   */
  datatype Field<T> = Missing | NonArray | Array(elems: seq<T>)

  /**
   * The snapshot as read back from local storage. The store only reads it
   * through optional chaining, so a missing snapshot is the one whose three
   * fields are all `Missing`.
   */
  datatype LoadedState = LoadedState(submittedGuesses: Field<Guess>, solvedGameData: Field<Category>, gameData: Field<Category>)

  /** The snapshot the effects write to local storage. */
  datatype Snapshot = Snapshot(submittedGuesses: seq<Guess>, solvedGameData: seq<Category>, gameData: seq<Category>)

  /** The answer of the validation request. */
  datatype Validation = Validation(isValid: bool, category: Option<string>)

  /** The default answer `validateGuess` falls back to: `{ isValid: false }`. */
  const Invalid: Validation := Validation(false, None)

  /**
   * The outcome of the restore decision: the solved set to start with, and
   * the guesses handed to `setSubmittedGuesses`, if that setter is called.
   */
  datatype Restored = Restored(guesses: Option<seq<Guess>>, solved: seq<Category>)

  /** The counter the provider exposes as `numMistakesUsed`. */
  function MistakesUsed(submittedGuesses: seq<Guess>, solvedGameData: seq<Category>): int
  {
    |submittedGuesses| - |solvedGameData|
  }

  /** A guess that solves a new category leaves the mistake counter as it was. */
  lemma CorrectGuessCostsNothing(guesses: seq<Guess>, solved: seq<Category>, g: Guess, c: Category)
    ensures MistakesUsed(guesses + [g], solved + [c]) == MistakesUsed(guesses, solved)
  {
  }

  /** A guess that solves nothing uses up one mistake. */
  lemma WrongGuessCostsOne(guesses: seq<Guess>, solved: seq<Category>, g: Guess)
    ensures MistakesUsed(guesses + [g], solved) == MistakesUsed(guesses, solved) + 1
  {
  }

  /**
   * One move of a session: a submitted guess, and the category it solved,
   * if it solved one.
   */
  datatype Play = Play(guess: Guess, solves: Option<Category>)

  /** The guesses and the solved set after the moves `plays`, in order. */
  function Replay(plays: seq<Play>): (seq<Guess>, seq<Category>)
  {
    if plays == [] then ([], [])
    else
      var (guesses, solved) := Replay(plays[..|plays| - 1]);
      var last := plays[|plays| - 1];
      (guesses + [last.guess], if last.solves.Some? then solved + [last.solves.value] else solved)
  }

  /** The moves that solved nothing. */
  function WrongGuesses(plays: seq<Play>): nat
  {
    if plays == [] then 0
    else WrongGuesses(plays[..|plays| - 1]) + (if plays[|plays| - 1].solves.None? then 1 else 0)
  }

  /**
   * For guesses and a solved set built up move by move, the mistake counter
   * is exactly the number of guesses that solved nothing, so it is never
   * negative.
   */
  lemma {:induction false} MistakesCountWrongGuesses(plays: seq<Play>)
    ensures MistakesUsed(Replay(plays).0, Replay(plays).1) == WrongGuesses(plays)
    ensures MistakesUsed(Replay(plays).0, Replay(plays).1) >= 0
  {
    if plays != [] {
      var front := plays[..|plays| - 1];
      var last := plays[|plays| - 1];
      MistakesCountWrongGuesses(front);
      var (guesses, solved) := Replay(front);
      if last.solves.Some? {
        CorrectGuessCostsNothing(guesses, solved, last.guess, last.solves.value);
      } else {
        WrongGuessCostsOne(guesses, solved, last.guess);
      }
    }
  }

  /** Every word of the puzzle, category by category (`gameData.flatMap(c => c.words)`). */
  function AllWords(gameData: seq<Category>): (r: seq<string>)
    ensures |r| == TotalWords(gameData)
    ensures forall w :: w in r <==> exists i :: 0 <= i < |gameData| && w in gameData[i].words
  {
    if gameData == [] then []
    else
      var rest := AllWords(gameData[1..]);
      assert forall w :: (exists i :: 0 <= i < |gameData| && w in gameData[i].words) <==>
                         (w in gameData[0].words || exists i :: 0 <= i < |gameData[1..]| && w in gameData[1..][i].words) by {
        forall w, i | 0 <= i < |gameData| && w in gameData[i].words && i > 0
          ensures exists i' :: 0 <= i' < |gameData[1..]| && w in gameData[1..][i'].words
        {
          assert w in gameData[1..][i - 1].words;
        }
      }
      gameData[0].words + rest
  }

  /** Number of words over all categories. */
  function TotalWords(gameData: seq<Category>): nat
  {
    if gameData == [] then 0 else |gameData[0].words| + TotalWords(gameData[1..])
  }

  /** The words are pooled in category order: the first category's words come first. */
  lemma {:induction false} AllWordsOrder(gameData: seq<Category>, i: nat, j: nat)
    requires i < |gameData| && j < |gameData[i].words|
    ensures TotalWords(gameData[..i]) + j < |AllWords(gameData)|
    ensures AllWords(gameData)[TotalWords(gameData[..i]) + j] == gameData[i].words[j]
  {
    if i > 0 {
      assert gameData[1..][..i - 1] == gameData[..i][1..];
      AllWordsOrder(gameData[1..], i - 1, j);
    }
  }

  /**
   * The restore decision run once when the store is created. The persisted
   * snapshot is used only if its puzzle is equivalent to the current one and
   * its guesses belong to the current game; then the guesses are restored
   * when they are an array, and the solved set is the persisted one when it
   * is an array and empty otherwise.
   */
  function RestoreSolvedGameData(
    gameData: seq<Category>,
    loaded: LoadedState,
    isGameDataEquivalent: (seq<Category>, Field<Category>) -> bool,
    isGuessesFromGame: (seq<Category>, Field<Guess>) -> bool): (r: Restored)
    ensures !isGameDataEquivalent(gameData, loaded.gameData) ==> r == Restored(None, [])
    ensures !isGuessesFromGame(gameData, loaded.submittedGuesses) ==> r == Restored(None, [])
    ensures isGameDataEquivalent(gameData, loaded.gameData) && isGuessesFromGame(gameData, loaded.submittedGuesses) ==>
              (r.guesses.Some? <==> loaded.submittedGuesses.Array?) &&
              (loaded.submittedGuesses.Array? ==> r.guesses.value == loaded.submittedGuesses.elems) &&
              r.solved == (if loaded.solvedGameData.Array? then loaded.solvedGameData.elems else [])
    ensures r.guesses.Some? ==> loaded.submittedGuesses == Array(r.guesses.value)
    ensures r.solved != [] ==> loaded.solvedGameData == Array(r.solved)
  {
    if !isGameDataEquivalent(gameData, loaded.gameData) then
      Restored(None, [])
    else if !isGuessesFromGame(gameData, loaded.submittedGuesses) then
      Restored(None, [])
    else
      var guesses := if loaded.submittedGuesses.Array? then Some(loaded.submittedGuesses.elems) else None;
      if loaded.solvedGameData.Array? then Restored(guesses, loaded.solvedGameData.elems)
      else Restored(guesses, [])
  }

  /**
   * `validateGuess`: the answer of the validation request, or `{ isValid: false }`
   * when the request fails; it never fails itself.
   */
  function ValidateGuess(words: seq<string>, validateWordGroup: seq<string> -> Outcome<Validation>): (r: Validation)
    ensures validateWordGroup(words).Failure? ==> r == Invalid
    ensures validateWordGroup(words).Success? ==> r == validateWordGroup(words).value
    ensures r.isValid ==> validateWordGroup(words).Success?
  {
    match validateWordGroup(words)
    case Success(v) => v
    case Failure => Invalid
  }

  /** The state of one game session. */
  class GameStatusProvider {
    const gameData: seq<Category>
    const maxMistakes: int

    var submittedGuesses: seq<Guess>
    var solvedGameData: seq<Category>
    var isGameOver: bool
    var isGameWon: bool
    var isAnalyzing: bool
    var analysisResults: Option<Payload>
    var hints: Option<Payload>

    /** The snapshot most recently written to local storage. */
    ghost var lastSaved: Option<Snapshot>

    /** What the effects write to local storage. */
    ghost function CurrentSnapshot(): Snapshot
      reads this
    {
      Snapshot(submittedGuesses, solvedGameData, gameData)
    }

    /** A game is never won without being over. */
    ghost predicate FlagsConsistent()
      reads this
    {
      isGameWon ==> isGameOver
    }

    /** Between two user actions: the flags agree and local storage holds the current snapshot. */
    ghost predicate Valid()
      reads this
    {
      FlagsConsistent() && lastSaved == Some(CurrentSnapshot())
    }

    /**
     * Mounting the provider: restore from the loaded snapshot, then run the
     * solved-set effect and the guesses effect once, as after the first render.
     */
    constructor (
      gameData: seq<Category>,
      maxMistakes: int,
      loaded: LoadedState,
      isGameDataEquivalent: (seq<Category>, Field<Category>) -> bool,
      isGuessesFromGame: (seq<Category>, Field<Guess>) -> bool)
      ensures this.gameData == gameData && this.maxMistakes == maxMistakes
      ensures var r := RestoreSolvedGameData(gameData, loaded, isGameDataEquivalent, isGuessesFromGame);
              submittedGuesses == (if r.guesses.Some? then r.guesses.value else []) &&
              solvedGameData == r.solved
      ensures isGameOver <==> |solvedGameData| == |gameData| || MistakesUsed(submittedGuesses, solvedGameData) >= maxMistakes
      ensures isGameWon <==> |solvedGameData| == |gameData| && MistakesUsed(submittedGuesses, solvedGameData) < maxMistakes
      ensures !isAnalyzing && analysisResults == None && hints == None
      ensures Valid()
    {
      this.gameData := gameData;
      this.maxMistakes := maxMistakes;
      submittedGuesses := [];
      var r := RestoreSolvedGameData(gameData, loaded, isGameDataEquivalent, isGuessesFromGame);
      if r.guesses.Some? {
        submittedGuesses := r.guesses.value;
      }
      solvedGameData := r.solved;
      isGameOver := false;
      isGameWon := false;
      isAnalyzing := false;
      analysisResults := None;
      hints := None;
      lastSaved := None;
      new;
      OnSolvedGameDataChanged();
      OnSubmittedGuessesChanged();
    }

    /**
     * The effect run when the solved set changes: when every category is
     * solved the game is over and won; the snapshot is saved either way.
     */
    method OnSolvedGameDataChanged()
      requires FlagsConsistent()
      modifies this`isGameOver, this`isGameWon, this`lastSaved
      ensures |solvedGameData| == |gameData| ==> isGameOver && isGameWon
      ensures |solvedGameData| != |gameData| ==> isGameOver == old(isGameOver) && isGameWon == old(isGameWon)
      ensures old(isGameOver) ==> isGameOver
      ensures lastSaved == Some(CurrentSnapshot())
      ensures Valid()
    {
      if |solvedGameData| == |gameData| {
        isGameOver := true;
        isGameWon := true;
      }
      lastSaved := Some(Snapshot(submittedGuesses, solvedGameData, gameData));
    }

    /**
     * The effect run when the guesses change: once the mistakes reach the
     * maximum the game is over and not won, even if it had been won; the
     * snapshot is saved either way.
     */
    method OnSubmittedGuessesChanged()
      requires FlagsConsistent()
      modifies this`isGameOver, this`isGameWon, this`lastSaved
      ensures MistakesUsed(submittedGuesses, solvedGameData) >= maxMistakes ==> isGameOver && !isGameWon
      ensures MistakesUsed(submittedGuesses, solvedGameData) < maxMistakes ==> isGameOver == old(isGameOver) && isGameWon == old(isGameWon)
      ensures old(isGameOver) ==> isGameOver
      ensures lastSaved == Some(CurrentSnapshot())
      ensures Valid()
    {
      if MistakesUsed(submittedGuesses, solvedGameData) >= maxMistakes {
        isGameOver := true;
        isGameWon := false;
      }
      lastSaved := Some(Snapshot(submittedGuesses, solvedGameData, gameData));
    }

    /** `setSolvedGameData` followed by the effect it triggers. */
    method SetSolvedGameData(solved: seq<Category>)
      requires Valid()
      modifies this`solvedGameData, this`isGameOver, this`isGameWon, this`lastSaved
      ensures solvedGameData == solved && submittedGuesses == old(submittedGuesses)
      ensures |solved| == |gameData| ==> isGameOver && isGameWon
      ensures |solved| != |gameData| ==> isGameOver == old(isGameOver) && isGameWon == old(isGameWon)
      ensures old(isGameOver) ==> isGameOver
      ensures lastSaved == Some(Snapshot(submittedGuesses, solved, gameData))
      ensures Valid()
    {
      solvedGameData := solved;
      OnSolvedGameDataChanged();
    }

    /** `setSubmittedGuesses` followed by the effect it triggers. */
    method SetSubmittedGuesses(guesses: seq<Guess>)
      requires Valid()
      modifies this`submittedGuesses, this`isGameOver, this`isGameWon, this`lastSaved
      ensures submittedGuesses == guesses && solvedGameData == old(solvedGameData)
      ensures MistakesUsed(guesses, solvedGameData) >= maxMistakes ==> isGameOver && !isGameWon
      ensures MistakesUsed(guesses, solvedGameData) < maxMistakes ==>
                isGameOver == old(isGameOver) && isGameWon == old(isGameWon)
      ensures old(isGameOver) ==> isGameOver
      ensures lastSaved == Some(Snapshot(guesses, solvedGameData, gameData))
      ensures Valid()
    {
      submittedGuesses := guesses;
      OnSubmittedGuessesChanged();
    }

    /**
     * `setSubmittedGuesses` and `setSolvedGameData` called in the same event:
     * React renders once with both new values and then runs the solved-set
     * effect before the guesses effect, in the order they are declared.
     */
    method SetGuessesAndSolved(guesses: seq<Guess>, solved: seq<Category>)
      requires Valid()
      modifies this`submittedGuesses, this`solvedGameData, this`isGameOver, this`isGameWon, this`lastSaved
      ensures submittedGuesses == guesses && solvedGameData == solved
      ensures MistakesUsed(guesses, solved) >= maxMistakes ==> isGameOver && !isGameWon
      ensures MistakesUsed(guesses, solved) < maxMistakes && |solved| == |gameData| ==> isGameOver && isGameWon
      ensures MistakesUsed(guesses, solved) < maxMistakes && |solved| != |gameData| ==>
                isGameOver == old(isGameOver) && isGameWon == old(isGameWon)
      ensures old(isGameOver) ==> isGameOver
      ensures lastSaved == Some(Snapshot(guesses, solved, gameData))
      ensures Valid()
    {
      submittedGuesses := guesses;
      solvedGameData := solved;
      OnSolvedGameDataChanged();
      OnSubmittedGuessesChanged();
    }

    /**
     * `analyzeCurrentGame`: asks for an analysis of every word of the puzzle;
     * the answer replaces the analysis results, a failure keeps the old ones,
     * and the in-flight flag is down again either way.
     */
    method AnalyzeCurrentGame(analyzeWordGroups: seq<string> -> Outcome<Payload>)
      requires Valid()
      modifies this`isAnalyzing, this`analysisResults
      ensures !isAnalyzing
      ensures analyzeWordGroups(AllWords(gameData)).Success? ==>
                analysisResults == Some(analyzeWordGroups(AllWords(gameData)).value)
      ensures analyzeWordGroups(AllWords(gameData)).Failure? ==> analysisResults == old(analysisResults)
      ensures Valid()
    {
      isAnalyzing := true;
      var allWords := AllWords(gameData);
      var outcome := analyzeWordGroups(allWords);
      if outcome.Success? {
        analysisResults := Some(outcome.value);
      }
      isAnalyzing := false;
    }

    /**
     * `getGameHints`: asks for hints given every word of the puzzle and the
     * solved categories; on success the answer becomes the hints and is
     * returned, on failure nothing changes and `null` is returned.
     */
    method GetGameHints(getHints: (seq<string>, seq<Category>) -> Outcome<Payload>) returns (result: Option<Payload>)
      requires Valid()
      modifies this`hints
      ensures getHints(AllWords(gameData), solvedGameData).Success? ==>
                result == Some(getHints(AllWords(gameData), solvedGameData).value) && hints == result
      ensures getHints(AllWords(gameData), solvedGameData).Failure? ==> result == None && hints == old(hints)
      ensures Valid()
    {
      var allWords := AllWords(gameData);
      var outcome := getHints(allWords, solvedGameData);
      if outcome.Success? {
        result := Some(outcome.value);
        hints := result;
      } else {
        result := None;
      }
    }
  }

  /**
   * A winning session: whatever snapshot was restored, whatever the maximum
   * and whatever guesses came before, once the solved set holds as many
   * categories as the puzzle the game is won and over.
   */
  method SolvingEveryCategoryWins(gameData: seq<Category>, maxMistakes: int, loaded: LoadedState,
                                  isGameDataEquivalent: (seq<Category>, Field<Category>) -> bool,
                                  isGuessesFromGame: (seq<Category>, Field<Guess>) -> bool,
                                  guesses: seq<Guess>, solved: seq<Category>)
    returns (over: bool, won: bool)
    requires |solved| == |gameData|
    ensures over && won
  {
    var p := new GameStatusProvider(gameData, maxMistakes, loaded, isGameDataEquivalent, isGuessesFromGame);
    p.SetSubmittedGuesses(guesses);
    p.SetSolvedGameData(solved);
    over, won := p.isGameOver, p.isGameWon;
  }

  /**
   * `isGameWon` is not monotone: a won game whose guesses then change so that
   * the mistakes reach the maximum ends lost.
   */
  method WonGameCanEndLost(c: Category, g: Guess) returns (wonBefore: bool, wonAfter: bool, overAfter: bool)
    ensures wonBefore && !wonAfter && overAfter
  {
    var noSnapshot := LoadedState(Missing, Missing, Missing);
    var p := new GameStatusProvider([c], 1, noSnapshot, (gd, s) => false, (gd, s) => false);
    p.SetSolvedGameData([c]);
    wonBefore := p.isGameWon;
    p.SetSubmittedGuesses([g, g]);
    wonAfter, overAfter := p.isGameWon, p.isGameOver;
  }

  /**
   * A snapshot that fails either check, a different puzzle or guesses from
   * another game, gives a session with no guesses and nothing solved,
   * whatever the snapshot holds.
   */
  method StaleSnapshotIsIgnored(gameData: seq<Category>, maxMistakes: int, loaded: LoadedState,
                                isGameDataEquivalent: (seq<Category>, Field<Category>) -> bool,
                                isGuessesFromGame: (seq<Category>, Field<Guess>) -> bool)
    returns (guesses: seq<Guess>, solved: seq<Category>)
    requires !isGameDataEquivalent(gameData, loaded.gameData) || !isGuessesFromGame(gameData, loaded.submittedGuesses)
    ensures guesses == [] && solved == []
  {
    var p := new GameStatusProvider(gameData, maxMistakes, loaded, isGameDataEquivalent, isGuessesFromGame);
    guesses, solved := p.submittedGuesses, p.solvedGameData;
  }

  /**
   * Batched and one-at-a-time updates differ: with one category solved by the
   * only guess, the batched update keeps the game going, while setting the
   * guesses before the solved set ends it as lost on the stale counter.
   */
  method GuessesBeforeSolvedEndsLost(c1: Category, c2: Category, g: Guess)
    returns (batchedOver: bool, stepwiseOver: bool, stepwiseWon: bool)
    ensures !batchedOver && stepwiseOver && !stepwiseWon
  {
    var noSnapshot := LoadedState(Missing, Missing, Missing);
    var batched := new GameStatusProvider([c1, c2], 1, noSnapshot, (gd, s) => false, (gd, s) => false);
    batched.SetGuessesAndSolved([g], [c1]);
    batchedOver := batched.isGameOver;
    var stepwise := new GameStatusProvider([c1, c2], 1, noSnapshot, (gd, s) => false, (gd, s) => false);
    stepwise.SetSubmittedGuesses([g]);
    stepwise.SetSolvedGameData([c1]);
    stepwiseOver, stepwiseWon := stepwise.isGameOver, stepwise.isGameWon;
  }
}
