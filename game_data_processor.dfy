/**
 * The row-building part of the backend's `process_game_data`: a list of game
 * sets, each a list of categories, each with a list of words, is flattened
 * into one table with a row per word. Every row carries the word, its
 * category's name and difficulty, the 1-based position of its game set and
 * the 1-based position of the word inside its category.
 */
module GameDataProcessor {

  /** A category record of the input, with the three keys the loop reads. */
  datatype CategoryRecord = CategoryRecord(category: string, difficulty: int, words: seq<string>)

  type GameSet = seq<CategoryRecord>

  /** One row of the table handed to the CSV writer. */
  datatype Row = Row(word: string, category: string, difficulty: int, gameSet: int, wordIndex: int)

  /** The path the table is written to; `process_game_data` always returns it. */
  const CsvPath: string := "data/game_data.csv"

  // ---------------------------------------------------------------------------
  // Specification of the table
  // ---------------------------------------------------------------------------

  /** The rows of one category, for the game set at 1-based position `setIndex`. */
  function CategoryRows(c: CategoryRecord, setIndex: int): seq<Row>
  {
    seq(|c.words|, j requires 0 <= j < |c.words| =>
      Row(c.words[j], c.category, c.difficulty, setIndex, j + 1))
  }

  /** The rows of the categories `cats` of one game set, in category order. */
  function SetRows(cats: GameSet, setIndex: int): seq<Row>
  {
    if cats == [] then []
    else SetRows(cats[..|cats| - 1], setIndex) + CategoryRows(cats[|cats| - 1], setIndex)
  }

  /** The rows of the game sets `sets`, numbered from 1 in input order. */
  function Rows(sets: seq<GameSet>): seq<Row>
  {
    if sets == [] then []
    else Rows(sets[..|sets| - 1]) + SetRows(sets[|sets| - 1], |sets|)
  }

  /** Number of words in the categories of one game set. */
  function WordCount(cats: GameSet): nat
  {
    if cats == [] then 0 else WordCount(cats[..|cats| - 1]) + |cats[|cats| - 1].words|
  }

  /** Number of words in all game sets. */
  function TotalWordCount(sets: seq<GameSet>): nat
  {
    if sets == [] then 0 else TotalWordCount(sets[..|sets| - 1]) + WordCount(sets[|sets| - 1])
  }

  /** True when (s, c, w) names a word: game set s, category c in it, word w in that. */
  predicate IsWordPosition(sets: seq<GameSet>, s: int, c: int, w: int)
  {
    0 <= s < |sets| && 0 <= c < |sets[s]| && 0 <= w < |sets[s][c].words|
  }

  /**
   * Where the word at (s, c, w) lands in the table: after every word of the
   * earlier game sets, then after every word of the earlier categories of its
   * own game set.
   */
  function Offset(sets: seq<GameSet>, s: nat, c: nat, w: nat): nat
    requires IsWordPosition(sets, s, c, w)
  {
    TotalWordCount(sets[..s]) + WordCount(sets[s][..c]) + w
  }

  /** The row the source builds for the word at (s, c, w). */
  function RowFor(sets: seq<GameSet>, s: nat, c: nat, w: nat): Row
    requires IsWordPosition(sets, s, c, w)
  {
    var cat := sets[s][c];
    Row(cat.words[w], cat.category, cat.difficulty, s + 1, w + 1)
  }

  // ---------------------------------------------------------------------------
  // The loop of `process_game_data`
  // ---------------------------------------------------------------------------

  /**
   * The triple loop: game sets numbered from 1, categories in order, words
   * numbered from 1, one row appended per word.
   */
  method BuildRows(gameData: seq<GameSet>) returns (rows: seq<Row>)
    ensures rows == Rows(gameData)
  {
    rows := [];
    var i := 0;
    while i < |gameData|
      invariant 0 <= i <= |gameData|
      invariant rows == Rows(gameData[..i])
    {
      var gameSet := gameData[i];
      var c := 0;
      while c < |gameSet|
        invariant 0 <= c <= |gameSet|
        invariant rows == Rows(gameData[..i]) + SetRows(gameSet[..c], i + 1)
      {
        var category := gameSet[c];
        var j := 0;
        while j < |category.words|
          invariant 0 <= j <= |category.words|
          invariant rows == Rows(gameData[..i]) + SetRows(gameSet[..c], i + 1)
                            + CategoryRows(category, i + 1)[..j]
        {
          rows := rows + [Row(category.words[j], category.category, category.difficulty, i + 1, j + 1)];
          j := j + 1;
        }
        assert gameSet[..c + 1][..c] == gameSet[..c];
        c := c + 1;
      }
      assert gameSet[..c] == gameSet;
      assert gameData[..i + 1][..i] == gameData[..i];
      i := i + 1;
    }
    assert gameData[..i] == gameData;
  }

  /**
   * `process_game_data`: builds the table and returns the fixed CSV path.
   * `table` stands for the DataFrame that is written to that path.
   */
  method ProcessGameData(gameData: seq<GameSet>) returns (csvPath: string, table: seq<Row>)
    ensures csvPath == "data/game_data.csv"
    ensures |table| == TotalWordCount(gameData)
    ensures forall s, c, w :: IsWordPosition(gameData, s, c, w) ==>
              Offset(gameData, s, c, w) < |table| && table[Offset(gameData, s, c, w)] == RowFor(gameData, s, c, w)
  {
    table := BuildRows(gameData);
    RowCount(gameData);
    forall s, c, w | IsWordPosition(gameData, s, c, w)
      ensures Offset(gameData, s, c, w) < |table| && table[Offset(gameData, s, c, w)] == RowFor(gameData, s, c, w)
    {
      RowAt(gameData, s, c, w);
    }
    csvPath := CsvPath;
  }

  // ---------------------------------------------------------------------------
  // Count, order and indexing of the table
  // ---------------------------------------------------------------------------

  /** One game set contributes one row per word of each of its categories. */
  lemma {:induction false} SetRowCount(cats: GameSet, setIndex: int)
    ensures |SetRows(cats, setIndex)| == WordCount(cats)
  {
    if cats != [] {
      SetRowCount(cats[..|cats| - 1], setIndex);
    }
  }

  /** The table has exactly one row per word of every category of every game set. */
  lemma {:induction false} RowCount(sets: seq<GameSet>)
    ensures |Rows(sets)| == TotalWordCount(sets)
  {
    if sets != [] {
      RowCount(sets[..|sets| - 1]);
      SetRowCount(sets[|sets| - 1], |sets|);
    }
  }

  /** Inside one game set, word w of category c sits after the words of categories 0..c-1. */
  lemma {:induction false} SetRowAt(cats: GameSet, setIndex: int, c: nat, w: nat)
    requires c < |cats| && w < |cats[c].words|
    ensures WordCount(cats[..c]) + w < |SetRows(cats, setIndex)|
    ensures SetRows(cats, setIndex)[WordCount(cats[..c]) + w]
              == Row(cats[c].words[w], cats[c].category, cats[c].difficulty, setIndex, w + 1)
  {
    var n := |cats| - 1;
    var front := cats[..n];
    SetRowCount(front, setIndex);
    if c < n {
      assert front[..c] == cats[..c];
      SetRowAt(front, setIndex, c, w);
    } else {
      assert front == cats[..c];
    }
  }

  /**
   * The row for the word at (s, c, w) is at position Offset(s, c, w) and
   * copies the word, category name and difficulty, with the 1-based game set
   * and 1-based word index.
   */
  lemma {:induction false} RowAt(sets: seq<GameSet>, s: nat, c: nat, w: nat)
    requires IsWordPosition(sets, s, c, w)
    ensures Offset(sets, s, c, w) < |Rows(sets)|
    ensures Rows(sets)[Offset(sets, s, c, w)] == RowFor(sets, s, c, w)
  {
    var n := |sets| - 1;
    var front := sets[..n];
    RowCount(front);
    if s < n {
      assert front[..s] == sets[..s];
      RowAt(front, s, c, w);
    } else {
      assert front == sets[..s];
      SetRowAt(sets[s], |sets|, c, w);
    }
  }

  /** Every row of one game set comes from some word of some category. */
  lemma {:induction false} SetRowOrigin(cats: GameSet, setIndex: int, k: nat) returns (c: nat, w: nat)
    requires k < |SetRows(cats, setIndex)|
    ensures c < |cats| && w < |cats[c].words|
    ensures k == WordCount(cats[..c]) + w
  {
    var n := |cats| - 1;
    var front := cats[..n];
    SetRowCount(front, setIndex);
    if k < |SetRows(front, setIndex)| {
      c, w := SetRowOrigin(front, setIndex, k);
      assert front[..c] == cats[..c];
    } else {
      c, w := n, k - WordCount(front);
      assert front == cats[..c];
    }
  }

  /**
   * Every row of the table comes from some word: together with RowAt and
   * RowCount, the table is exactly the words, each once, at its offset.
   */
  lemma {:induction false} RowOrigin(sets: seq<GameSet>, k: nat) returns (s: nat, c: nat, w: nat)
    requires k < |Rows(sets)|
    ensures IsWordPosition(sets, s, c, w)
    ensures Offset(sets, s, c, w) == k
  {
    var n := |sets| - 1;
    var front := sets[..n];
    RowCount(front);
    if k < |Rows(front)| {
      s, c, w := RowOrigin(front, k);
      assert front[..s] == sets[..s];
    } else {
      s := n;
      assert front == sets[..s];
      c, w := SetRowOrigin(sets[s], |sets|, k - TotalWordCount(front));
    }
  }

  /** Word counts only grow along prefixes of a game set. */
  lemma {:induction false} WordCountPrefix(cats: GameSet, c: nat, d: nat)
    requires c <= d <= |cats|
    ensures WordCount(cats[..c]) <= WordCount(cats[..d])
    ensures c < d ==> WordCount(cats[..c]) + |cats[c].words| <= WordCount(cats[..d])
  {
    if c < d {
      var front := cats[..d][..d - 1];
      assert front == cats[..d - 1];
      WordCountPrefix(cats, c, d - 1);
    }
  }

  /** Word counts only grow along prefixes of the game sets. */
  lemma {:induction false} TotalWordCountPrefix(sets: seq<GameSet>, s: nat, t: nat)
    requires s <= t <= |sets|
    ensures TotalWordCount(sets[..s]) <= TotalWordCount(sets[..t])
    ensures s < t ==> TotalWordCount(sets[..s]) + WordCount(sets[s]) <= TotalWordCount(sets[..t])
  {
    if s < t {
      var front := sets[..t][..t - 1];
      assert front == sets[..t - 1];
      TotalWordCountPrefix(sets, s, t - 1);
    }
  }

  /** A word inside category c is counted by the prefix of categories up to c. */
  lemma WordCountCovers(cats: GameSet, c: nat, w: nat)
    requires c < |cats| && w < |cats[c].words|
    ensures WordCount(cats[..c]) + w < WordCount(cats)
  {
    WordCountPrefix(cats, c, |cats|);
    assert cats[..|cats|] == cats;
  }

  /**
   * Rows appear in input order: game sets first, then categories, then words.
   * A word earlier in that lexicographic order has a strictly smaller offset.
   */
  lemma RowOrder(sets: seq<GameSet>, s: nat, c: nat, w: nat, s': nat, c': nat, w': nat)
    requires IsWordPosition(sets, s, c, w) && IsWordPosition(sets, s', c', w')
    requires s < s' || (s == s' && c < c') || (s == s' && c == c' && w < w')
    ensures Offset(sets, s, c, w) < Offset(sets, s', c', w')
  {
    if s < s' {
      TotalWordCountPrefix(sets, s, s');
      WordCountCovers(sets[s], c, w);
      WordCountPrefix(sets[s'], 0, c');
    } else if c < c' {
      WordCountPrefix(sets[s], c, c');
    }
  }
}
