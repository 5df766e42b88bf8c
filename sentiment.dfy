/**
 * The inner loop of the aggregation script: for every song of a period, copy
 * the four entries of its nested `sentiment` dictionary into four parallel
 * lists, each pre-filled with `None` and filled by index.
 */
module Sentiment {
  import opened Wrappers
  import opened Frames

  /** The column that holds each song's nested sentiment dictionary. */
  const SentimentColumn: string := "sentiment"

  /** The four sentiment scores, in the order the loop looks them up. */
  datatype Score = Neg | Neu | Pos | Compound

  /** Position of a score in the lookup order. */
  function Rank(s: Score): nat {
    match s
    case Neg => 0
    case Neu => 1
    case Pos => 2
    case Compound => 3
  }

  /** The dictionary key a score is stored under. */
  function Key(s: Score): string {
    match s
    case Neg => "neg"
    case Neu => "neu"
    case Pos => "pos"
    case Compound => "compound"
  }

  /** The column a score is copied into: `sentiment_` followed by its key. */
  function ColumnName(s: Score): string {
    match s
    case Neg => "sentiment_neg"
    case Neu => "sentiment_neu"
    case Pos => "sentiment_pos"
    case Compound => "sentiment_compound"
  }

  /** Each score's column is named `sentiment_` followed by the key the score is read from. */
  lemma {:induction false} ColumnNameIsPrefixedKey(s: Score)
    ensures ColumnName(s) == "sentiment_" + Key(s)
  {
  }

  /** Why `decade.iloc[j].sentiment[key]` raised, and for which song. */
  datatype LookupError =
    | NotAMapping(row: nat)               // the song has no sentiment dictionary to subscript
    | MissingKey(row: nat, key: string)   // the dictionary lacks the key

  /** The song's sentiment dictionary is there and holds all four keys. */
  ghost predicate HasScores(row: Row) {
    && SentimentColumn in row
    && row[SentimentColumn].Mapping?
    && forall s: Score :: Key(s) in row[SentimentColumn].entries
  }

  /** The value stored under a score's key. */
  ghost function ScoreOf(row: Row, s: Score): Value
    requires HasScores(row)
  {
    row[SentimentColumn].entries[Key(s)]
  }

  /** `decade.iloc[j].sentiment[Key(s)]`, for the song `row` at position `j`. */
  function Lookup(row: Row, j: nat, s: Score): Result<Value, LookupError> {
    if SentimentColumn in row && row[SentimentColumn].Mapping? then
      var entries := row[SentimentColumn].entries;
      if Key(s) in entries then Ok(entries[Key(s)]) else Err(MissingKey(j, Key(s)))
    else
      Err(NotAMapping(j))
  }

  /** The four scores of one song. */
  datatype Scores = Scores(neg: Value, neu: Value, pos: Value, compound: Value)

  /** One score out of a song's four. */
  function Pick(t: Scores, s: Score): Value {
    match s
    case Neg => t.neg
    case Neu => t.neu
    case Pos => t.pos
    case Compound => t.compound
  }

  /** One iteration of the fill loop: the four lookups in the order the loop makes them. */
  function ExtractRow(row: Row, j: nat): (r: Result<Scores, LookupError>)
    ensures r.Err? ==> r.error.row == j
  {
    var neg :- Lookup(row, j, Neg);
    var neu :- Lookup(row, j, Neu);
    var pos :- Lookup(row, j, Pos);
    var compound :- Lookup(row, j, Compound);
    Ok(Scores(neg, neu, pos, compound))
  }

  /**
   * A song's iteration succeeds exactly when it has all four scores, and then
   * copies them unchanged; otherwise it reports the song, and either that it
   * has no dictionary or the first key, in lookup order, that is missing.
   */
  lemma {:induction false} ExtractRowCopiesOrReports(row: Row, j: nat)
    ensures ExtractRow(row, j).Ok? <==> HasScores(row)
    ensures ExtractRow(row, j).Ok? ==> forall s: Score :: Pick(ExtractRow(row, j).value, s) == ScoreOf(row, s)
    ensures ExtractRow(row, j).Err? && ExtractRow(row, j).error.NotAMapping? <==>
              !(SentimentColumn in row && row[SentimentColumn].Mapping?)
    ensures ExtractRow(row, j).Err? && ExtractRow(row, j).error.MissingKey? ==>
              exists s: Score ::
                && ExtractRow(row, j).error.key == Key(s)
                && Key(s) !in row[SentimentColumn].entries
                && forall t: Score :: Rank(t) < Rank(s) ==> Key(t) in row[SentimentColumn].entries
  {
  }

  /** The four lists once the loop has finished. */
  datatype Columns = Columns(neg: seq<Value>, neu: seq<Value>, pos: seq<Value>, compound: seq<Value>)

  /** The list that collects a given score. */
  function Column(c: Columns, s: Score): seq<Value> {
    match s
    case Neg => c.neg
    case Neu => c.neu
    case Pos => c.pos
    case Compound => c.compound
  }

  /** Every list has one entry per song. */
  predicate Aligned(c: Columns, n: nat) {
    |c.neg| == n && |c.neu| == n && |c.pos| == n && |c.compound| == n
  }

  /** The lists after one more song's scores have been stored at the end. */
  function Snoc(c: Columns, t: Scores): (r: Columns)
    ensures forall s: Score :: Column(r, s) == Column(c, s) + [Pick(t, s)]
  {
    Columns(c.neg + [t.neg], c.neu + [t.neu], c.pos + [t.pos], c.compound + [t.compound])
  }

  /**
   * Reference definition of the fill loop over a period's songs: the four
   * lists it leaves behind, or the first failed lookup, in the order the loop
   * makes them.  On success every list has one entry per song.
   */
  function Flatten(rows: seq<Row>): (r: Result<Columns, LookupError>)
    ensures r.Ok? ==> Aligned(r.value, |rows|)
    decreases |rows|
  {
    if |rows| == 0 then
      Ok(Columns([], [], [], []))
    else
      var c :- Flatten(rows[..|rows| - 1]);
      var t :- ExtractRow(rows[|rows| - 1], |rows| - 1);
      Ok(Snoc(c, t))
  }

  /**
   * On success, entry `j` of each list is exactly song `j`'s own score, with
   * no transformation, and so every song has all four scores.
   */
  lemma {:induction false} FlattenCopiesScores(rows: seq<Row>)
    requires Flatten(rows).Ok?
    ensures forall j :: 0 <= j < |rows| ==> HasScores(rows[j])
    ensures forall j, s: Score :: 0 <= j < |rows| ==> Column(Flatten(rows).value, s)[j] == ScoreOf(rows[j], s)
  {
    if |rows| > 0 {
      var init := rows[..|rows| - 1];
      var last := |rows| - 1;
      FlattenCopiesScores(init);
      ExtractRowCopiesOrReports(rows[last], last);
      assert forall j :: 0 <= j < last ==> init[j] == rows[j];
    }
  }

  /** If every song has all four scores, flattening succeeds. */
  lemma {:induction false} FlattenOfCompleteSongs(rows: seq<Row>)
    requires forall j :: 0 <= j < |rows| ==> HasScores(rows[j])
    ensures Flatten(rows).Ok?
  {
    if |rows| > 0 {
      var init := rows[..|rows| - 1];
      assert forall j :: 0 <= j < |init| ==> init[j] == rows[j];
      FlattenOfCompleteSongs(init);
      ExtractRowCopiesOrReports(rows[|rows| - 1], |rows| - 1);
    }
  }

  /** Flattening succeeds exactly when every song has all four scores. */
  lemma {:induction false} FlattenSucceedsIff(rows: seq<Row>)
    ensures Flatten(rows).Ok? <==> forall j :: 0 <= j < |rows| ==> HasScores(rows[j])
  {
    if Flatten(rows).Ok? {
      FlattenCopiesScores(rows);
    } else if forall j :: 0 <= j < |rows| ==> HasScores(rows[j]) {
      FlattenOfCompleteSongs(rows);
    }
  }

  /**
   * A failed flattening names the first song without all four scores: every
   * earlier song has them, and the error is the one that song's lookups raise.
   */
  lemma {:induction false} FlattenFailsAtFirstFault(rows: seq<Row>)
    requires Flatten(rows).Err?
    ensures Flatten(rows).error.row < |rows|
    ensures !HasScores(rows[Flatten(rows).error.row])
    ensures forall j :: 0 <= j < Flatten(rows).error.row ==> HasScores(rows[j])
    ensures ExtractRow(rows[Flatten(rows).error.row], Flatten(rows).error.row) == Err(Flatten(rows).error)
  {
    var init := rows[..|rows| - 1];
    if Flatten(init).Err? {
      FlattenFailsAtFirstFault(init);
    } else {
      FlattenCopiesScores(init);
      ExtractRowCopiesOrReports(rows[|rows| - 1], |rows| - 1);
      assert forall j :: 0 <= j < |init| ==> init[j] == rows[j];
    }
  }

  /**
   * If every song before `j` has its scores and song `j`'s lookups fail, the
   * whole flattening fails with song `j`'s error, whatever follows it.
   */
  lemma {:induction false} FlattenReportsFirstFault(rows: seq<Row>, j: nat)
    requires j < |rows|
    requires forall k :: 0 <= k < j ==> HasScores(rows[k])
    requires ExtractRow(rows[j], j).Err?
    ensures Flatten(rows) == Err(ExtractRow(rows[j], j).error)
    decreases |rows|
  {
    var init := rows[..|rows| - 1];
    if j == |rows| - 1 {
      FlattenSucceedsIff(init);
      assert forall k :: 0 <= k < j ==> init[k] == rows[k];
    } else {
      FlattenReportsFirstFault(init, j);
    }
  }

  /** FlattenReportsFirstFault, as the loop sees it: flattening the songs before `j` went through. */
  lemma {:induction false} FlattenStopsAtFault(rows: seq<Row>, j: nat)
    requires j < |rows|
    requires Flatten(rows[..j]).Ok?
    requires ExtractRow(rows[j], j).Err?
    ensures Flatten(rows) == Err(ExtractRow(rows[j], j).error)
  {
    FlattenSucceedsIff(rows[..j]);
    assert forall k :: 0 <= k < j ==> rows[..j][k] == rows[k];
    FlattenReportsFirstFault(rows, j);
  }

  /** The values of a fully filled list of optional values. */
  function Unwrap(a: seq<Option<Value>>): (r: seq<Value>)
    requires forall k :: 0 <= k < |a| ==> a[k].Some?
    ensures |r| == |a|
    ensures forall k :: 0 <= k < |a| ==> a[k] == Some(r[k])
  {
    seq(|a|, k requires 0 <= k < |a| => a[k].value)
  }

  /** `n` slots holding `Some` of each value of `v` in turn, then `None`. */
  function Filled(v: seq<Value>, n: nat): (r: seq<Option<Value>>)
    requires |v| <= n
    ensures |r| == n
  {
    seq(n, k requires 0 <= k < n => if k < |v| then Some(v[k]) else None)
  }

  /** Storing the next value into its slot fills one more slot. */
  lemma {:induction false} FillNext(v: seq<Value>, x: Value, n: nat)
    requires |v| < n
    ensures Filled(v, n)[|v| := Some(x)] == Filled(v + [x], n)
  {
  }

  /** Once every slot is filled, the slots unwrap to the values stored. */
  lemma {:induction false} UnwrapFilled(v: seq<Value>)
    ensures Unwrap(Filled(v, |v|)) == v
  {
  }

  /**
   * The fill loop itself: four arrays of `None`, one per score, filled at
   * index `j` from song `j`; the first lookup that fails abandons the loop.
   */
  method FillScores(rows: seq<Row>) returns (r: Result<Columns, LookupError>)
    ensures r == Flatten(rows)
  {
    var size := |rows|;
    var neg := new Option<Value>[size](_ => None);
    var neu := new Option<Value>[size](_ => None);
    var pos := new Option<Value>[size](_ => None);
    var compound := new Option<Value>[size](_ => None);

    ghost var done := Columns([], [], [], []);
    for j := 0 to size
      invariant Flatten(rows[..j]) == Ok(done) && Aligned(done, j)
      invariant neg[..] == Filled(done.neg, size) && neu[..] == Filled(done.neu, size)
      invariant pos[..] == Filled(done.pos, size) && compound[..] == Filled(done.compound, size)
    {
      if ExtractRow(rows[j], j).Err? {
        FlattenStopsAtFault(rows, j);
      }
      var n :- Lookup(rows[j], j, Neg);
      neg[j] := Some(n);
      var u :- Lookup(rows[j], j, Neu);
      neu[j] := Some(u);
      var p :- Lookup(rows[j], j, Pos);
      pos[j] := Some(p);
      var c :- Lookup(rows[j], j, Compound);
      compound[j] := Some(c);
      assert rows[..j + 1][..j] == rows[..j];
      FillNext(done.neg, n, size);
      FillNext(done.neu, u, size);
      FillNext(done.pos, p, size);
      FillNext(done.compound, c, size);
      done := Snoc(done, Scores(n, u, p, c));
    }

    assert rows[..size] == rows;
    UnwrapFilled(done.neg);
    UnwrapFilled(done.neu);
    UnwrapFilled(done.pos);
    UnwrapFilled(done.compound);
    r := Ok(Columns(Unwrap(neg[..]), Unwrap(neu[..]), Unwrap(pos[..]), Unwrap(compound[..])));
  }
}
