/**
 * The aggregation script as a whole: for each period of the corpus, in
 * order, build a frame of its songs, flatten their sentiment into four new
 * columns, write the frame to `year/<key>.csv` and append it to a
 * corpus-wide frame that is written to `data.csv` at the end.
 */
module Aggregate {
  import opened Wrappers
  import opened Frames
  import opened Sentiment
  import opened Paths

  /** One entry of the corpus: a period's key and its songs, in order. */
  datatype Period = Period(key: Key, songs: seq<Row>)

  /** One `to_csv` call: the path written and the frame written there. */
  datatype Write = Write(path: string, table: Table)

  /** The lookup that stopped the script, and the period it happened in. */
  datatype RunError = RunError(period: nat, cause: LookupError)

  /** How the script ends: it reaches its last line, or a lookup raises. */
  datatype Outcome = Completed | Aborted(error: RunError)

  /** Everything the script leaves behind: its writes, in order, and how it ended. */
  datatype Effects = Effects(log: seq<Write>, outcome: Outcome)

  /** The names of the four columns the script adds. */
  ghost predicate IsScoreColumn(name: string) {
    exists s: Score :: ColumnName(s) == name
  }

  /** The four column assignments, in source order, on a period's songs (EnrichAddsScores). */
  function Enrich(rows: seq<Row>, c: Columns): (r: seq<Row>)
    requires Aligned(c, |rows|)
    ensures |r| == |rows|
  {
    var withNeg := WithColumn(rows, ColumnName(Neg), c.neg);
    var withNeu := WithColumn(withNeg, ColumnName(Neu), c.neu);
    var withPos := WithColumn(withNeu, ColumnName(Pos), c.pos);
    WithColumn(withPos, ColumnName(Compound), c.compound)
  }

  /**
   * After the four assignments every song has gained the four score columns,
   * each holding the song's own entry of the matching list, and keeps every
   * other field it had.
   */
  lemma {:induction false} EnrichAddsScores(rows: seq<Row>, c: Columns)
    requires Aligned(c, |rows|)
    ensures forall k :: 0 <= k < |rows| ==>
              Enrich(rows, c)[k].Keys == rows[k].Keys + {ColumnName(Neg), ColumnName(Neu), ColumnName(Pos), ColumnName(Compound)}
    ensures forall k, s: Score :: 0 <= k < |rows| ==>
              ColumnName(s) in Enrich(rows, c)[k] && Enrich(rows, c)[k][ColumnName(s)] == Scalar(Column(c, s)[k])
    ensures forall k, f :: 0 <= k < |rows| && f in rows[k] && !IsScoreColumn(f) ==> Enrich(rows, c)[k][f] == rows[k][f]
  {
  }

  /** One period's pass: its enriched frame, or the lookup that raised. */
  function Batch(p: Period): Result<Table, LookupError> {
    var c :- Flatten(p.songs);
    Ok(Table(Range(|p.songs|), Enrich(p.songs, c)))
  }

  /** A period's key together with the outcome of its pass. */
  datatype Pass = Pass(key: Key, result: Result<Table, LookupError>)

  /** The pass of every period, in corpus order. */
  function Passes(corpus: seq<Period>): seq<Pass> {
    seq(|corpus|, i requires 0 <= i < |corpus| => Pass(corpus[i].key, Batch(corpus[i])))
  }

  /** What the script has done after a prefix of the periods. */
  datatype Trace = Trace(writes: seq<Write>, output: Table, failure: Option<RunError>)

  /**
   * Reference definition of the outer loop, given each period's pass: the
   * writes made so far, the accumulated frame, and the error that stopped
   * the loop, if one did.
   */
  function Loop(passes: seq<Pass>): Trace
    decreases |passes|
  {
    if |passes| == 0 then
      Trace([], EmptyTable, None)
    else
      var before := Loop(passes[..|passes| - 1]);
      var p := passes[|passes| - 1];
      if before.failure.Some? then
        before
      else
        match p.result
        case Err(e) => Trace(before.writes, before.output, Some(RunError(|passes| - 1, e)))
        case Ok(t) => Trace(before.writes + [Write(PeriodPath(p.key), t)], Append(before.output, t), None)
  }

  /** The outer loop over the corpus. */
  function Process(corpus: seq<Period>): Trace {
    Loop(Passes(corpus))
  }

  /** The whole script: the loop, then the aggregate written to `data.csv` if the loop finished. */
  function Script(corpus: seq<Period>): Effects {
    var t := Process(corpus);
    match t.failure
    case None => Effects(t.writes + [Write(AggregatePath, t.output)], Completed)
    case Some(e) => Effects(t.writes, Aborted(e))
  }

  /** The rows of the successful passes, one pass after another. */
  function Stack(passes: seq<Pass>): seq<Row>
    decreases |passes|
  {
    if |passes| == 0 then []
    else
      var last := passes[|passes| - 1].result;
      Stack(passes[..|passes| - 1]) + if last.Ok? then last.value.rows else []
  }

  /** The number of songs in the corpus. */
  function TotalSongs(corpus: seq<Period>): nat
    decreases |corpus|
  {
    if |corpus| == 0 then 0 else TotalSongs(corpus[..|corpus| - 1]) + |corpus[|corpus| - 1].songs|
  }

  /** A period's pass succeeds exactly when each of its songs has all four scores. */
  lemma {:induction false} BatchSucceedsIff(p: Period)
    ensures Batch(p).Ok? <==> forall j :: 0 <= j < |p.songs| ==> HasScores(p.songs[j])
  {
    FlattenSucceedsIff(p.songs);
  }

  /** A successful pass has one row per song. */
  lemma {:induction false} BatchKeepsSongCount(p: Period)
    requires Batch(p).Ok?
    ensures |Batch(p).value.rows| == |p.songs|
  {
  }

  /**
   * A successful pass over a period yields one row per song, in order,
   * indexed 0..n-1.  Each row is the song with the four score columns added,
   * holding the song's own scores unchanged; every other field of the song
   * (title, artist, tags, the sentiment dictionary itself) is untouched.
   */
  lemma {:induction false} BatchEnrichesEverySong(p: Period)
    requires Batch(p).Ok?
    ensures Batch(p).value.index == Range(|p.songs|)
    ensures |Batch(p).value.rows| == |p.songs|
    ensures forall j :: 0 <= j < |p.songs| ==>
              Batch(p).value.rows[j].Keys == p.songs[j].Keys + {ColumnName(Neg), ColumnName(Neu), ColumnName(Pos), ColumnName(Compound)}
    ensures forall j, s: Score :: 0 <= j < |p.songs| ==>
              && HasScores(p.songs[j])
              && ColumnName(s) in Batch(p).value.rows[j]
              && Batch(p).value.rows[j][ColumnName(s)] == Scalar(ScoreOf(p.songs[j], s))
    ensures forall j, f :: 0 <= j < |p.songs| && f in p.songs[j] && !IsScoreColumn(f) ==>
              Batch(p).value.rows[j][f] == p.songs[j][f]
  {
    var c := Flatten(p.songs).value;
    FlattenCopiesScores(p.songs);
    EnrichAddsScores(p.songs, c);
    var rows := Enrich(p.songs, c);
    assert Batch(p).value == Table(Range(|p.songs|), rows);
    forall j, s: Score | 0 <= j < |p.songs|
      ensures HasScores(p.songs[j]) && ColumnName(s) in rows[j] && rows[j][ColumnName(s)] == Scalar(ScoreOf(p.songs[j], s))
    {
      assert |Column(c, s)| == |p.songs| by {
        match s
        case Neg =>
        case Neu =>
        case Pos =>
        case Compound =>
      }
      assert Column(c, s)[j] == ScoreOf(p.songs[j], s);
    }
  }

  /**
   * One more period, after a run of successful ones: a successful pass
   * writes its frame and appends it; a failed one records its error.
   */
  lemma {:induction false} LoopStep(passes: seq<Pass>, i: nat)
    requires i < |passes| && Loop(passes[..i]).failure.None?
    ensures passes[i].result.Ok? ==>
              Loop(passes[..i + 1]) == Trace(Loop(passes[..i]).writes + [Write(PeriodPath(passes[i].key), passes[i].result.value)],
                                             Append(Loop(passes[..i]).output, passes[i].result.value), None)
    ensures passes[i].result.Err? ==>
              Loop(passes[..i + 1]) == Trace(Loop(passes[..i]).writes, Loop(passes[..i]).output, Some(RunError(i, passes[i].result.error)))
  {
    assert passes[..i + 1][..i] == passes[..i];
  }

  /** Once a pass has failed, later periods change nothing. */
  lemma {:induction false} FailureStopsTheLoop(passes: seq<Pass>, n: nat)
    requires n <= |passes|
    requires Loop(passes[..n]).failure.Some?
    ensures Loop(passes) == Loop(passes[..n])
    decreases |passes|
  {
    if n < |passes| {
      var init := passes[..|passes| - 1];
      assert init[..n] == passes[..n];
      FailureStopsTheLoop(init, n);
    } else {
      assert passes[..n] == passes;
    }
  }

  /**
   * When the loop runs to the end, every pass succeeded and the loop has
   * written one file per period, in order: period `i`'s frame to the path
   * built from its key.
   */
  lemma {:induction false} CompletedLoopWritesEveryPeriod(passes: seq<Pass>)
    requires Loop(passes).failure.None?
    ensures |Loop(passes).writes| == |passes|
    ensures forall i :: 0 <= i < |passes| ==>
              && passes[i].result.Ok?
              && Loop(passes).writes[i] == Write(PeriodPath(passes[i].key), passes[i].result.value)
  {
    if |passes| > 0 {
      var init := passes[..|passes| - 1];
      CompletedLoopWritesEveryPeriod(init);
      assert forall i :: 0 <= i < |init| ==> init[i] == passes[i];
    }
  }

  /** The loop runs to the end exactly when every pass succeeds. */
  lemma {:induction false} LoopCompletesIff(passes: seq<Pass>)
    ensures Loop(passes).failure.None? <==> forall i :: 0 <= i < |passes| ==> passes[i].result.Ok?
  {
    if Loop(passes).failure.None? {
      CompletedLoopWritesEveryPeriod(passes);
    } else if |passes| > 0 {
      var init := passes[..|passes| - 1];
      LoopCompletesIff(init);
      assert forall i :: 0 <= i < |init| ==> init[i] == passes[i];
    }
  }

  /** LoopCompletesIff for one pass. */
  lemma {:induction false} CompletedLoopPassSucceeded(passes: seq<Pass>, i: nat)
    requires Loop(passes).failure.None?
    requires i < |passes|
    ensures passes[i].result.Ok?
  {
    LoopCompletesIff(passes);
  }

  /**
   * When a pass fails, the loop stops at the first failed pass, with that
   * pass's error; every earlier pass succeeded, and the writes made are
   * exactly those of the loop over the earlier periods.
   */
  lemma {:induction false} FailedLoopStopsAtFirstFailure(passes: seq<Pass>)
    requires Loop(passes).failure.Some?
    ensures Loop(passes).failure.value.period < |passes|
    ensures passes[Loop(passes).failure.value.period].result == Err(Loop(passes).failure.value.cause)
    ensures forall i :: 0 <= i < Loop(passes).failure.value.period ==> passes[i].result.Ok?
    ensures Loop(passes[..Loop(passes).failure.value.period]).failure.None?
    ensures Loop(passes).writes == Loop(passes[..Loop(passes).failure.value.period]).writes
  {
    var init := passes[..|passes| - 1];
    assert forall i :: 0 <= i < |init| ==> init[i] == passes[i];
    if Loop(init).failure.Some? {
      FailedLoopStopsAtFirstFailure(init);
      var n := Loop(init).failure.value.period;
      assert init[..n] == passes[..n];
    } else {
      LoopCompletesIff(init);
      assert passes[..|passes| - 1] == init;
    }
  }

  /**
   * When the loop runs to the end, the accumulated frame holds the rows of
   * every pass, one pass after another, under a fresh index 0..n-1.
   */
  lemma {:induction false} CompletedLoopStacksRows(passes: seq<Pass>)
    requires Loop(passes).failure.None?
    ensures Loop(passes).output.rows == Stack(passes)
    ensures Loop(passes).output.index == Range(|Stack(passes)|)
  {
    if |passes| > 0 {
      var init := passes[..|passes| - 1];
      CompletedLoopStacksRows(init);
    }
  }

  /**
   * Row `j` of pass `i` sits in the stack right after the rows of the passes
   * before `i`.
   */
  lemma {:induction false} StackPosition(passes: seq<Pass>, i: nat, j: nat)
    requires i < |passes| && passes[i].result.Ok? && j < |passes[i].result.value.rows|
    ensures |Stack(passes[..i])| + j < |Stack(passes)|
    ensures Stack(passes)[|Stack(passes[..i])| + j] == passes[i].result.value.rows[j]
    decreases |passes|
  {
    var init := passes[..|passes| - 1];
    if i < |init| {
      assert init[..i] == passes[..i];
      assert init[i] == passes[i];
      StackPosition(init, i, j);
    } else {
      assert passes[..i] == init;
    }
  }

  /** The passes of a prefix of the corpus are that prefix of its passes. */
  lemma {:induction false} PassesOfPrefix(corpus: seq<Period>, n: nat)
    requires n <= |corpus|
    ensures Passes(corpus[..n]) == Passes(corpus)[..n]
    decreases |corpus|
  {
  }

  /** A prefix of a corpus the loop runs through is run through as well. */
  lemma {:induction false} CompletedPrefix(corpus: seq<Period>, n: nat)
    requires Process(corpus).failure.None?
    requires n <= |corpus|
    ensures Process(corpus[..n]).failure.None?
  {
    PassesOfPrefix(corpus, n);
    if Loop(Passes(corpus)[..n]).failure.Some? {
      FailureStopsTheLoop(Passes(corpus), n);
    }
  }

  /**
   * When the loop runs to the end, the stacked rows number exactly the songs
   * of the corpus: nothing is dropped and nothing is merged.
   */
  lemma {:induction false} StackCountsEverySong(corpus: seq<Period>)
    requires Process(corpus).failure.None?
    ensures |Stack(Passes(corpus))| == TotalSongs(corpus)
  {
    if |corpus| > 0 {
      var init := corpus[..|corpus| - 1];
      var last := |corpus| - 1;
      CompletedPrefix(corpus, last);
      StackCountsEverySong(init);
      PassesOfPrefix(corpus, last);
      LoopCompletesIff(Passes(corpus));
      assert Passes(corpus)[last] == Pass(corpus[last].key, Batch(corpus[last]));
      BatchKeepsSongCount(corpus[last]);
    }
  }

  /**
   * When the loop runs to the end, the accumulated frame has as many rows as
   * the corpus has songs, and its index is a fresh 0..n-1: each period's own
   * index is dropped.
   */
  lemma {:induction false} AggregateShape(corpus: seq<Period>)
    requires Process(corpus).failure.None?
    ensures |Process(corpus).output.rows| == TotalSongs(corpus)
    ensures Process(corpus).output.index == Range(TotalSongs(corpus))
  {
    var passes := Passes(corpus);
    CompletedLoopStacksRows(passes);
    StackCountsEverySong(corpus);
  }

  /**
   * When the loop runs to the end, the accumulated frame is the enriched
   * periods stacked in corpus order: song `j` of period `i` sits at row
   * `TotalSongs(corpus[..i]) + j`, as the enriched copy its period's pass made.
   */
  lemma {:induction false} AggregateRowAt(corpus: seq<Period>, i: nat, j: nat)
    requires Process(corpus).failure.None?
    requires i < |corpus| && j < |corpus[i].songs|
    ensures Batch(corpus[i]).Ok?
    ensures |Batch(corpus[i]).value.rows| == |corpus[i].songs|
    ensures TotalSongs(corpus[..i]) + j < |Process(corpus).output.rows|
    ensures Process(corpus).output.rows[TotalSongs(corpus[..i]) + j] == Batch(corpus[i]).value.rows[j]
  {
    var passes := Passes(corpus);
    var before := TotalSongs(corpus[..i]);
    assert Process(corpus) == Loop(passes);
    assert passes[i].result == Batch(corpus[i]) && Batch(corpus[i]).Ok? by {
      CompletedLoopPassSucceeded(passes, i);
    }
    assert |Batch(corpus[i]).value.rows| == |corpus[i].songs| by {
      BatchKeepsSongCount(corpus[i]);
    }
    assert |Stack(passes[..i])| == before by {
      PrefixStackCounts(corpus, i);
    }
    CompletedLoopRowAt(passes, i, j);
  }

  /**
   * When the loop runs to the end, row `j` of pass `i` sits in its frame
   * right after the rows of the passes before `i`.
   */
  lemma {:induction false} CompletedLoopRowAt(passes: seq<Pass>, i: nat, j: nat)
    requires Loop(passes).failure.None?
    requires i < |passes| && passes[i].result.Ok? && j < |passes[i].result.value.rows|
    ensures |Stack(passes[..i])| + j < |Loop(passes).output.rows|
    ensures Loop(passes).output.rows[|Stack(passes[..i])| + j] == passes[i].result.value.rows[j]
  {
    CompletedLoopStacksRows(passes);
    StackPosition(passes, i, j);
  }

  /** The rows stacked before period `i` are the songs of the periods before it. */
  lemma {:induction false} PrefixStackCounts(corpus: seq<Period>, i: nat)
    requires Process(corpus).failure.None?
    requires i <= |corpus|
    ensures |Stack(Passes(corpus)[..i])| == TotalSongs(corpus[..i])
  {
    CompletedPrefix(corpus, i);
    PassesOfPrefix(corpus, i);
    StackCountsEverySong(corpus[..i]);
  }

  /**
   * The whole script runs to the end exactly when every song of every period
   * has all four scores; a single song without one stops it.
   */
  lemma {:induction false} ScriptCompletesIff(corpus: seq<Period>)
    ensures Script(corpus).outcome.Completed? <==>
              forall i, j :: 0 <= i < |corpus| && 0 <= j < |corpus[i].songs| ==> HasScores(corpus[i].songs[j])
  {
    LoopCompletesIff(Passes(corpus));
    assert forall k :: 0 <= k < |corpus| ==> Passes(corpus)[k] == Pass(corpus[k].key, Batch(corpus[k]));
    forall i | 0 <= i < |corpus| {
      BatchSucceedsIff(corpus[i]);
    }
  }

  /**
   * A completed script writes one file per period, in corpus order, and
   * then, last, the aggregate of all the songs to `data.csv`.
   */
  lemma {:induction false} CompletedScriptLog(corpus: seq<Period>)
    requires Script(corpus).outcome.Completed?
    ensures |Script(corpus).log| == |corpus| + 1
    ensures forall i :: 0 <= i < |corpus| ==>
              Batch(corpus[i]).Ok? && Script(corpus).log[i] == Write(PeriodPath(corpus[i].key), Batch(corpus[i]).value)
    ensures Script(corpus).log[|corpus|] == Write(AggregatePath, Process(corpus).output)
    ensures |Process(corpus).output.rows| == TotalSongs(corpus)
  {
    CompletedLoopWritesEveryPeriod(Passes(corpus));
    assert forall k :: 0 <= k < |corpus| ==> Passes(corpus)[k] == Pass(corpus[k].key, Batch(corpus[k]));
    AggregateShape(corpus);
  }

  /**
   * A script stopped by a lookup has written exactly the files of the
   * periods before the one that failed, in order, and no `data.csv`.
   */
  lemma {:induction false} AbortedScriptLog(corpus: seq<Period>)
    requires Script(corpus).outcome.Aborted?
    ensures Script(corpus).outcome.error.period < |corpus|
    ensures Batch(corpus[Script(corpus).outcome.error.period]) == Err(Script(corpus).outcome.error.cause)
    ensures |Script(corpus).log| == Script(corpus).outcome.error.period
    ensures forall i :: 0 <= i < |Script(corpus).log| ==>
              Batch(corpus[i]).Ok? && Script(corpus).log[i] == Write(PeriodPath(corpus[i].key), Batch(corpus[i]).value)
    ensures forall w :: w in Script(corpus).log ==> w.path != AggregatePath
  {
    var passes := Passes(corpus);
    assert Process(corpus) == Loop(passes);
    assert forall k :: 0 <= k < |corpus| ==> passes[k] == Pass(corpus[k].key, Batch(corpus[k]));
    FailedLoopStopsAtFirstFailure(passes);
    var n := Loop(passes).failure.value.period;
    CompletedLoopWritesEveryPeriod(passes[..n]);
    var log := Script(corpus).log;
    forall w | w in log ensures w.path != AggregatePath {
      var i :| 0 <= i < |log| && log[i] == w;
      PeriodPathIsNotAggregate(corpus[i].key);
    }
  }

  /**
   * When the periods' keys are distinct years, a completed script writes
   * every file once: no period's file overwrites another's or the aggregate.
   */
  lemma {:induction false} CompletedScriptWritesDistinctFiles(corpus: seq<Period>)
    requires Script(corpus).outcome.Completed?
    requires forall i :: 0 <= i < |corpus| ==> corpus[i].key.Year?
    requires forall i, k :: 0 <= i < k < |corpus| ==> corpus[i].key != corpus[k].key
    ensures forall a, b :: 0 <= a < b < |Script(corpus).log| ==> Script(corpus).log[a].path != Script(corpus).log[b].path
  {
    CompletedScriptLog(corpus);
    var log := Script(corpus).log;
    forall a, b | 0 <= a < b < |log| ensures log[a].path != log[b].path {
      if b < |corpus| {
        YearPathsDistinct(corpus[a].key.n, corpus[b].key.n);
      } else {
        PeriodPathIsNotAggregate(corpus[a].key);
      }
    }
  }

  /**
   * The script itself: one pass per period in corpus order, each writing its
   * frame and appending it to the accumulator, then the accumulator written
   * to `data.csv`.  The first lookup that raises ends the script on the spot.
   */
  method RunScript(corpus: seq<Period>) returns (effects: Effects)
    ensures effects == Script(corpus)
  {
    ghost var passes := Passes(corpus);
    var output := EmptyTable;
    var log: seq<Write> := [];
    for i := 0 to |corpus|
      invariant Loop(passes[..i]) == Trace(log, output, None)
    {
      assert passes[i] == Pass(corpus[i].key, Batch(corpus[i]));
      LoopStep(passes, i);
      var decade := new Frame.FromRecords(corpus[i].songs);
      var scores := FillScores(decade.rows);
      if scores.Err? {
        FailureStopsTheLoop(passes, i + 1);
        return Effects(log, Aborted(RunError(i, scores.error)));
      }
      var c := scores.value;
      decade.AssignColumn(ColumnName(Neg), c.neg);
      decade.AssignColumn(ColumnName(Neu), c.neu);
      decade.AssignColumn(ColumnName(Pos), c.pos);
      decade.AssignColumn(ColumnName(Compound), c.compound);
      assert Batch(corpus[i]) == Ok(decade.Snapshot());
      var path := PeriodPath(corpus[i].key);
      log := log + [Write(path, decade.Snapshot())];
      output := Append(output, decade.Snapshot());
    }
    assert passes[..|corpus|] == passes;
    log := log + [Write(AggregatePath, output)];
    effects := Effects(log, Completed);
  }
}
