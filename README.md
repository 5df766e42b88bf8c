# musictrends: the sentiment aggregation script

This project models `data/aggregate.py` of the musictrends repository and proves
properties of the model. The script prepares the data behind the dashboards. It reads a
corpus of periods, each one a year key with an ordered list of song records. Then, for each
period in corpus order, it:

1. builds a frame of the period's songs (`decade`);
2. runs the fill loop. Four lists `neg`, `neu`, `pos` and `compound` start as `None` and are
   filled by index from each song's nested `sentiment` dictionary;
3. assigns the four lists to the frame as the columns `sentiment_neg`, `sentiment_neu`,
   `sentiment_pos` and `sentiment_compound`;
4. writes the frame to `year/<str(key)>.csv`;
5. appends the frame to a corpus-wide frame with `ignore_index = True`.

Once the loop ends, it writes the corpus-wide frame to `data.csv`.

The model follows the script's own shape:

- `Sentiment.FillScores` is the fill loop over four arrays.
- `Frames.Frame` is the `decade` frame that the four column assignments change in place.
- `Aggregate.RunScript` is the outer loop. It keeps the write log and the accumulated frame as
  local state.

Each imperative member is proved equal to a reference function:

- `Sentiment.Flatten` is the reference for the fill loop;
- `Aggregate.Batch` is the reference for one period;
- `Aggregate.Loop`, `Aggregate.Process` and `Aggregate.Script` are the references for the
  whole run.

The lemmas state what those functions promise.

Modules:

- `Wrappers`: `Option` and `Result`.
- `Frames`: the part of pandas the script uses. A row is a map from column name to cell; a
  missing key is pandas' NaN. A table is an index plus its rows. The module also has
  `append(..., ignore_index = True)`, column assignment, and the mutable `Frame` class.
- `Sentiment`: the fill loop, its reference definition, and what it copies or reports.
- `Paths`: `str` of a key, the period path `year/<key>.csv`, and the aggregate path `data.csv`.
- `Aggregate`: one period's pass, the outer loop, and the script with its write log.

The code has no `try`/`except`. A song whose sentiment dictionary is missing, or lacks one of
the four keys, makes its lookup (`.sentiment` or `['<key>']`) raise, and the first lookup that
fails ends the script:

- files already written for earlier periods stay on disk;
- the current period's file is not written;
- `data.csv` is never written.

The model shows this as `Outcome.Aborted` together with the writes made before the failure
(`Aggregate.AbortedScriptLog`).

## Model

| member | source | states |
|---|---|---|
| Frames.Range | data/aggregate.py:8 | the default index of a new frame has one entry per row and entry `k` is `k` |
| Frames.Append | data/aggregate.py:30 | `append(..., ignore_index = True)` keeps the first frame's rows, then the second's, unchanged and in order. The result has as many rows as both together, and its index is the fresh 0..n-1 |
| Frames.WithColumnSetsCells | data/aggregate.py:22-25 | a column assignment sets cell `name` of row `k` to the `k`-th list value. It adds exactly that key to each row and leaves every other cell alone |
| Frames.Frame.FromRecords | data/aggregate.py:8 | `pd.DataFrame(songs)` holds the songs in order, under the index 0..n-1 |
| Frames.Frame.AssignColumn | data/aggregate.py:22-25 | assigning a column changes the frame's rows in place to `WithColumn` of the old rows, and keeps the index |
| Sentiment.ColumnNameIsPrefixedKey | data/aggregate.py:17-25 | the column each score is copied into is `sentiment_` followed by the dictionary key it is read from |
| Sentiment.ExtractRowCopiesOrReports | data/aggregate.py:17-20 | one song's four lookups succeed exactly when its sentiment dictionary holds all four keys, and then copy the values unchanged. Otherwise the error says which is wrong: there is no dictionary to subscript, or the first missing key in lookup order |
| Sentiment.Flatten | data/aggregate.py:9-20 | when the fill loop succeeds, each of the four lists has one entry per song |
| Sentiment.FlattenCopiesScores | data/aggregate.py:16-20 | when the fill loop succeeds, entry `j` of the list for each score is exactly song `j`'s value under that key, and every song has all four keys |
| Sentiment.FlattenOfCompleteSongs | data/aggregate.py:16-20 | if every song has all four keys, the fill loop succeeds |
| Sentiment.FlattenSucceedsIff | data/aggregate.py:16-20 | the fill loop succeeds if and only if every song has all four keys |
| Sentiment.FlattenFailsAtFirstFault | data/aggregate.py:16-20 | a failed fill loop reports the first song without all four keys. Every earlier song has them, and the error is the one that song's lookups raise |
| Sentiment.FlattenReportsFirstFault | data/aggregate.py:16-20 | if the songs before `j` have all their keys and song `j` does not, the fill loop fails with song `j`'s error, whatever follows |
| Sentiment.FillScores | data/aggregate.py:9-20 | the four arrays start as `None` and are filled by index. The loop invariant says the first `j` slots hold the values read so far and the remaining slots are still `None`. The result equals the reference `Flatten`: the four lists, or the first failed lookup |
| Paths.DigitsRoundTrip | data/aggregate.py:27 | the decimal digits of a natural number read back as that number |
| Paths.IntTextRoundTrip | data/aggregate.py:27 | `str` of an integer, with its minus sign, reads back as that integer |
| Paths.PeriodPathRoundTrip | data/aggregate.py:27 | a period path starts with `year/` and ends with `.csv`, and exactly `str(key)` lies between them |
| Paths.YearPathsDistinct | data/aggregate.py:27-28 | two different years get two different file paths |
| Paths.PeriodPathIsNotAggregate | data/aggregate.py:27-32 | no period path is `data.csv` |
| Aggregate.EnrichAddsScores | data/aggregate.py:22-25 | after the four assignments, each song has gained exactly the four `sentiment_*` columns, each holding the song's entry of the matching list. Every other field of every song is unchanged, and the song order is kept |
| Aggregate.BatchSucceedsIff | data/aggregate.py:8-25 | a period's pass succeeds if and only if every one of its songs has all four sentiment keys |
| Aggregate.BatchKeepsSongCount | data/aggregate.py:8-25 | a successful pass has one row per song |
| Aggregate.BatchEnrichesEverySong | data/aggregate.py:8-25 | a successful pass has index 0..n-1 and one row per song, in order. Column `sentiment_<key>` of each row is the song's own score under `<key>`, unchanged. The row has no other new column, and every original field is untouched |
| Aggregate.LoopStep | data/aggregate.py:7-30 | after a run of successful periods, the next one either adds its write and appends its frame, or records its error and the period it occurred in |
| Aggregate.FailureStopsTheLoop | data/aggregate.py:7-30 | once a period has failed, later periods change nothing |
| Aggregate.CompletedLoopWritesEveryPeriod | data/aggregate.py:27-28 | a loop that runs to the end wrote one file per period, in order: period `i`'s enriched frame to `year/<key>.csv` |
| Aggregate.LoopCompletesIff | data/aggregate.py:7-30 | the loop runs to the end if and only if every period's pass succeeds |
| Aggregate.CompletedLoopPassSucceeded | data/aggregate.py:7-30 | in a loop that ran to the end, each pass succeeded |
| Aggregate.FailedLoopStopsAtFirstFailure | data/aggregate.py:7-30 | a failed loop stops at the first failed pass, with that pass's error. Every earlier pass succeeded, and the writes are exactly those of the earlier periods |
| Aggregate.CompletedLoopStacksRows | data/aggregate.py:30 | the accumulated frame is the rows of every pass, one pass after another, with no row dropped or merged, under the fresh index 0..n-1 |
| Aggregate.StackPosition | data/aggregate.py:30 | row `j` of pass `i` sits in the stack right after the rows of the passes before `i` |
| Aggregate.CompletedLoopRowAt | data/aggregate.py:30 | in a completed loop, row `j` of pass `i` sits in the accumulated frame at position (rows of the earlier passes) + `j` |
| Aggregate.StackCountsEverySong | data/aggregate.py:30 | when the loop runs to the end, the stacked rows number exactly the songs of the corpus |
| Aggregate.AggregateShape | data/aggregate.py:7-30 | the frame written to `data.csv` has one row per song of the corpus and the index 0..n-1. The periods' own indices are dropped |
| Aggregate.AggregateRowAt | data/aggregate.py:7-30 | in the frame written to `data.csv`, song `j` of period `i` sits at row (songs of the periods before `i`) + `j`, as the enriched row its period's pass made |
| Aggregate.ScriptCompletesIff | data/aggregate.py:7-32 | the script reaches its last line if and only if every song of every period has all four sentiment keys |
| Aggregate.CompletedScriptLog | data/aggregate.py:7-32 | a completed script writes one file per period, in corpus order, each holding that period's enriched frame. It then writes the aggregate to `data.csv` last, with one row per song |
| Aggregate.AbortedScriptLog | data/aggregate.py:7-32 | a stopped script names a period whose pass raised that error. Exactly the files of the earlier periods were written, in order, and none of them is `data.csv` |
| Aggregate.CompletedScriptWritesDistinctFiles | data/aggregate.py:27-32 | with distinct year keys, a completed script never writes the same path twice |
| Aggregate.RunScript | data/aggregate.py:5-32 | the imperative script (frame, fill loop, four column assignments, path, write, append, final write) has exactly the effects of the reference `Script`: the same writes in the same order and the same outcome |

## Left out

- `app.py` is not part of this model. It is the Dash dashboard: layout, a callback and chart
  construction. That includes its `groupby(...).mean()`, which is floating-point averaging
  inside pandas.
- `pd.read_json('data.json')` (line 3) is not modelled as file reading. The corpus is
  `RunScript`'s parameter, already parsed into periods of song records.
- `to_csv` (lines 28 and 32) is modelled as an entry in a write log: the path and the table
  written. CSV serialisation, column order in the file, and the file system itself are not
  modelled. A write that fails is not modelled.
- Cell values (titles, tags, sentiment scores) are an abstract type. The script only copies
  them, so no floating-point behaviour is modelled.
- Column order within a frame is not modelled. A row is a map from column name to cell, so
  the model does not show that the four new columns come last, in assignment order.
- `str(key)` is modelled for integer years and for text labels. A key that pandas reads as a
  float, and would print as `1970.0`, is not modelled.
- `DataFrame.append` is modelled as `append(..., ignore_index = True)` on rows. Its column
  alignment is captured by rows being maps: a column missing from a row stays missing, which
  pandas shows as NaN. Its dtype changes are not modelled.
- `data/aggregate.py` does no genre resolution and no audio-feature lookup; neither is part of
  this model.
