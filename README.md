# Mood of the Queue — a Dafny model of the mood table

Mood of the Queue is a one-page dashboard on which people log a mood and an
optional note. Each entry is appended, with the current time, to a shared
spreadsheet whose first row is the header `timestamp, mood, note`. On every
render the page reads the whole sheet back and draws two charts: the mood
counts for today, and the counts per (date, mood) over the whole history.

This project models the program's own handling of that table, all of it in
`app.py`:

- **Header check and reset** (`setup_google_sheet`). The worksheet is a class
  `MoodQueue.Sheet` whose `rows` field holds the cell values, with `Clear` and
  `AppendRow`. `SetupGoogleSheet` keeps a table that starts with the header.
  Any other table, empty or not, is cleared and left holding only the header.
  The pure function `Initialised` gives the table it leaves.
- **Record append** (`add_record`). `AddRecord` returns false and leaves
  everything alone when there is no sheet. Otherwise it appends exactly one
  row: the time in `%Y-%m-%d %H:%M:%S` format, the mood, and the note.
- **Record read** (`get_data`). `GetData` / `ReadTable` turn the values into a
  frame. There are three cases:
  - no sheet: no columns and no rows;
  - an empty or header-only table: the three declared columns and no rows;
  - otherwise: one entry per row after the first, in stored order. Each entry
    has a parsed timestamp and a date derived from it. A wrong header sets a
    warning flag and drops nothing.
- **Aggregation.** `TodayCounts` models `value_counts` on the mood column of
  the rows dated today. `DailyCounts` models `groupby(['date','mood']).size()`.
  Both are built on one generic tally in module `Counting`.
- **Timestamps** (module `Timestamps`). `FormatTimestamp` is the strftime
  format the program writes. `ParseTimestamp` is the strict reading of that
  format back into a date-time. The two are proved inverse in both directions.
  The date of a parsed entry is therefore exactly the first ten characters of
  its timestamp cell.

`SubmitAndRead` composes one page render: setup, the Submit handler, then the
read. Its contract includes the end-to-end round trip, when the set-up table's
data rows all read: the last entry read back is the mood and note just logged,
at the time they were logged. A stored data row whose timestamp cell pandas
cannot parse makes the read fail, in the model as in the program; the model
also rejects some rows the program reads (see the `ParseTimestamp` and
`ParseRow` lines under "## Left out").

The current time (`datetime.now()`) and today's date are explicit parameters
(`now`, `today`). A null `Sheet?` stands for the one case where
`setup_google_sheet` returns no sheet (`app.py:26-28`): there is no local
credentials file and the deployment secret decodes to a falsy value (`{}`,
`[]`, `""`, `0`, `false` or `null`).

With no sheet, `get_data` returns a frame with no columns at all
(`app.py:60-61`). Only an empty or header-only table gets the three declared
columns (`app.py:64-65`). `NoSheetFrame` and `EmptyFrame` keep the two apart.

Files: `wrappers.dfy` (Option, Result, and `ReadAll`, which reads a sequence item by item), `timestamps.dfy`, `counting.dfy`,
`mood_queue.dfy`.

## Model

| member | source | states |
|---|---|---|
| `MoodQueue.Sheet.GetAllValues` | app.py:40 | returns the worksheet's rows as they are |
| `MoodQueue.Sheet.Clear` | app.py:43 | the worksheet holds no rows afterwards |
| `MoodQueue.Sheet.AppendRow` | app.py:44 | the rows become the old rows followed by the given row |
| `MoodQueue.Initialised` | app.py:42-44 | the table after the header check always starts with the header; it is either the table unchanged or the header alone, and unchanged exactly when the table was non-empty and already started with the header |
| `MoodQueue.InitialisedIdempotent` | app.py:42-47 | running the header check twice gives the same table as running it once |
| `MoodQueue.SetupGoogleSheet` | app.py:40-47 | returns the handle it was given (null when none could be obtained); the worksheet's rows become `Initialised` of the old rows: reset to the header alone when empty or misheaded, untouched otherwise |
| `MoodQueue.AddRecord` | app.py:49-57 | returns true exactly when there is a sheet; with a sheet, the rows become the old rows plus the single row [formatted now, mood, note]; with none, nothing is touched |
| `MoodQueue.RecordRow` | app.py:53-54 | the appended row has three cells: a 19-character timestamp whose first ten characters are the date of the time, then the mood, then the note |
| `Timestamps.FormatTimestamp` | app.py:53 | the timestamp text is 19 characters with the separators of `YYYY-MM-DD HH:MM:SS`, and its first ten characters are the formatted date |
| `Timestamps.ParseTimestamp` | app.py:74 | a timestamp it reads is always a valid date-time (a real calendar date, hour below 24, minute and second below 60) |
| `Timestamps.ParseFormatTimestamp` | app.py:53 | for every valid date-time, reading back the text the program writes gives the same date-time |
| `Timestamps.FormatParseTimestamp` | app.py:74 | text the timestamp reader accepts is exactly the formatting of the date-time it reads, so a read date-time determines its cell |
| `Timestamps.ParseDigitsOfDigits` | app.py:53 | a zero-padded field read back gives its number whenever the number fits the width |
| `Timestamps.DigitsOfParseDigits` | app.py:74 | a digit field is the zero-padded rendering of its value at its own width, and the value fits that width |
| `MoodQueue.RecordRowParses` | app.py:53-54 | the row add_record writes reads back as the entry with that time, mood, note and the time's date |
| `MoodQueue.ParseRow` | app.py:73-75 | a row reads exactly when it has three cells and its first is a timestamp; the entry has the row's mood and note, the time read from the first cell, and the date of that time |
| `MoodQueue.ParseRowFaithful` | app.py:73-75 | a read entry has its row's three cells: the timestamp cell is the formatting of its parsed time, the mood and note are the cells, its date is the date of its parsed time (a valid date), and that date formats as the first ten characters of the timestamp cell |
| `Wrappers.ReadAll` | app.py:72-74 | reading items one by one gives one result per item, result i read from item i, or the index of the first item that does not read, all before it reading |
| `Wrappers.ReadAllAppend` | app.py:72-73 | one more item that reads adds exactly its result at the end |
| `MoodQueue.ParseRows` | app.py:72-74 | a successful read has one entry per data row, entry i read from row i; a failed read names the first row that does not read |
| `MoodQueue.ParseRowsAppend` | app.py:72-73 | reading one more well-formed row gives the same entries followed by that row's entry |
| `MoodQueue.ReadTable` | app.py:63-77 | an empty or header-only table reads as the three declared columns and no rows; otherwise the read succeeds exactly when every row after the first is well-formed, giving the four frame columns, exactly one entry per data row in order, and the warning flag exactly when the first row is not the header; a failure names the first malformed data row |
| `MoodQueue.GetData` | app.py:59-65 | with no sheet the frame has no columns and no rows; with a sheet it is the read of the sheet's current rows |
| `MoodQueue.ReadTableEntries` | app.py:72-75 | each entry read carries the timestamp, mood and note cells of its row, and its derived date is the date of its parsed timestamp, a valid date that formats as the date portion of that row's timestamp cell |
| `MoodQueue.ReadTableIgnoresHeader` | app.py:67-72 | whatever the first row is, the same entries are read; the header only decides the warning |
| `MoodQueue.AppendThenRead` | app.py:54 | appending a record to a readable table reads back as the old entries followed by the new entry |
| `MoodQueue.SetupAddReadRoundTrip` | app.py:42-73 | when the set-up table's data rows all read: after setup and one add_record, the read succeeds without a warning, has one entry per stored data row, and its last entry is the logged mood and note at the logging time; after a reset it is the only entry |
| `MoodQueue.RowsOn` | app.py:114 | the rows kept for a day are exactly the entries dated that day, each as often as it occurs |
| `MoodQueue.RowsOnAll` | app.py:114 | when every entry is dated the day, the filter keeps all of them in order |
| `MoodQueue.MoodsOfToday` | app.py:119 | the number of times a mood occurs among a day's rows is the number of entries with that date and mood |
| `MoodQueue.DayMoodsCount` | app.py:148 | the number of times a (date, mood) key occurs is the number of entries with that date and mood |
| `Counting.Tally` | app.py:119 | a tally has no more buckets than keys counted, and at least one when there is any key |
| `Counting.TallyKeys` | app.py:119 | a tally has exactly one bucket per distinct key of its input |
| `Counting.TallyCounts` | app.py:148 | each bucket of a tally holds the number of occurrences of its key, which is never zero |
| `Counting.TallyTotal` | app.py:148 | the counts of a tally add up to the number of keys counted |
| `MoodQueue.TodayCounts` | app.py:113-119 | today's counts have no more buckets than there are entries dated today, and at least one when there is any; the full characterisation is `TodayCountsCorrect` |
| `MoodQueue.DailyCounts` | app.py:148 | the history counts have no more buckets than entries, and at least one when there is any entry; the full characterisation is `DailyCountsCorrect` |
| `MoodQueue.TodayCountsCorrect` | app.py:113-120 | today's counts have one bucket per distinct mood among the entries dated today, each holds the number of today's entries with that mood, and they add up to the number of today's entries |
| `MoodQueue.DailyCountsCorrect` | app.py:148 | the history counts have one bucket per distinct (date, mood) pair among the entries, each holds the number of entries with that date and mood, and they add up to the number of entries |
| `MoodQueue.TodayCountsExample` | app.py:113-120 | three entries dated today with moods Happy, Happy, Angry give the counts Happy 2 and Angry 1 |
| `MoodQueue.SubmitAndRead` | app.py:79-102 | one render: logs exactly when Submit was pressed and a sheet exists; the rows become the set-up rows plus the record if one was logged; the frame is the read of the new rows (no columns when there is no sheet); when the set-up table was readable, the last entry is the logged mood and note |

## Left out

- Credential loading and connection (`app.py:20-37`): the local credentials file, the deployment secret, `ServiceAccountCredentials`, `gspread.authorize` and `open_by_key` are external services. The model takes the resulting worksheet handle, or null when none was obtained.
- Credential and connection failures other than the falsy secret: a missing `GOOGLE_CREDENTIALS` secret or one that is not valid JSON (`app.py:25`), and a failing `gspread.authorize` or `open_by_key` (`app.py:34-37`), raise unhandled and stop the page. The model has no such outcome; only the falsy-secret return (`app.py:26-28`) is modelled, as a null handle.
- Network failures of the spreadsheet calls: the program does not handle them, so nothing is modelled.
- All Streamlit output: page layout, selector, text area, buttons, `st.rerun`, and the success, warning, info and error messages. The header warning is kept only as the frame's `unexpectedHeader` flag.
- The two Plotly charts and their colour map (`app.py:122-142`, `app.py:150-170`). The model stops at the counts the charts draw.
- `datetime.now()` and `datetime.now().date()`: these are the parameters `now` and `today`. Sub-second precision is not modelled, because `%S` drops it.
- `FormatTimestamp`: zero-pads the year to four digits. For years below 1000, strftime's `%Y` padding depends on the platform. `datetime.now()` never gives such a year.
- `ParseTimestamp`: accepts only the 19-character format the program itself writes. `pandas.to_datetime` accepts many more textual forms. Such cells, typed into the sheet by hand, read as malformed in the model. In the other direction, the model reads any year from 1 to 9999. pandas' default nanosecond timestamps only span 1677-09-21 to 2262-04-11, so `to_datetime` rejects a hand-typed "1500-01-01 00:00:00" and `get_data` aborts, where the model reads the row. An empty timestamp cell becomes a missing value (NaT) in pandas; the read succeeds and that row is left out of both counts, while the model rejects the whole table.
- `ParseRow`: a row with other than three cells is malformed in the model. pandas raises for longer rows and pads shorter ones with missing values, so the program reads a table with shorter rows (a missing timestamp becomes NaT and that row drops out of both counts), while the model rejects the table.
- `ReadTable`: a malformed row aborts the read, as an `Err` naming the first such row. The exception pandas raises, and its message, are not modelled.
- `TodayCountsCorrect`, `DailyCountsCorrect`: the order of the buckets is not stated. The model keeps first-occurrence order. pandas sorts `value_counts` by count and `groupby` by key. Only the chart layout depends on that order.
- The `df.empty` and `today_df.empty` guards (`app.py:110`, `app.py:116`, `app.py:144`) only choose which message to show. The tallies of an empty selection are empty anyway. The guard at `app.py:110` and `app.py:144` also keeps `df['date']` from being evaluated on the frame with no columns and on the three-column frame, where it would raise a `KeyError`; the model's counts are defined on every frame, so it has no such failure to avoid.
- The closed mood list (`app.py:89`) is the constant `Moods`. Only the selector enforces it, not `add_record`, so `AddRecord` takes any text.
- The assignment `note = ""` after a successful submit (`app.py:98`) has no effect.
- Concurrent appends by several users: the spreadsheet service orders them, and the program adds no coordination.
