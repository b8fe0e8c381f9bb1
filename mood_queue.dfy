/**
 * The data handling of the Mood of the Queue dashboard (app.py): the mood
 * table kept in a spreadsheet, its header check and reset, the append of one
 * logged mood, the read of the table back into entries with a derived date,
 * and the two counts the charts draw.
 */
module MoodQueue {
  import opened Wrappers
  import opened Timestamps
  import opened Counting

  /** The header row the mood table must start with. */
  const Header: seq<string> := ["timestamp", "mood", "note"]

  /** The columns of a frame read from a table with data rows: the header's three plus the derived date. */
  const FrameColumns: seq<string> := Header + ["date"]

  /**
   * The moods the selector offers. Only the selector restricts the mood to
   * these; AddRecord stores whatever text it is given.
   */
  const Moods: seq<string> := ["😊 Happy", "😠 Angry", "😕 Confused", "🎉 Excited"]

  /**
   * The worksheet: its cell values, row by row, as the spreadsheet service
   * returns them from `get_all_values`.
   */
  class Sheet {
    var rows: seq<seq<string>>

    constructor (values: seq<seq<string>>)
      ensures rows == values
    {
      rows := values;
    }

    method GetAllValues() returns (values: seq<seq<string>>)
      ensures values == rows
    {
      values := rows;
    }

    method Clear()
      modifies this
      ensures rows == []
    {
      rows := [];
    }

    method AppendRow(row: seq<string>)
      modifies this
      ensures rows == old(rows) + [row]
    {
      rows := rows + [row];
    }
  }

  // ---------------------------------------------------------------------------
  // Header check and reset (setup_google_sheet)

  /**
   * The table as the header check leaves it: kept as it is when it starts with
   * the header, otherwise discarded and replaced by the header alone.
   */
  function Initialised(values: seq<seq<string>>): (r: seq<seq<string>>)
    ensures |r| >= 1 && r[0] == Header
    ensures r == values || r == [Header]
    ensures r == values <==> values != [] && values[0] == Header
  {
    if values == [] || values[0] != Header then [Header] else values
  }

  /** Running the header check twice leaves the same table as running it once. */
  lemma InitialisedIdempotent(values: seq<seq<string>>)
    ensures Initialised(Initialised(values)) == Initialised(values)
  {
  }

  /**
   * `setup_google_sheet` once a worksheet handle is in hand: a null handle
   * stands for the one early return, when there is no local credentials file
   * and the deployment secret decodes to a falsy value, and is passed through.
   */
  method SetupGoogleSheet(handle: Sheet?) returns (sheet: Sheet?)
    modifies handle
    ensures sheet == handle
    ensures handle != null ==> handle.rows == Initialised(old(handle.rows))
  {
    if handle == null {
      return null;
    }
    var values := handle.GetAllValues();
    if values == [] || values[0] != Header {
      handle.Clear();
      handle.AppendRow(Header);
    }
    return handle;
  }

  // ---------------------------------------------------------------------------
  // Record append (add_record)

  /** The row add_record writes: the formatted current time, the mood, the note. */
  function RecordRow(now: DateTime, mood: string, note: string): (row: seq<string>)
    ensures |row| == 3 && row[1] == mood && row[2] == note
    ensures |row[0]| == 19 && row[0][..10] == FormatDate(now.date)
  {
    [FormatTimestamp(now), mood, note]
  }

  /** Appends one logged mood; refuses, changing nothing, when there is no sheet. */
  method AddRecord(sheet: Sheet?, mood: string, note: string, now: DateTime) returns (ok: bool)
    modifies sheet
    ensures ok <==> sheet != null
    ensures sheet != null ==> sheet.rows == old(sheet.rows) + [RecordRow(now, mood, note)]
  {
    if sheet == null {
      return false;
    }
    var timestamp := FormatTimestamp(now);
    sheet.AppendRow([timestamp, mood, note]);
    return true;
  }

  // ---------------------------------------------------------------------------
  // Record read (get_data)

  /** One data row read back: the parsed time, the mood, the note and the date part of the time. */
  datatype MoodEntry = MoodEntry(timestamp: DateTime, mood: string, note: string, date: Date)

  /** The frame get_data returns, and whether the header it saw was not the expected one (the warning). */
  datatype Frame = Frame(columns: seq<string>, entries: seq<MoodEntry>, unexpectedHeader: bool)

  /** The read fails on the first row, counted from the header at 0, that is not a well-formed record. */
  datatype ReadError = MalformedRow(index: nat)

  /** The frame of a missing sheet: no columns and no rows. */
  const NoSheetFrame := Frame([], [], false)

  /** The frame of an empty or header-only table: the three declared columns and no rows. */
  const EmptyFrame := Frame(Header, [], false)

  /** Reads one data row; `None` unless it has three cells and its first is a timestamp. */
  function ParseRow(row: seq<string>): (r: Option<MoodEntry>)
    ensures r.Some? <==> |row| == 3 && ParseTimestamp(row[0]).Some?
    ensures r.Some? ==> r.value.mood == row[1] && r.value.note == row[2]
    ensures r.Some? ==> ParseTimestamp(row[0]) == Some(r.value.timestamp) && r.value.date == r.value.timestamp.date
  {
    if |row| != 3 then None
    else match ParseTimestamp(row[0])
      case None => None
      case Some(t) => Some(MoodEntry(t, row[1], row[2], t.date))
  }

  /** A read entry carries its row's three cells, and its date is the first ten characters of its timestamp cell. */
  lemma ParseRowFaithful(row: seq<string>, e: MoodEntry)
    requires ParseRow(row) == Some(e)
    ensures |row| == 3 && ValidDateTime(e.timestamp)
    ensures FormatTimestamp(e.timestamp) == row[0] && e.mood == row[1] && e.note == row[2]
    ensures e.date == e.timestamp.date && ValidDate(e.date)
    ensures FormatDate(e.date) == row[0][..10]
  {
    FormatParseTimestamp(row[0], e.timestamp);
  }

  /** The row add_record writes reads back as the entry for that time, mood and note. */
  lemma RecordRowParses(now: DateTime, mood: string, note: string)
    requires ValidDateTime(now)
    ensures ParseRow(RecordRow(now, mood, note)) == Some(MoodEntry(now, mood, note, now.date))
  {
    ParseFormatTimestamp(now);
  }

  /** Reads the data rows in order; fails with the index of the first row that does not read. */
  function ParseRows(rows: seq<seq<string>>): (r: Result<seq<MoodEntry>, nat>)
    ensures r.Ok? ==> |r.value| == |rows| && forall i :: 0 <= i < |rows| ==> ParseRow(rows[i]) == Some(r.value[i])
    ensures r.Err? ==> r.error < |rows| && ParseRow(rows[r.error]).None?
    ensures r.Err? ==> forall j :: 0 <= j < r.error ==> ParseRow(rows[j]).Some?
  {
    ReadAll(rows, ParseRow)
  }

  /** Reading one more well-formed row gives one more entry at the end. */
  lemma ParseRowsAppend(rows: seq<seq<string>>, row: seq<string>, es: seq<MoodEntry>, e: MoodEntry)
    requires ParseRows(rows) == Ok(es) && ParseRow(row) == Some(e)
    ensures ParseRows(rows + [row]) == Ok(es + [e])
  {
    ReadAllAppend(rows, row, ParseRow, es, e);
  }

  /**
   * `get_data` after the values are fetched: nothing for an empty or
   * header-only table; otherwise every row after the first, in order, whatever
   * the first row is (a wrong header is only reported).
   */
  function ReadTable(values: seq<seq<string>>): (r: Result<Frame, ReadError>)
    ensures |values| <= 1 ==> r == Ok(EmptyFrame)
    ensures |values| > 1 && r.Ok? ==>
      && r.value.columns == FrameColumns
      && |r.value.entries| == |values| - 1
      && r.value.unexpectedHeader == (values[0] != Header)
      && forall i :: 0 <= i < |r.value.entries| ==> ParseRow(values[i + 1]) == Some(r.value.entries[i])
    ensures r.Ok? <==> forall i :: 1 <= i < |values| ==> ParseRow(values[i]).Some?
    ensures r.Err? ==>
      && 1 <= r.error.index < |values|
      && ParseRow(values[r.error.index]).None?
      && forall j :: 1 <= j < r.error.index ==> ParseRow(values[j]).Some?
  {
    if |values| <= 1 then Ok(EmptyFrame)
    else
      var data := values[1..];
      assert forall i :: 1 <= i < |values| ==> values[i] == data[i - 1];
      match ParseRows(data)
      case Err(i) => Err(MalformedRow(i + 1))
      case Ok(es) => Ok(Frame(FrameColumns, es, values[0] != Header))
  }

  /** `get_data` itself: a missing sheet reads as a frame with no columns and no rows. */
  function GetData(sheet: Sheet?): (r: Result<Frame, ReadError>)
    reads sheet
    ensures sheet == null ==> r == Ok(NoSheetFrame)
    ensures sheet != null ==> r == ReadTable(sheet.rows)
  {
    if sheet == null then Ok(NoSheetFrame) else ReadTable(sheet.rows)
  }

  /**
   * Every entry read from a table carries the cells of the row it came from,
   * and its date is the date portion (first ten characters) of that row's timestamp.
   */
  lemma ReadTableEntries(values: seq<seq<string>>, f: Frame)
    requires ReadTable(values) == Ok(f)
    ensures forall i :: 0 <= i < |f.entries| ==>
      && FormatTimestamp(f.entries[i].timestamp) == values[i + 1][0]
      && f.entries[i].mood == values[i + 1][1]
      && f.entries[i].note == values[i + 1][2]
      && f.entries[i].date == f.entries[i].timestamp.date && ValidDate(f.entries[i].date)
      && FormatDate(f.entries[i].date) == values[i + 1][0][..10]
  {
    forall i | 0 <= i < |f.entries|
      ensures FormatTimestamp(f.entries[i].timestamp) == values[i + 1][0]
      ensures f.entries[i].mood == values[i + 1][1] && f.entries[i].note == values[i + 1][2]
      ensures f.entries[i].date == f.entries[i].timestamp.date && ValidDate(f.entries[i].date)
      ensures FormatDate(f.entries[i].date) == values[i + 1][0][..10]
    {
      ParseRowFaithful(values[i + 1], f.entries[i]);
    }
  }

  /** The first row decides only the warning: any other header reads the same entries. */
  lemma ReadTableIgnoresHeader(values: seq<seq<string>>, header: seq<string>, f: Frame)
    requires |values| > 1 && ReadTable(values) == Ok(f)
    ensures ReadTable([header] + values[1..]) == Ok(f.(unexpectedHeader := header != Header))
  {
  }

  /**
   * Appending a record to a readable table (one that has at least its first
   * row) reads back as the same entries followed by the new one.
   */
  lemma AppendThenRead(values: seq<seq<string>>, f: Frame, now: DateTime, mood: string, note: string)
    requires |values| >= 1 && ReadTable(values) == Ok(f)
    requires ValidDateTime(now)
    ensures ReadTable(values + [RecordRow(now, mood, note)])
         == Ok(Frame(FrameColumns, f.entries + [MoodEntry(now, mood, note, now.date)], values[0] != Header))
  {
    var row := RecordRow(now, mood, note);
    var e := MoodEntry(now, mood, note, now.date);
    RecordRowParses(now, mood, note);
    assert (values + [row])[1..] == values[1..] + [row];
    if |values| == 1 {
      assert values[1..] == [];
      assert ParseRows(values[1..]) == Ok([]);
      ParseRowsAppend(values[1..], row, [], e);
    } else {
      ParseRowsAppend(values[1..], row, f.entries, e);
    }
  }

  /**
   * Setup, then add_record, then get_data: the last entry read is the mood and
   * note just logged, at the time it was logged. After a reset it is the only one.
   */
  lemma SetupAddReadRoundTrip(values: seq<seq<string>>, now: DateTime, mood: string, note: string)
    requires ValidDateTime(now)
    requires ReadTable(Initialised(values)).Ok?
    ensures var r := ReadTable(Initialised(values) + [RecordRow(now, mood, note)]);
      && r.Ok?
      && !r.value.unexpectedHeader
      && |r.value.entries| == |Initialised(values)|
      && r.value.entries[|r.value.entries| - 1] == MoodEntry(now, mood, note, now.date)
      && (values == [] || values[0] != Header ==> r.value.entries == [MoodEntry(now, mood, note, now.date)])
  {
    var init := Initialised(values);
    var f := ReadTable(init).value;
    AppendThenRead(init, f, now, mood, note);
    if values == [] || values[0] != Header {
      assert f == EmptyFrame;
    }
  }

  // ---------------------------------------------------------------------------
  // The two aggregations the charts draw

  /** `df[df['date'] == day]`: the entries dated `day`, in order. */
  function RowsOn(entries: seq<MoodEntry>, day: Date): (r: seq<MoodEntry>)
    ensures forall e :: multiset(r)[e] == if e.date == day then multiset(entries)[e] else 0
  {
    if entries == [] then []
    else
      var init, last := entries[..|entries| - 1], entries[|entries| - 1];
      assert entries == init + [last];
      RowsOn(init, day) + (if last.date == day then [last] else [])
  }

  /** The mood column. */
  function MoodsOf(entries: seq<MoodEntry>): (r: seq<string>)
    ensures |r| == |entries|
  {
    seq(|entries|, i requires 0 <= i < |entries| => entries[i].mood)
  }

  /** The (date, mood) pairs the history chart groups by. */
  function DayMoodsOf(entries: seq<MoodEntry>): (r: seq<(Date, string)>)
    ensures |r| == |entries|
  {
    seq(|entries|, i requires 0 <= i < |entries| => (entries[i].date, entries[i].mood))
  }

  /** The number of entries dated `day` with mood `mood`, counted one by one. */
  function CountOn(entries: seq<MoodEntry>, day: Date, mood: string): (n: nat)
    ensures n <= |entries|
  {
    if entries == [] then 0
    else
      var last := entries[|entries| - 1];
      CountOn(entries[..|entries| - 1], day, mood) + (if last.date == day && last.mood == mood then 1 else 0)
  }

  /** Today's chart: `today_df['mood'].value_counts()`. */
  function TodayCounts(f: Frame, today: Date): (r: seq<Bucket<string>>)
    ensures |r| <= |RowsOn(f.entries, today)|
    ensures RowsOn(f.entries, today) != [] ==> r != []
  {
    Tally(MoodsOf(RowsOn(f.entries, today)))
  }

  /** The history chart: `df.groupby(['date', 'mood']).size()`. */
  function DailyCounts(f: Frame): (r: seq<Bucket<(Date, string)>>)
    ensures |r| <= |f.entries|
    ensures f.entries != [] ==> r != []
  {
    Tally(DayMoodsOf(f.entries))
  }

  /** Taking moods distributes over concatenation of entry sequences. */
  lemma MoodsOfAppend(a: seq<MoodEntry>, b: seq<MoodEntry>)
    ensures MoodsOf(a + b) == MoodsOf(a) + MoodsOf(b)
  {
  }

  /** Each mood occurs among the moods of the rows on `day` as often as `CountOn` counts it. */
  lemma {:induction false} MoodsOfToday(entries: seq<MoodEntry>, day: Date, mood: string)
    ensures multiset(MoodsOf(RowsOn(entries, day)))[mood] == CountOn(entries, day, mood)
  {
    if entries != [] {
      var init, last := entries[..|entries| - 1], entries[|entries| - 1];
      MoodsOfToday(init, day, mood);
      var tail := if last.date == day then [last] else [];
      var before := RowsOn(init, day);
      assert RowsOn(entries, day) == before + tail;
      MoodsOfAppend(before, tail);
      var ms, mt := MoodsOf(before), MoodsOf(tail);
      assert multiset(ms + mt) == multiset(ms) + multiset(mt);
      assert multiset(mt)[mood] == (if last.date == day && last.mood == mood then 1 else 0);
    }
  }

  /** Each (day, mood) pair occurs among the entries' keys as often as `CountOn` counts it. */
  lemma {:induction false} DayMoodsCount(entries: seq<MoodEntry>, day: Date, mood: string)
    ensures multiset(DayMoodsOf(entries))[(day, mood)] == CountOn(entries, day, mood)
  {
    if entries != [] {
      var init, last := entries[..|entries| - 1], entries[|entries| - 1];
      DayMoodsCount(init, day, mood);
      assert DayMoodsOf(entries) == DayMoodsOf(init) + [(last.date, last.mood)];
    }
  }

  /** A mood occurs among a day's rows exactly when some entry has that date and mood. */
  lemma MoodsOnDay(entries: seq<MoodEntry>, day: Date)
    ensures forall m :: m in MoodsOf(RowsOn(entries, day)) <==> exists e :: e in entries && e.date == day && e.mood == m
  {
    var rows := RowsOn(entries, day);
    var ks := MoodsOf(rows);
    forall m | m in ks ensures exists e :: e in entries && e.date == day && e.mood == m {
      var i :| 0 <= i < |ks| && ks[i] == m;
      var e := rows[i];
      assert ks[i] == e.mood;
      assert multiset(rows)[e] > 0;
      assert e.date == day && multiset(entries)[e] > 0;
      assert e in entries;
    }
    forall m | exists e :: e in entries && e.date == day && e.mood == m ensures m in ks {
      var e :| e in entries && e.date == day && e.mood == m;
      assert multiset(entries)[e] > 0;
      assert multiset(rows)[e] > 0;
      assert e in rows;
      var i :| 0 <= i < |rows| && rows[i] == e;
      assert ks[i] == m;
    }
  }

  /**
   * Today's counts: one bucket per distinct mood among the entries dated
   * today, each holding the number of today's entries with that mood, and
   * together the number of today's entries.
   */
  lemma TodayCountsCorrect(f: Frame, today: Date)
    ensures var r := TodayCounts(f, today);
      && DistinctKeys(r)
      && (forall m :: m in KeySet(r) <==> exists e :: e in f.entries && e.date == today && e.mood == m)
      && (forall i :: 0 <= i < |r| ==> r[i].count == CountOn(f.entries, today, r[i].key))
      && Total(r) == |RowsOn(f.entries, today)|
  {
    var ks := MoodsOf(RowsOn(f.entries, today));
    TallyKeys(ks);
    TallyTotal(ks);
    MoodsOnDay(f.entries, today);
    var r := Tally(ks);
    assert r == TodayCounts(f, today);
    assert forall m :: m in KeySet(r) <==> m in ks;
    forall i | 0 <= i < |r| ensures r[i].count == CountOn(f.entries, today, r[i].key) {
      TallyCounts(ks);
      MoodsOfToday(f.entries, today, r[i].key);
    }
  }

  /**
   * The history counts: one bucket per distinct (date, mood) pair among all
   * entries, each holding the number of entries with that date and mood, and
   * together the number of entries.
   */
  lemma DailyCountsCorrect(f: Frame)
    ensures var r := DailyCounts(f);
      && DistinctKeys(r)
      && (forall k :: k in KeySet(r) <==> exists e :: e in f.entries && (e.date, e.mood) == k)
      && (forall i :: 0 <= i < |r| ==> r[i].count == CountOn(f.entries, r[i].key.0, r[i].key.1))
      && Total(r) == |f.entries|
  {
    var ks := DayMoodsOf(f.entries);
    TallyKeys(ks);
    TallyCounts(ks);
    TallyTotal(ks);
    var r := Tally(ks);
    forall k ensures k in KeySet(r) <==> exists e :: e in f.entries && (e.date, e.mood) == k {
      if k in KeySet(r) {
        assert k in ks;
        var i :| 0 <= i < |ks| && ks[i] == k;
        assert f.entries[i] in f.entries;
      }
      if exists e :: e in f.entries && (e.date, e.mood) == k {
        var e :| e in f.entries && (e.date, e.mood) == k;
        var i :| 0 <= i < |f.entries| && f.entries[i] == e;
        assert ks[i] == k;
      }
    }
    forall i | 0 <= i < |r| ensures r[i].count == CountOn(f.entries, r[i].key.0, r[i].key.1) {
      DayMoodsCount(f.entries, r[i].key.0, r[i].key.1);
    }
  }

  /** When every entry is dated `day`, the filter keeps them all, in order. */
  lemma {:induction false} RowsOnAll(entries: seq<MoodEntry>, day: Date)
    requires forall i :: 0 <= i < |entries| ==> entries[i].date == day
    ensures RowsOn(entries, day) == entries
  {
    if entries != [] {
      RowsOnAll(entries[..|entries| - 1], day);
      assert entries == entries[..|entries| - 1] + [entries[|entries| - 1]];
    }
  }

  /** Three entries dated today, Happy, Happy and Angry, chart as Happy 2 and Angry 1. */
  lemma TodayCountsExample(today: Date, t1: DateTime, t2: DateTime, t3: DateTime)
    ensures var f := Frame(FrameColumns, [MoodEntry(t1, Moods[0], "", today),
                                          MoodEntry(t2, Moods[0], "", today),
                                          MoodEntry(t3, Moods[1], "", today)], false);
      TodayCounts(f, today) == [Bucket(Moods[0], 2), Bucket(Moods[1], 1)]
  {
    var happy, angry := Moods[0], Moods[1];
    var es := [MoodEntry(t1, happy, "", today), MoodEntry(t2, happy, "", today), MoodEntry(t3, angry, "", today)];
    assert happy != angry by { assert happy[2] != angry[2]; }
    RowsOnAll(es, today);
    var ks := MoodsOf(es);
    assert ks[0] == happy && ks[1] == happy && ks[2] == angry;
    assert ks == [happy, happy, angry];
    TallyTwoThenOne(happy, angry);
  }

  // ---------------------------------------------------------------------------
  // One page render

  /**
   * One render of the page: the setup at start-up, the Submit handler (which
   * logs only when the sheet is there), then the read the charts use.
   */
  method SubmitAndRead(handle: Sheet?, submitted: bool, mood: string, note: string, now: DateTime)
    returns (logged: bool, df: Result<Frame, ReadError>)
    modifies handle
    ensures logged <==> submitted && handle != null
    ensures handle == null ==> df == Ok(NoSheetFrame)
    ensures handle != null ==>
      handle.rows == Initialised(old(handle.rows)) + (if submitted then [RecordRow(now, mood, note)] else [])
    ensures handle != null ==> df == ReadTable(handle.rows)
    ensures handle != null && logged && ValidDateTime(now) && ReadTable(Initialised(old(handle.rows))).Ok? ==>
      df.Ok? && df.value.entries != [] && df.value.entries[|df.value.entries| - 1] == MoodEntry(now, mood, note, now.date)
  {
    var sheet := SetupGoogleSheet(handle);
    logged := false;
    if submitted && sheet != null {
      logged := AddRecord(sheet, mood, note, now);
    }
    df := GetData(sheet);
    if handle != null && logged && ValidDateTime(now) && ReadTable(Initialised(old(handle.rows))).Ok? {
      SetupAddReadRoundTrip(old(handle.rows), now, mood, note);
    }
  }
}
