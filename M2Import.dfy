/**
 * The loader of M2 meteorological records (WindGen.py:94-117): timestamps
 * for every record, the window of 1440 one-minute samples that starts
 * three days before the end, the power curve applied to its wind speeds,
 * and each of the four series cut to the first `it` entries.
 *
 * Reading the CSV file and parsing its text fields are not modelled: a
 * record arrives as the day ordinal of its date, the hour and minute of
 * its time, and its two numeric columns.
 */
module M2Import {
  import opened Wrappers
  import opened OrdinalDays
  import opened PowerCurve

  /** One parsed record: date (as date.toordinal()), time 'HH:MM', temperature, wind speed. */
  datatype Row = Row(dayOrdinal: int, hour: Hour, minute: Minute, temperature: real, windSpeed: real)

  /** The four aligned series import_M2 returns. */
  datatype Window = Window(datetimes: seq<real>, temperature: seq<real>, windspeed: seq<real>, windpower: seq<real>)

  /** The assert at WindGen.py:95 failing. */
  datatype ImportError = CountTooLarge

  const SamplesPerDay: int := 1440

  /** datetime.combine of the parsed date and time: naive, seconds and microseconds zero. */
  function Combine(r: Row): Moment
  {
    DateTime(r.dayOrdinal, r.hour, r.minute, 0, 0, None)
  }

  /** The timestamp WindGen.py:107 stores for a record. */
  function RowTimestamp(r: Row): real
  {
    ToOrdinalF(Combine(r))
  }

  function Timestamps(rows: seq<Row>): seq<real>
  {
    seq(|rows|, i requires 0 <= i < |rows| => RowTimestamp(rows[i]))
  }

  function Temperatures(rows: seq<Row>): seq<real>
  {
    seq(|rows|, i requires 0 <= i < |rows| => rows[i].temperature)
  }

  function WindSpeeds(rows: seq<Row>): seq<real>
  {
    seq(|rows|, i requires 0 <= i < |rows| => rows[i].windSpeed)
  }

  /** A slice bound as Python adjusts it: a negative one counts from the end, then it is clamped to [0, n]. */
  function SliceIndex(i: int, n: nat): (b: nat)
    ensures b <= n
    ensures 0 <= i <= n ==> b == i
    ensures i < 0 && i + n >= 0 ==> b == n + i
    ensures i > n ==> b == n
    ensures i + n < 0 ==> b == 0
  {
    if i < 0 then (if i + n < 0 then 0 else i + n)
    else if i > n then n
    else i
  }

  /**
   * s[start:stop] with Python's semantics for step 1: the elements between
   * the adjusted bounds, none when the adjusted start is not before the
   * adjusted stop.
   */
  function Slice<T>(s: seq<T>, start: int, stop: int): (r: seq<T>)
    ensures var a, b := SliceIndex(start, |s|), SliceIndex(stop, |s|);
            |r| == (if a < b then b - a else 0) &&
            forall k :: 0 <= k < |r| ==> r[k] == s[a + k]
  {
    var a, b := SliceIndex(start, |s|), SliceIndex(stop, |s|);
    if a < b then s[a..b] else []
  }

  /** s[:it]. */
  function Prefix<T>(s: seq<T>, it: int): seq<T>
  {
    Slice(s, 0, it)
  }

  /**
   * The window holds, from `first` on, `count` consecutive records: each
   * timestamp is that record's fractional day, temperature and wind speed
   * are its columns, and the power is the power curve of its wind speed.
   */
  ghost predicate AlignedWith(w: Window, rows: seq<Row>, first: int, count: nat, pi: PiValue)
  {
    0 <= first && first + count <= |rows| &&
    |w.datetimes| == count && |w.temperature| == count &&
    |w.windspeed| == count && |w.windpower| == count &&
    forall j :: 0 <= j < count ==>
      w.datetimes[j] == RowTimestamp(rows[first + j]) &&
      w.temperature[j] == rows[first + j].temperature &&
      w.windspeed[j] == rows[first + j].windSpeed &&
      w.windpower[j] == SamplePower(rows[first + j].windSpeed, pi)
  }

  /**
   * The successful result of import_M2: the window [dim - 4320, dim - 2880)
   * of the three columns, the power curve of its wind speeds, each cut
   * to its first `it` entries (WindGen.py:110-117).
   */
  function Cut(rows: seq<Row>, it: int, pi: PiValue): Window
  {
    var limA, limB := |rows| - 3 * SamplesPerDay, |rows| - 2 * SamplesPerDay;
    var windspeed := Slice(WindSpeeds(rows), limA, limB);
    Window(
      Prefix(Slice(Timestamps(rows), limA, limB), it),
      Prefix(Slice(Temperatures(rows), limA, limB), it),
      Prefix(windspeed, it),
      Prefix(PowerSeries(windspeed, pi), it))
  }

  /** With at least three days of elements, the window slice is the 1440 elements starting three days before the end. */
  lemma WindowSlice<T>(s: seq<T>)
    requires |s| >= 3 * SamplesPerDay
    ensures var w := Slice(s, |s| - 3 * SamplesPerDay, |s| - 2 * SamplesPerDay);
            |w| == SamplesPerDay &&
            forall k :: 0 <= k < SamplesPerDay ==> w[k] == s[|s| - 3 * SamplesPerDay + k]
  {
  }

  /** The first `it` elements of a day's window, as Python's s[:it] counts them. */
  lemma PrefixOfDay<T>(s: seq<T>, it: int)
    requires |s| == SamplesPerDay
    ensures |Prefix(s, it)| == SliceIndex(it, SamplesPerDay)
    ensures forall k :: 0 <= k < |Prefix(s, it)| ==> Prefix(s, it)[k] == s[k]
  {
  }

  /**
   * With at least three days of elements, s[dim - 4320:dim - 2880][:it]
   * holds `count` elements, element k being s[dim - 4320 + k], where
   * `count` is Python's adjusted `it` for a list of 1440.
   */
  lemma WindowPrefix<T>(s: seq<T>, it: int)
    requires |s| >= 3 * SamplesPerDay
    ensures var w := Prefix(Slice(s, |s| - 3 * SamplesPerDay, |s| - 2 * SamplesPerDay), it);
            |w| == SliceIndex(it, SamplesPerDay) &&
            forall k :: 0 <= k < |w| ==> w[k] == s[|s| - 3 * SamplesPerDay + k]
  {
    WindowSlice(s);
    PrefixOfDay(Slice(s, |s| - 3 * SamplesPerDay, |s| - 2 * SamplesPerDay), it);
  }

  /** The power series of the window, cut to `it`: element k is the power curve of record dim - 4320 + k. */
  lemma PowerWindow(rows: seq<Row>, it: int, pi: PiValue)
    requires |rows| >= 3 * SamplesPerDay
    ensures var w := Cut(rows, it, pi).windpower;
            |w| == SliceIndex(it, SamplesPerDay) &&
            forall k :: 0 <= k < |w| ==> w[k] == SamplePower(rows[|rows| - 3 * SamplesPerDay + k].windSpeed, pi)
  {
    var speeds := Slice(WindSpeeds(rows), |rows| - 3 * SamplesPerDay, |rows| - 2 * SamplesPerDay);
    WindowSlice(WindSpeeds(rows));
    PrefixOfDay(PowerSeries(speeds, pi), it);
  }

  /**
   * With at least three days of records, the window starts three days
   * before the end and keeps `count` samples, where `count` is `it` for
   * 0 <= it <= 1440 and 1440 + it (at least 0) for a negative `it`.
   */
  lemma CutAligned(rows: seq<Row>, it: int, pi: PiValue)
    requires |rows| >= 3 * SamplesPerDay
    ensures AlignedWith(Cut(rows, it, pi), rows, |rows| - 3 * SamplesPerDay,
                        SliceIndex(it, SamplesPerDay), pi)
  {
    WindowPrefix(Timestamps(rows), it);
    WindowPrefix(Temperatures(rows), it);
    WindowPrefix(WindSpeeds(rows), it);
    PowerWindow(rows, it, pi);
  }

  /** With at least two days of records but less than three, the window is empty. */
  lemma CutEmpty(rows: seq<Row>, it: int, pi: PiValue)
    requires 2 * SamplesPerDay <= |rows| < 3 * SamplesPerDay
    ensures Cut(rows, it, pi) == Window([], [], [], [])
  {
  }

  /**
   * What import_M2 returns for parsed records `rows`, count `it` and np.pi
   * standing as `pi`. A count above 1440 fails the assert. With at least
   * three days of records, a count 0 <= it <= 1440 gives `it` aligned
   * samples starting three days before the end, and a negative count
   * (Python's s[:-n]) gives the first 1440 + it of them, or none.
   * With at least two days but less than three, every series is empty.
   */
  function Import(rows: seq<Row>, it: int, pi: PiValue): (r: Result<Window, ImportError>)
    ensures r.Failure? <==> it > SamplesPerDay
    ensures r.Success? && |rows| >= 3 * SamplesPerDay && it >= 0 ==>
              AlignedWith(r.value, rows, |rows| - 3 * SamplesPerDay, it, pi)
    ensures r.Success? && |rows| >= 3 * SamplesPerDay && it < 0 ==>
              AlignedWith(r.value, rows, |rows| - 3 * SamplesPerDay,
                          if SamplesPerDay + it < 0 then 0 else SamplesPerDay + it, pi)
    ensures r.Success? && 2 * SamplesPerDay <= |rows| < 3 * SamplesPerDay ==>
              r.value == Window([], [], [], [])
  {
    if it > SamplesPerDay then Failure(CountTooLarge)
    else if |rows| >= 3 * SamplesPerDay then
      CutAligned(rows, it, pi);
      Success(Cut(rows, it, pi))
    else if |rows| >= 2 * SamplesPerDay then
      CutEmpty(rows, it, pi);
      Success(Cut(rows, it, pi))
    else Success(Cut(rows, it, pi))
  }

  /**
   * import_M2 after the file is read (WindGen.py:95, 101-117): checks the
   * count, fills the timestamp array record by record, slices the window,
   * runs WindGen on its wind speeds and truncates the four series.
   */
  method ImportM2(rows: seq<Row>, it: int, pi: PiValue) returns (r: Result<Window, ImportError>)
    ensures r == Import(rows, it, pi)
  {
    if it > SamplesPerDay {
      return Failure(CountTooLarge);
    }
    var dim := |rows|;
    var x := new real[dim];
    for i := 0 to dim
      invariant forall j :: 0 <= j < i ==> x[j] == RowTimestamp(rows[j])
    {
      x[i] := ToOrdinalF(Combine(rows[i]));
    }
    assert x[..] == Timestamps(rows);

    var limA, limB := dim - 3 * SamplesPerDay, dim - 2 * SamplesPerDay;
    var datetimes := Slice(x[..], limA, limB);
    var temperature := Slice(Temperatures(rows), limA, limB);
    var windspeed := Slice(WindSpeeds(rows), limA, limB);
    var windpower := WindGen(windspeed, pi);

    r := Success(Window(Prefix(datetimes, it), Prefix(temperature, it),
                        Prefix(windspeed, it), Prefix(windpower, it)));
    assert r.value == Cut(rows, it, pi);
  }

  /**
   * Timestamps of records in strictly increasing wall-clock order are
   * strictly increasing.
   */
  lemma {:induction false} TimestampsIncreasing(rows: seq<Row>)
    requires forall i :: 0 < i < |rows| ==> LocalMicros(Combine(rows[i - 1])) < LocalMicros(Combine(rows[i]))
    ensures forall i, j :: 0 <= i < j < |rows| ==> Timestamps(rows)[i] < Timestamps(rows)[j]
  {
    if |rows| > 1 {
      var init := rows[..|rows| - 1];
      TimestampsIncreasing(init);
      forall i | 0 <= i < |rows| - 1
        ensures Timestamps(rows)[i] < Timestamps(rows)[|rows| - 1]
      {
        assert Timestamps(rows)[i] == Timestamps(init)[i];
        if i < |rows| - 2 {
          assert Timestamps(rows)[|rows| - 2] == Timestamps(init)[|rows| - 2];
        }
        OrdinalFOrder(Combine(rows[|rows| - 2]), Combine(rows[|rows| - 1]));
      }
      forall i, j | 0 <= i < j < |rows|
        ensures Timestamps(rows)[i] < Timestamps(rows)[j]
      {
        if j < |rows| - 1 {
          assert Timestamps(rows)[i] == Timestamps(init)[i];
          assert Timestamps(rows)[j] == Timestamps(init)[j];
        }
      }
    }
  }

  /** A record's timestamp: its day ordinal plus hour / 24 plus minute / 1440. */
  lemma RowTimestampValue(r: Row)
    ensures RowTimestamp(r) == r.dayOrdinal as real + r.hour as real / 24.0 + r.minute as real / 1440.0
  {
  }
}
