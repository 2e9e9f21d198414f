# Wind turbine power curve and M2 record loader, in Dafny

This project models `WindGen.py`, which does two things:

- It maps a series of wind-speed samples [m/s] to a series of electrical power samples [kW]. Each sample goes through three steps: a piecewise coefficient of performance Cp, the mechanical power P_m, and a generator efficiency n_g that has a floor.
- It turns parsed meteorological records into four aligned series: fractional-day timestamps, temperature, wind speed and power. Only the window of 1440 one-minute samples that starts three days before the end of the file is kept, and each series is cut to the first `it` entries.

All quantities are Dafny `real`s, so floating-point rounding is not modelled. `np.pi` is the parameter `pi`, of type `PiValue`: an otherwise unknown real strictly between 3.14159 and 3.1416.

Modules:

- `PowerCurve` (PowerCurve.dfy): the constants, the per-sample reference functions and the methods `WindGen` and `FillSample`. `WindGen` allocates the four arrays `C_p`, `P_m`, `n_g` and `P` as zeros and calls `FillSample`, the loop body, for each index. Like the source, `FillSample` sets Cp with four non-exclusive `if`s, so a later branch overwrites an earlier one. The reference function `CoefficientOfPerformance` instead picks one of four disjoint ranges. `WindGen`'s postcondition proves that the two agree at every speed, the boundaries 4, 12 and 26 included; 12 is the only speed where two conditions fire.
- `OrdinalDays` (OrdinalDays.dfy): `_to_ordinalf`. A date is given by its day ordinal, which is the value `date.toordinal()` returns. A tzinfo is given by the offset its `utcoffset()` answers, in microseconds. `dt -= delta` is modelled as Python's timedelta arithmetic, normalised by floor division.
- `M2Import` (M2Import.dfy): the part of `import_M2` that runs after the file has been read. It checks the count assert, fills the timestamp array in a loop, slices the window with Python's slicing rules, runs `WindGen` on the window and truncates the four series.
- `Wrappers` (Wrappers.dfy): the `Option` and `Result` datatypes.

Behaviour of the code at its edges, as the model states it:

- **Files shorter than 4320 records.** A file shorter than 4320 records does not fail. Python adds the length to a negative slice bound and then clamps the bound to [0, dim], so a short file gives a silent result:
  - with 2880 to 4319 records, every series is empty (`CutEmpty`);
  - with 2160 to 2879 records, the window is 1440 records starting at `2·dim − 4320`;
  - with 1441 to 2159 records, the window is the first `2·dim − 2880` records;
  - with 1440 records or fewer, every series is empty.

  The model states the slicing rule itself (`SliceIndex`, `Slice`), so it covers every record count. It does not need the precondition `dim ≥ 4320`.
- **Counts.** A count `it > 1440` fails the assert. A negative `it` is accepted and gives the first `1440 + it` samples, or none.
- **Boundary speeds.** At exactly 4 m/s only the in-range branch fires. At exactly 12 m/s two conditions fire, and the rated-range assignment overwrites the below-rated one. At exactly 26 m/s only the rated-range condition fires.

## Model

| member | source | states |
|---|---|---|
| PowerCurve.WindGen | WindGen.py:32-64 | The output has the input's length. Element i is `SamplePower(wind[i])`, the reference power of the speed at the same index. So the overwriting `if`s agree with the disjoint-range reference at every speed, boundaries included. Every division is by a non-zero value. |
| PowerCurve.FillSample | WindGen.py:39-62 | One pass of the loop body, with the source's non-exclusive `if`s in order. It sets element i of C_p, P_m, n_g and P to the reference Cp, mechanical power, efficiency and output power, and changes no other element. |
| PowerCurve.GeneratorEfficiency | WindGen.py:56-60 | The efficiency is exactly 0.1 if and only if P_m ≤ (S·P_rt)/90 = 0.05. Otherwise it is 1 − 0.045/P_m, strictly between 0.1 and 1. The division happens only when P_m > 0.05, so never by zero. |
| PowerCurve.ZeroOutsideBand | WindGen.py:38-62 | Below 4 m/s or above 26 m/s, Cp is 0, P_m is 0, the efficiency is the floor and the output power is 0. Speed 0 is one such sample. |
| PowerCurve.RatedSpeedTieBreak | WindGen.py:42-49 | At exactly 12 m/s, Cp is the rated-range value cpr·(12/12)³ = 0.25, which differs from the below-rated formula's value at 12 m/s. |
| PowerCurve.CutInSpeedPower | WindGen.py:39-62 | At exactly 4 m/s the below-rated formula applies. It gives Cp = −0.0000121875, a negative P_m, the efficiency floor and a negative output power. |
| PowerCurve.CutOutSpeedCp | WindGen.py:48-52 | At exactly 26 m/s the rated-range formula still applies: Cp = 0.25·(12/26)³ > 0. |
| PowerCurve.EfficiencyAsFixedLoss | WindGen.py:56-62 | Above the threshold, n_g·P_m = P_m − 0.045. So the output power is 0.95·(P_m − 0.045)/1000. |
| PowerCurve.EfficiencyMonotone | WindGen.py:56-60 | The efficiency never decreases as P_m grows, across the floor as well. |
| PowerCurve.RatedPlateau | WindGen.py:48-62 | Between 12 and 26 m/s, P_m is the same constant at every speed, and so is the output power. |
| PowerCurve.EightMetresPerSecond | WindGen.py:42-62 | At 8 m/s: Cp = 0.2945415234375, P_m = Cp·533610·π and the output power is 0.95·(P_m − 0.045)/1000. |
| PowerCurve.PowerSeriesPointwise | WindGen.py:38-62 | Changing one input sample to v changes exactly the output sample at the same index, to the power of v. No other sample changes. |
| OrdinalDays.Subtract | WindGen.py:80-83 | Subtracting an offset from an aware datetime gives a datetime whose wall-clock microsecond count is the original minus the offset. Its fields are in range and its tzinfo is kept. |
| OrdinalDays.DayFraction | WindGen.py:86-90 | hour/24 + minute/1440 + second/86400 + µs/86400e6 is in [0, 1) for in-range fields. It equals the microseconds since midnight divided by the microseconds in a day. |
| OrdinalDays.ToOrdinalF | WindGen.py:73-91 | The result is the UTC instant in days since midnight of ordinal day 0. For a date or a naive datetime, it lies in [ordinal, ordinal + 1). |
| OrdinalDays.OffsetSubtracted | WindGen.py:80-90 | An aware datetime's value is the value of its naive reading minus its UTC offset counted in days. |
| OrdinalDays.OrdinalFOrder | WindGen.py:80-91 | Fractional-day values order datetimes as their UTC instants do, and they are equal exactly when the instants are equal. |
| M2Import.SliceIndex | WindGen.py:110-117 | A slice bound is adjusted as Python does: a bound in [0, n] is kept; a negative bound i ≥ −n becomes n + i; a bound above n becomes n; a bound below −n becomes 0. The result is always in [0, n]. |
| M2Import.Slice | WindGen.py:112-114 | `s[a:b]` has length max(0, b' − a') for the adjusted bounds a' and b', and element k is `s[a' + k]`. |
| M2Import.WindowPrefix | WindGen.py:112-117 | For any series with at least 4320 elements, `s[dim-4320:dim-2880][:it]` has Python's adjusted count of `it` for a list of 1440. Its element k is `s[dim − 4320 + k]`. |
| M2Import.PowerWindow | WindGen.py:114-117 | With at least 4320 records, the truncated power series has the same count. Its element k is the power curve of the wind speed of record dim − 4320 + k. |
| M2Import.CutAligned | WindGen.py:110-117 | With at least 4320 records, the four returned series have the prefix length of `it`. Element j of each comes from record dim − 4320 + j: its timestamp, its temperature, its wind speed and the power curve of that wind speed. |
| M2Import.CutEmpty | WindGen.py:110-117 | With 2880 to 4319 records, all four series are empty. |
| M2Import.Import | WindGen.py:94-117 | The load fails exactly when it > 1440. With at least 4320 records and 0 ≤ it ≤ 1440, each series has `it` samples aligned with records dim − 4320 + j. A negative `it` gives 1440 + it samples, or none. With 2880 to 4319 records, every series is empty. |
| M2Import.ImportM2 | WindGen.py:95-117 | The method (assert, parse loop filling `x`, slicing, `WindGen`, truncation) returns exactly `Import`. |
| M2Import.TimestampsIncreasing | WindGen.py:102-107 | Records in strictly increasing wall-clock order get strictly increasing timestamps. |
| M2Import.RowTimestampValue | WindGen.py:104-107 | A record's timestamp is its day ordinal + hour/24 + minute/1440. The combined datetime is naive, with seconds and microseconds zero. |

## Left out

- Reading the CSV file with `np.genfromtxt` (WindGen.py:99) is not modelled. Records arrive already parsed.
- Parsing the date and time text with `strptime` (WindGen.py:104-105) is not modelled, and neither are its parse errors. A record carries its date as a day ordinal and its time as an hour and a minute.
- `date.toordinal()` is a calendar library call. The model takes a moment's day ordinal as given.
- `tzinfo.utcoffset()` is a time-zone library call. The model takes the offset it returns, in microseconds, as given.
- OrdinalDays.Subtract: Python raises `OverflowError` when the shifted date leaves years 1 to 9999. Day ordinals here are unbounded integers, so that error is not modelled.
- Floating-point rounding is not modelled. All quantities are exact reals.
- The exact value of `np.pi` is not modelled. It is only known to lie between 3.14159 and 3.1416.
- The assert at WindGen.py:95 disappears under `python -O`. The model always checks it.
- The `__main__` block (WindGen.py:120-170) is not modelled. It is command-line handling and plotting.
- The commented-out Savitzky-Golay, Weibull and normal-distribution code is not modelled. It is inert.
- The unused `scipy` imports are not modelled.
- The window that Python gives for 1441 to 2879 records follows from `Slice`, but no lemma states it.
- `WindGen` returns its power array as a sequence. The source returns a fresh numpy array. No caller aliases that array, so nothing is lost.
