/** The numeric part of the pie charts of pyness3.py and genSVG.py: the
    colour tables, `getPercent`, and `draw_pieChart`, which sums the
    counts of a stats dictionary, overwrites five of its entries with
    their sweeps in degrees and lays the sectors out one after the other
    in the dictionary's insertion order. */
module Pie {
  import opened Common
  import opened Hosts

  const CRITICAL_KEY: string := "critical"
  const HIGH_KEY: string := "high"
  const MEDIUM_KEY: string := "medium"
  const LOW_KEY: string := "low"
  const INFO_KEY: string := "info"

  /** The five keys `draw_pieChart` looks up, in the order it looks them
      up and the order both callers insert them. */
  const SLICE_KEYS: seq<string> := [CRITICAL_KEY, HIGH_KEY, MEDIUM_KEY, LOW_KEY, INFO_KEY]

  lemma KeysDistinct()
    ensures CRITICAL_KEY != HIGH_KEY && CRITICAL_KEY != MEDIUM_KEY && CRITICAL_KEY != LOW_KEY && CRITICAL_KEY != INFO_KEY
    ensures HIGH_KEY != MEDIUM_KEY && HIGH_KEY != LOW_KEY && HIGH_KEY != INFO_KEY
    ensures MEDIUM_KEY != LOW_KEY && MEDIUM_KEY != INFO_KEY && LOW_KEY != INFO_KEY
  {
  }

  /** Which script's colour table is in use: pyness3.py's or
      genSVG.py's. */
  datatype Palette = PynessColours | GenSvgColours

  /** An RGB colour with 0..255 channels and an alpha. */
  datatype Colour = Colour(red: nat, green: nat, blue: nat, alpha: nat)

  datatype Sector = Sector(key: string, start: real, end: real, colour: Colour)

  /** Why `draw_pieChart` raises: a `KeyError` on one of the five keys, a
      `ZeroDivisionError` in `getPercent`, or the `TypeError` of unpacking
      the `None` that `getColorforvuln` returns for any other key. */
  datatype PieError = KeyMissing(key: string) | DivisionByZero | NoColour(key: string)

  // ----- colours -----

  // pyness3.py's table
  const PYNESS_CRITICAL := Colour(212, 63, 58, 1)
  const PYNESS_HIGH := Colour(238, 147, 54, 1)
  const PYNESS_MEDIUM := Colour(253, 196, 49, 1)
  const PYNESS_LOW := Colour(76, 174, 76, 1)
  const PYNESS_INFO := Colour(53, 122, 189, 1)

  // genSVG.py's table
  const GENSVG_CRITICAL := Colour(229, 71, 97, 1)
  const GENSVG_HIGH := Colour(7, 45, 64, 1)
  const GENSVG_MEDIUM := Colour(246, 162, 72, 1)
  const GENSVG_LOW := Colour(112, 162, 136, 1)
  const GENSVG_INFO := Colour(0, 176, 240, 1)

  /** `getColorforvuln`: a fixed colour with alpha 1 for each of the five
      names, nothing for any other name. */
  function ColourFor(palette: Palette, name: string): (c: Option<Colour>)
    ensures c.Some? <==> name in SLICE_KEYS
    ensures c.Some? ==> c.value.alpha == 1 && c.value.red <= 255 && c.value.green <= 255 && c.value.blue <= 255
  {
    if name == CRITICAL_KEY then Some(if palette == PynessColours then PYNESS_CRITICAL else GENSVG_CRITICAL)
    else if name == HIGH_KEY then Some(if palette == PynessColours then PYNESS_HIGH else GENSVG_HIGH)
    else if name == MEDIUM_KEY then Some(if palette == PynessColours then PYNESS_MEDIUM else GENSVG_MEDIUM)
    else if name == LOW_KEY then Some(if palette == PynessColours then PYNESS_LOW else GENSVG_LOW)
    else if name == INFO_KEY then Some(if palette == PynessColours then PYNESS_INFO else GENSVG_INFO)
    else None
  }

  /** Within one palette the five slices have five different colours. */
  lemma ColoursDistinct(palette: Palette, a: string, b: string)
    requires a in SLICE_KEYS && b in SLICE_KEYS && a != b
    ensures ColourFor(palette, a) != ColourFor(palette, b)
  {
  }

  // ----- getPercent -----

  /** Python's `int()` on a number: truncation toward zero. */
  function Trunc(x: real): (n: int)
    ensures 0.0 <= x ==> n as real <= x < n as real + 1.0
    ensures x < 0.0 ==> n as real - 1.0 < x <= n as real
  {
    if 0.0 <= x then x.Floor else -((-x).Floor)
  }

  /** `getPercent`: the share of `total` that `num` is, in degrees; a zero
      total raises. */
  function Percent(num: int, total: int): (r: Result<real, PieError>)
    ensures r.Err? <==> total == 0
    ensures r.Err? ==> r.error == DivisionByZero
    ensures r.Ok? ==> r.value * (total as real) == (num as real) * 360.0
  {
    if total == 0 then Err(DivisionByZero)
    else Ok(num as real / total as real * 360.0)
  }

  // ----- the stats dictionary -----

  /** A Python dict from names to numbers: its keys in insertion order
      and its entries. */
  class Stats {
    var keys: seq<string>
    var values: map<string, real>

    ghost predicate Valid()
      reads this
    {
      && (forall k :: k in values <==> k in keys)
      && (forall i, j :: 0 <= i < j < |keys| ==> keys[i] != keys[j])
    }

    /** A dictionary display: `keys` in the order written, without
        repeats, each with its entry in `values`. */
    constructor (keys: seq<string>, values: map<string, real>)
      requires forall k :: k in values <==> k in keys
      requires forall i, j :: 0 <= i < j < |keys| ==> keys[i] != keys[j]
      ensures Valid() && this.keys == keys && this.values == values
    {
      this.keys := keys;
      this.values := values;
    }

    /** `stats[key] = value`: a new key goes last in the order, an
        existing key keeps its place. */
    method Set(key: string, value: real)
      requires Valid()
      modifies this
      ensures Valid()
      ensures values == old(values)[key := value]
      ensures keys == if key in old(keys) then old(keys) else old(keys) + [key]
    {
      if key !in keys {
        keys := keys + [key];
      }
      values := values[key := value];
    }
  }

  lemma SumRSnoc(xs: seq<real>, j: nat)
    requires j < |xs|
    ensures SumR(xs[..j + 1]) == SumR(xs[..j]) + xs[j]
  {
    assert xs[..j + 1][..j] == xs[..j];
  }

  /** The entries of `values` listed in the order of `keys`. */
  function ValuesAt(keys: seq<string>, values: map<string, real>): (vs: seq<real>)
    requires forall k :: k in keys ==> k in values
    ensures |vs| == |keys|
    ensures forall i :: 0 <= i < |keys| ==> vs[i] == values[keys[i]]
  {
    seq(|keys|, i requires 0 <= i < |keys| => values[keys[i]])
  }

  /** The total of the first loop of `draw_pieChart`: `int()` of every
      entry, summed in key order. */
  function CountTotal(keys: seq<string>, values: map<string, real>): int
    requires forall k :: k in keys ==> k in values
  {
    if |keys| == 0 then 0
    else CountTotal(keys[..|keys| - 1], values) + Trunc(values[keys[|keys| - 1]])
  }

  function SumR(xs: seq<real>): real
  {
    if |xs| == 0 then 0.0 else SumR(xs[..|xs| - 1]) + xs[|xs| - 1]
  }

  /** One `getPercent(int(stats[name]), totalVuln)` call, with the lookup
      that may raise first. */
  function SweepOf(name: string, values: map<string, real>, total: int): Result<real, PieError>
  {
    if name !in values then Err(KeyMissing(name))
    else Percent(Trunc(values[name]), total)
  }

  /** The sweeps of `names`, computed in order; the first failure wins. */
  function Sweeps(names: seq<string>, values: map<string, real>, total: int): (r: Result<seq<real>, PieError>)
    ensures r.Ok? ==> |r.value| == |names|
    ensures r.Ok? ==> forall n :: n in names ==> n in values
  {
    if |names| == 0 then Ok([])
    else match SweepOf(names[0], values, total)
      case Err(e) => Err(e)
      case Ok(p) =>
        match Sweeps(names[1..], values, total)
        case Err(e) => Err(e)
        case Ok(ps) => Ok([p] + ps)
  }

  /** The index of the first name without an entry, or `|names|`. */
  function FirstMissing(names: seq<string>, values: map<string, real>): (m: nat)
    ensures m <= |names|
    ensures forall i :: 0 <= i < m ==> names[i] in values
    ensures m < |names| ==> names[m] !in values
  {
    if |names| == 0 then 0
    else if names[0] !in values then 0
    else 1 + FirstMissing(names[1..], values)
  }

  /** Every name's share of `total` in degrees. */
  function Proportional(names: seq<string>, values: map<string, real>, total: int): (ps: seq<real>)
    requires forall k :: k in names ==> k in values
    requires total != 0
    ensures |ps| == |names|
  {
    seq(|names|, i requires 0 <= i < |names| => Trunc(values[names[i]]) as real / total as real * 360.0)
  }

  /** Each sweep times the total is its count times 360 degrees, so a
      zero count has a zero sweep. */
  lemma ProportionalShares(names: seq<string>, values: map<string, real>, total: int)
    requires forall k :: k in names ==> k in values
    requires total != 0
    ensures var ps := Proportional(names, values, total);
      forall i :: 0 <= i < |names| ==> ps[i] * (total as real) == Trunc(values[names[i]]) as real * 360.0
    ensures var ps := Proportional(names, values, total);
      forall i :: 0 <= i < |names| && Trunc(values[names[i]]) == 0 ==> ps[i] == 0.0
  {
  }

  /** What computing the sweeps of `names` in order yields: a `KeyError`
      if the first name is missing; otherwise a division error if the
      total is zero; otherwise a `KeyError` for the first missing name,
      or every name's share of 360 degrees. */
  lemma {:induction false} SweepsOutcome(names: seq<string>, values: map<string, real>, total: int)
    ensures var m := FirstMissing(names, values);
      Sweeps(names, values, total) ==
        if |names| == 0 then Ok([])
        else if m == 0 then Err(KeyMissing(names[0]))
        else if total == 0 then Err(DivisionByZero)
        else if m < |names| then Err(KeyMissing(names[m]))
        else Ok(Proportional(names, values, total))
    decreases |names|
  {
    if |names| > 0 && names[0] in values && total != 0 {
      var rest := names[1..];
      SweepsOutcome(rest, values, total);
      if FirstMissing(rest, values) == |rest| {
        var p := Trunc(values[names[0]]) as real / total as real * 360.0;
        var ps, qs := Proportional(rest, values, total), Proportional(names, values, total);
        assert Sweeps(names, values, total) == Ok([p] + ps);
        assert forall i :: 0 <= i < |ps| ==> qs[i + 1] == ps[i];
        assert [p] + ps == qs;
      }
    }
  }

  /** The dictionary after the five in-place assignments. */
  function Overwrite(values: map<string, real>, ps: seq<real>): map<string, real>
    requires |ps| == 5
  {
    values[CRITICAL_KEY := ps[0]][HIGH_KEY := ps[1]][MEDIUM_KEY := ps[2]][LOW_KEY := ps[3]][INFO_KEY := ps[4]]
  }

  /** The index of the first key without a colour, or `|keys|`. */
  function FirstUncoloured(keys: seq<string>, palette: Palette): (m: nat)
    ensures m <= |keys|
    ensures forall i :: 0 <= i < m ==> ColourFor(palette, keys[i]).Some?
    ensures m < |keys| ==> ColourFor(palette, keys[m]).None?
  {
    if |keys| == 0 then 0
    else if ColourFor(palette, keys[0]).None? then 0
    else 1 + FirstUncoloured(keys[1..], palette)
  }

  /** The sector of the `i`-th key: it starts where the sweeps of the
      earlier keys end. */
  function SectorAt(keys: seq<string>, sweeps: seq<real>, palette: Palette, i: int): Sector
    requires 0 <= i < |keys| == |sweeps| && ColourFor(palette, keys[i]).Some?
  {
    Sector(keys[i], SumR(sweeps[..i]), SumR(sweeps[..i]) + sweeps[i], ColourFor(palette, keys[i]).value)
  }

  /** The second loop of `draw_pieChart`: one sector per key in key
      order, or the error of the first key without a colour. */
  function Layout(keys: seq<string>, sweeps: seq<real>, palette: Palette): Result<seq<Sector>, PieError>
    requires |keys| == |sweeps|
  {
    var m := FirstUncoloured(keys, palette);
    if m < |keys| then Err(NoColour(keys[m]))
    else Ok(seq(|keys|, i requires 0 <= i < |keys| => SectorAt(keys, sweeps, palette, i)))
  }

  /** The entries after `draw_pieChart`: overwritten with the sweeps once
      all five were computed, untouched if computing them raised. */
  function AfterDraw(keys: seq<string>, values: map<string, real>): map<string, real>
    requires forall k :: k in keys ==> k in values
  {
    match Sweeps(SLICE_KEYS, values, CountTotal(keys, values))
    case Err(_) => values
    case Ok(ps) => Overwrite(values, ps)
  }

  /** What `draw_pieChart` yields: the first error it raises, or its
      sectors. */
  function DrawOutcome(keys: seq<string>, values: map<string, real>, palette: Palette): Result<seq<Sector>, PieError>
    requires forall k :: k in keys ==> k in values
  {
    match Sweeps(SLICE_KEYS, values, CountTotal(keys, values))
    case Err(e) => Err(e)
    case Ok(ps) => Layout(keys, ValuesAt(keys, Overwrite(values, ps)), palette)
  }

  /** `draw_pieChart`: sum the counts, compute the five sweeps, overwrite
      the caller's entries with them and lay out the sectors. */
  method DrawPieChart(stats: Stats, palette: Palette) returns (res: Result<seq<Sector>, PieError>)
    requires stats.Valid()
    modifies stats
    ensures stats.Valid() && stats.keys == old(stats.keys)
    ensures stats.values == AfterDraw(old(stats.keys), old(stats.values))
    ensures res == DrawOutcome(old(stats.keys), old(stats.values), palette)
  {
    var total := SumCounts(stats);
    var sweeps := FiveSweeps(stats, total);
    if sweeps.Err? {
      return Err(sweeps.error);
    }
    var ps := sweeps.value;
    ghost var keys := stats.keys;
    stats.Set(CRITICAL_KEY, ps[0]);
    stats.Set(HIGH_KEY, ps[1]);
    stats.Set(MEDIUM_KEY, ps[2]);
    stats.Set(LOW_KEY, ps[3]);
    stats.Set(INFO_KEY, ps[4]);
    assert stats.keys == keys;
    assert stats.values == Overwrite(old(stats.values), ps);
    res := LayOut(stats, palette);
  }

  /** The first loop of `draw_pieChart`. */
  method SumCounts(stats: Stats) returns (total: int)
    requires stats.Valid()
    ensures total == CountTotal(stats.keys, stats.values)
  {
    var keys, values := stats.keys, stats.values;
    total := 0;
    var i := 0;
    while i < |keys|
      invariant 0 <= i <= |keys|
      invariant total == CountTotal(keys[..i], values)
    {
      assert keys[..i + 1][..i] == keys[..i];
      total := total + Trunc(values[keys[i]]);
      i := i + 1;
    }
    assert keys[..|keys|] == keys;
  }

  /** The five `getPercent` calls of `draw_pieChart`, critical first; the
      first lookup or division that raises stops them. */
  method FiveSweeps(stats: Stats, total: int) returns (r: Result<seq<real>, PieError>)
    ensures r == Sweeps(SLICE_KEYS, stats.values, total)
  {
    var values := stats.values;
    SweepsOutcome(SLICE_KEYS, values, total);
    var critical := SweepOf(CRITICAL_KEY, values, total);
    if critical.Err? {
      return Err(critical.error);
    }
    var high := SweepOf(HIGH_KEY, values, total);
    if high.Err? {
      assert FirstMissing(SLICE_KEYS, values) == 1;
      return Err(high.error);
    }
    var medium := SweepOf(MEDIUM_KEY, values, total);
    if medium.Err? {
      assert SLICE_KEYS[0] in values && SLICE_KEYS[1] in values && SLICE_KEYS[2] !in values;
      assert FirstMissing(SLICE_KEYS, values) == 2;
      return Err(medium.error);
    }
    var low := SweepOf(LOW_KEY, values, total);
    if low.Err? {
      assert SLICE_KEYS[2] in values && SLICE_KEYS[3] !in values;
      assert FirstMissing(SLICE_KEYS, values) == 3;
      return Err(low.error);
    }
    var info := SweepOf(INFO_KEY, values, total);
    if info.Err? {
      assert SLICE_KEYS[3] in values && SLICE_KEYS[4] !in values;
      assert FirstMissing(SLICE_KEYS, values) == 4;
      return Err(info.error);
    }
    assert FirstMissing(SLICE_KEYS, values) == 5;
    r := Ok([critical.value, high.value, medium.value, low.value, info.value]);
    assert r.value == Proportional(SLICE_KEYS, values, total);
  }

  /** The second loop of `draw_pieChart`: walk the keys with a running
      `lastPoint`. */
  method LayOut(stats: Stats, palette: Palette) returns (res: Result<seq<Sector>, PieError>)
    requires stats.Valid()
    ensures res == Layout(stats.keys, ValuesAt(stats.keys, stats.values), palette)
  {
    var keys, values := stats.keys, stats.values;
    ghost var sweeps := ValuesAt(keys, values);
    var sectors: seq<Sector> := [];
    var lastPoint := 0.0;
    var j := 0;
    while j < |keys|
      invariant j <= |keys| && j == |sectors|
      invariant LaidOut(keys, sweeps, palette, sectors, lastPoint)
    {
      var statPoint := values[keys[j]];
      var start := lastPoint;
      var end := statPoint + start;
      var colour := ColourFor(palette, keys[j]);
      if colour.None? {
        LaidOutStuck(keys, sweeps, palette, sectors, lastPoint);
        return Err(NoColour(keys[j]));
      }
      LaidOutStep(keys, sweeps, palette, sectors, lastPoint, colour.value);
      sectors := sectors + [Sector(keys[j], start, end, colour.value)];
      lastPoint := lastPoint + statPoint;
      j := j + 1;
    }
    LaidOutDone(keys, sweeps, palette, sectors, lastPoint);
    res := Ok(sectors);
  }

  /** The state of the sector loop: one sector per key walked so far, and
      `lastPoint` at the end of the last of them. */
  ghost predicate LaidOut(keys: seq<string>, sweeps: seq<real>, palette: Palette, sectors: seq<Sector>, lastPoint: real)
  {
    && |sectors| <= |keys| == |sweeps|
    && lastPoint == SumR(sweeps[..|sectors|])
    && (forall q :: 0 <= q < |sectors| ==> ColourFor(palette, keys[q]).Some?)
    && (forall q :: 0 <= q < |sectors| ==> sectors[q] == SectorAt(keys, sweeps, palette, q))
  }

  lemma LaidOutStep(keys: seq<string>, sweeps: seq<real>, palette: Palette, sectors: seq<Sector>, lastPoint: real, colour: Colour)
    requires LaidOut(keys, sweeps, palette, sectors, lastPoint)
    requires |sectors| < |keys| && ColourFor(palette, keys[|sectors|]) == Some(colour)
    ensures var j := |sectors|;
      LaidOut(keys, sweeps, palette, sectors + [Sector(keys[j], lastPoint, sweeps[j] + lastPoint, colour)], lastPoint + sweeps[j])
  {
    SumRSnoc(sweeps, |sectors|);
  }

  lemma LaidOutStuck(keys: seq<string>, sweeps: seq<real>, palette: Palette, sectors: seq<Sector>, lastPoint: real)
    requires LaidOut(keys, sweeps, palette, sectors, lastPoint)
    requires |sectors| < |keys| && ColourFor(palette, keys[|sectors|]).None?
    ensures Layout(keys, sweeps, palette) == Err(NoColour(keys[|sectors|]))
  {
    assert FirstUncoloured(keys, palette) == |sectors|;
  }

  lemma LaidOutDone(keys: seq<string>, sweeps: seq<real>, palette: Palette, sectors: seq<Sector>, lastPoint: real)
    requires LaidOut(keys, sweeps, palette, sectors, lastPoint) && |sectors| == |keys|
    ensures Layout(keys, sweeps, palette) == Ok(sectors)
  {
    assert FirstUncoloured(keys, palette) == |keys|;
    var all := seq(|keys|, i requires 0 <= i < |keys| => SectorAt(keys, sweeps, palette, i));
    assert forall i :: 0 <= i < |keys| ==> all[i] == sectors[i];
    assert all == sectors;
  }

  // ----- what the sectors satisfy -----

  /** Laid-out sectors follow the keys, one each, and each spans exactly
      its key's sweep in its key's colour. */
  lemma SectorsSpan(keys: seq<string>, sweeps: seq<real>, palette: Palette, s: seq<Sector>)
    requires |keys| == |sweeps| && Layout(keys, sweeps, palette) == Ok(s)
    ensures |s| == |keys|
    ensures forall i :: 0 <= i < |s| ==> s[i].key == keys[i] && s[i].end == s[i].start + sweeps[i]
    ensures forall i :: 0 <= i < |s| ==> Some(s[i].colour) == ColourFor(palette, keys[i])
    ensures forall i :: 0 <= i < |s| ==> s[i].start == SumR(sweeps[..i])
  {
    assert FirstUncoloured(keys, palette) == |keys|;
  }

  /** Laid-out sectors are contiguous: the first starts at 0, each starts
      where the previous one ends, and the last ends at the sum of the
      sweeps. */
  lemma SectorsContiguous(keys: seq<string>, sweeps: seq<real>, palette: Palette, s: seq<Sector>)
    requires |keys| == |sweeps| && Layout(keys, sweeps, palette) == Ok(s)
    ensures |s| > 0 ==> s[0].start == 0.0
    ensures forall i :: 0 <= i < |s| - 1 ==> s[i + 1].start == s[i].end
    ensures |s| > 0 ==> s[|s| - 1].end == SumR(sweeps)
  {
    SectorsSpan(keys, sweeps, palette, s);
    PrefixSectorsAbut(sweeps, s);
  }

  /** Sectors that start at the running sum of the sweeps before them
      and span their own sweep abut one another and end at the total. */
  lemma PrefixSectorsAbut(sweeps: seq<real>, s: seq<Sector>)
    requires |s| == |sweeps|
    requires forall i :: 0 <= i < |s| ==> s[i].start == SumR(sweeps[..i]) && s[i].end == s[i].start + sweeps[i]
    ensures |s| > 0 ==> s[0].start == 0.0
    ensures forall i :: 0 <= i < |s| - 1 ==> s[i + 1].start == s[i].end
    ensures |s| > 0 ==> s[|s| - 1].end == SumR(sweeps)
  {
    forall i | 0 <= i < |s| - 1
      ensures s[i + 1].start == s[i].end
    {
      SumRSnoc(sweeps, i);
    }
    if |s| > 0 {
      SumRSnoc(sweeps, |s| - 1);
      assert sweeps[..|s|] == sweeps;
    }
  }

  /** Laying out succeeds exactly when every key is one of the five
      names. */
  lemma LayoutOkIffFiveNames(keys: seq<string>, sweeps: seq<real>, palette: Palette)
    requires |keys| == |sweeps|
    ensures Layout(keys, sweeps, palette).Ok? <==> forall k :: k in keys ==> k in SLICE_KEYS
  {
    var m := FirstUncoloured(keys, palette);
    if m < |keys| {
      assert keys[m] in keys && keys[m] !in SLICE_KEYS;
    }
  }

  /** The total over the five keys, in the order both callers insert
      them. */
  lemma CountTotalFive(values: map<string, real>)
    requires forall k :: k in SLICE_KEYS ==> k in values
    ensures CountTotal(SLICE_KEYS, values)
      == Trunc(values[CRITICAL_KEY]) + Trunc(values[HIGH_KEY]) + Trunc(values[MEDIUM_KEY])
       + Trunc(values[LOW_KEY]) + Trunc(values[INFO_KEY])
  {
    var k4, k3, k2, k1 := SLICE_KEYS[..4], SLICE_KEYS[..3], SLICE_KEYS[..2], SLICE_KEYS[..1];
    assert k4[..3] == k3 && k3[..2] == k2 && k2[..1] == k1 && k1[..0] == [];
    assert CountTotal(SLICE_KEYS, values) == CountTotal(k4, values) + Trunc(values[INFO_KEY]);
    assert CountTotal(k4, values) == CountTotal(k3, values) + Trunc(values[LOW_KEY]);
    assert CountTotal(k3, values) == CountTotal(k2, values) + Trunc(values[MEDIUM_KEY]);
    assert CountTotal(k2, values) == CountTotal(k1, values) + Trunc(values[HIGH_KEY]);
    assert CountTotal(k1, values) == Trunc(values[CRITICAL_KEY]);
  }

  lemma SumFive(ps: seq<real>)
    requires |ps| == 5
    ensures SumR(ps) == ps[0] + ps[1] + ps[2] + ps[3] + ps[4]
  {
    SumRSnoc(ps, 0);
    SumRSnoc(ps, 1);
    SumRSnoc(ps, 2);
    SumRSnoc(ps, 3);
    SumRSnoc(ps, 4);
    assert ps[..0] == [] && ps[..5] == ps;
  }

  /** Five shares of the same nonzero total that add up to it add up to
      360 degrees. */
  lemma SharesSumTo360(c: seq<int>, total: int)
    requires |c| == 5 && total != 0 && c[0] + c[1] + c[2] + c[3] + c[4] == total
    ensures var t := total as real;
      c[0] as real / t * 360.0 + c[1] as real / t * 360.0 + c[2] as real / t * 360.0
      + c[3] as real / t * 360.0 + c[4] as real / t * 360.0 == 360.0
  {
    var t := total as real;
    assert c[0] as real / t + c[1] as real / t + c[2] as real / t + c[3] as real / t + c[4] as real / t
      == (c[0] + c[1] + c[2] + c[3] + c[4]) as real / t;
  }

  /** With the five keys present and a nonzero total, the five sweeps
      are computed, are the counts' shares of 360 degrees, and add up to
      360. */
  lemma FiveSweepsOk(values: map<string, real>, total: int)
    requires forall k :: k in SLICE_KEYS ==> k in values
    requires total == CountTotal(SLICE_KEYS, values) != 0
    ensures Sweeps(SLICE_KEYS, values, total) == Ok(Proportional(SLICE_KEYS, values, total))
    ensures SumR(Proportional(SLICE_KEYS, values, total)) == 360.0
  {
    SweepsOutcome(SLICE_KEYS, values, total);
    assert FirstMissing(SLICE_KEYS, values) == 5;
    var ps := Proportional(SLICE_KEYS, values, total);
    CountTotalFive(values);
    SumFive(ps);
    SharesSumTo360([Trunc(values[CRITICAL_KEY]), Trunc(values[HIGH_KEY]), Trunc(values[MEDIUM_KEY]),
                    Trunc(values[LOW_KEY]), Trunc(values[INFO_KEY])], total);
  }

  /** After the five assignments the entries, read in the callers' order,
      are the sweeps. */
  lemma OverwriteFive(values: map<string, real>, ps: seq<real>)
    requires |ps| == 5
    ensures forall i :: 0 <= i < 5 ==> Overwrite(values, ps)[SLICE_KEYS[i]] == ps[i]
    ensures ValuesAt(SLICE_KEYS, Overwrite(values, ps)) == ps
  {
  }

  /** `draw_pieChart` on a dictionary holding exactly the five keys in the
      callers' order, with a nonzero total: each of the five entries is
      overwritten with its sweep, and the sectors are laid out from those
      sweeps. */
  lemma DrawFiveKeys(values: map<string, real>, palette: Palette)
    requires forall k :: k in values <==> k in SLICE_KEYS
    requires CountTotal(SLICE_KEYS, values) != 0
    ensures var ps := Proportional(SLICE_KEYS, values, CountTotal(SLICE_KEYS, values));
      && SumR(ps) == 360.0
      && (forall i :: 0 <= i < 5 ==> AfterDraw(SLICE_KEYS, values)[SLICE_KEYS[i]] == ps[i])
      && DrawOutcome(SLICE_KEYS, values, palette) == Layout(SLICE_KEYS, ps, palette)
  {
    var total := CountTotal(SLICE_KEYS, values);
    FiveSweepsOk(values, total);
    OverwriteFive(values, Proportional(SLICE_KEYS, values, total));
  }

  /** Five sweeps adding up to 360 make a full pie: the first sector
      starts at 0, each starts where the previous one ends, each spans its
      sweep, a zero sweep gives an empty sector, and the last ends at
      360. */
  lemma FullPie(ps: seq<real>, palette: Palette)
    requires |ps| == 5 && SumR(ps) == 360.0
    ensures Layout(SLICE_KEYS, ps, palette).Ok?
    ensures var s := Layout(SLICE_KEYS, ps, palette).value;
      && |s| == 5 && s[0].start == 0.0 && s[4].end == 360.0
      && (forall i :: 0 <= i < 4 ==> s[i + 1].start == s[i].end)
      && (forall i :: 0 <= i < 5 ==> s[i].key == SLICE_KEYS[i] && s[i].end == s[i].start + ps[i])
      && (forall i :: 0 <= i < 5 ==> Some(s[i].colour) == ColourFor(palette, SLICE_KEYS[i]))
      && (forall i :: 0 <= i < 5 && ps[i] == 0.0 ==> s[i].start == s[i].end)
  {
    LayoutOkIffFiveNames(SLICE_KEYS, ps, palette);
    var s := Layout(SLICE_KEYS, ps, palette).value;
    SectorsSpan(SLICE_KEYS, ps, palette, s);
    SectorsContiguous(SLICE_KEYS, ps, palette, s);
  }

  /** `draw_pieChart` looks up `critical` before anything else: without
      it, it raises a `KeyError` and leaves the dictionary as it was. */
  lemma MissingCriticalFailsFirst(keys: seq<string>, values: map<string, real>, palette: Palette)
    requires forall k :: k in keys ==> k in values
    requires CRITICAL_KEY !in values
    ensures DrawOutcome(keys, values, palette) == Err(KeyMissing(CRITICAL_KEY))
    ensures AfterDraw(keys, values) == values
  {
  }

  /** With `critical` present and a zero total, the first division
      raises and the dictionary is left as it was. */
  lemma ZeroTotalFails(keys: seq<string>, values: map<string, real>, palette: Palette)
    requires forall k :: k in keys ==> k in values
    requires CRITICAL_KEY in values && CountTotal(keys, values) == 0
    ensures DrawOutcome(keys, values, palette) == Err(DivisionByZero)
    ensures AfterDraw(keys, values) == values
  {
  }

  /** With the five keys present and a nonzero total, the five entries
      are overwritten with their sweeps whatever happens next, and a key
      outside the five then makes the sector loop raise at the first
      such key. */
  lemma UnknownKeyFailsAfterOverwrite(keys: seq<string>, values: map<string, real>, palette: Palette)
    requires forall k :: k in keys ==> k in values
    requires forall n :: n in SLICE_KEYS ==> n in values
    requires CountTotal(keys, values) != 0
    ensures AfterDraw(keys, values) == Overwrite(values, Proportional(SLICE_KEYS, values, CountTotal(keys, values)))
    ensures (exists k :: k in keys && k !in SLICE_KEYS) ==>
      DrawOutcome(keys, values, palette) == Err(NoColour(keys[FirstUncoloured(keys, palette)]))
  {
    var total := CountTotal(keys, values);
    SweepsOutcome(SLICE_KEYS, values, total);
    assert FirstMissing(SLICE_KEYS, values) == 5;
    var ps := Proportional(SLICE_KEYS, values, total);
    LayoutOkIffFiveNames(keys, ValuesAt(keys, Overwrite(values, ps)), palette);
  }

  const DRIVER_INPUT: map<string, real> :=
    map[CRITICAL_KEY := 6.0, HIGH_KEY := 2.0, MEDIUM_KEY := 3.0, LOW_KEY := 6.0, INFO_KEY := 1.0]
  const DRIVER_SWEEPS: seq<real> := [120.0, 40.0, 60.0, 120.0, 20.0]

  /** The sweeps of genSVG.py's driver input: counts 6, 2, 3, 6 and 1
      (total 18) give 120, 40, 60, 120 and 20 degrees, and these replace
      the counts. */
  lemma DriverSweeps()
    ensures CountTotal(SLICE_KEYS, DRIVER_INPUT) == 18
    ensures Proportional(SLICE_KEYS, DRIVER_INPUT, 18) == DRIVER_SWEEPS
    ensures AfterDraw(SLICE_KEYS, DRIVER_INPUT) == Overwrite(DRIVER_INPUT, DRIVER_SWEEPS)
  {
    var v := DRIVER_INPUT;
    assert v[CRITICAL_KEY] == 6.0 && v[HIGH_KEY] == 2.0 && v[MEDIUM_KEY] == 3.0 && v[LOW_KEY] == 6.0 && v[INFO_KEY] == 1.0;
    assert Trunc(6.0) == 6 && Trunc(2.0) == 2 && Trunc(3.0) == 3 && Trunc(1.0) == 1;
    CountTotalFive(v);
    var ps := Proportional(SLICE_KEYS, v, 18);
    assert ps[0] == 120.0 && ps[1] == 40.0 && ps[2] == 60.0 && ps[3] == 120.0 && ps[4] == 20.0;
    assert ps == [ps[0], ps[1], ps[2], ps[3], ps[4]];
    FiveSweepsOk(v, 18);
  }

  /** The sectors genSVG.py draws for its driver input are laid out from
      those sweeps. */
  lemma DriverPie()
    ensures DrawOutcome(SLICE_KEYS, DRIVER_INPUT, GenSvgColours) == Layout(SLICE_KEYS, DRIVER_SWEEPS, GenSvgColours)
  {
    DriverSweeps();
    DrawFiveKeys(DRIVER_INPUT, GenSvgColours);
  }

  /** The sectors for the driver's sweeps: [0, 120], [120, 160],
      [160, 220], [220, 340] and [340, 360] degrees, in genSVG.py's
      colours. */
  lemma DriverSectors()
    ensures Layout(SLICE_KEYS, DRIVER_SWEEPS, GenSvgColours)
         == Ok([Sector(CRITICAL_KEY, 0.0, 120.0, GENSVG_CRITICAL),
                Sector(HIGH_KEY, 120.0, 160.0, GENSVG_HIGH),
                Sector(MEDIUM_KEY, 160.0, 220.0, GENSVG_MEDIUM),
                Sector(LOW_KEY, 220.0, 340.0, GENSVG_LOW),
                Sector(INFO_KEY, 340.0, 360.0, GENSVG_INFO)])
  {
    var ps := DRIVER_SWEEPS;
    SumFive(ps);
    FullPie(ps, GenSvgColours);
    var s := Layout(SLICE_KEYS, ps, GenSvgColours).value;
    assert s == [s[0], s[1], s[2], s[3], s[4]];
  }

  // ----- the callers' dictionaries -----

  /** The dictionary `{"critical": .., "high": .., "medium": .., "low": ..,
      "info": ..}` built from five counters. */
  function TallyValues(t: Tally): map<string, real>
  {
    map[CRITICAL_KEY := t.critical as real, HIGH_KEY := t.high as real, MEDIUM_KEY := t.medium as real,
        LOW_KEY := t.low as real, INFO_KEY := t.info as real]
  }

  /** The five keys are distinct and are the keys of the callers'
      dictionary. */
  lemma TallyValuesKeys(t: Tally)
    ensures forall i, j :: 0 <= i < j < |SLICE_KEYS| ==> SLICE_KEYS[i] != SLICE_KEYS[j]
    ensures forall k :: k in TallyValues(t) <==> k in SLICE_KEYS
  {
    KeysDistinct();
  }

  /** The counts of a tally, in the callers' key order. */
  function CountsInOrder(t: Tally): seq<nat>
  {
    [t.critical, t.high, t.medium, t.low, t.info]
  }

  lemma TallyValuesLookup(t: Tally)
    ensures forall i :: 0 <= i < 5 ==> SLICE_KEYS[i] in TallyValues(t)
    ensures forall i :: 0 <= i < 5 ==> Trunc(TallyValues(t)[SLICE_KEYS[i]]) == CountsInOrder(t)[i]
  {
    KeysDistinct();
    var v, c := TallyValues(t), CountsInOrder(t);
    assert v[CRITICAL_KEY] == c[0] as real && v[HIGH_KEY] == c[1] as real && v[MEDIUM_KEY] == c[2] as real;
    assert v[LOW_KEY] == c[3] as real && v[INFO_KEY] == c[4] as real;
    assert Trunc(c[0] as real) == c[0] && Trunc(c[1] as real) == c[1] && Trunc(c[2] as real) == c[2];
    assert Trunc(c[3] as real) == c[3] && Trunc(c[4] as real) == c[4];
  }

  /** The sweeps of five counters against any nonzero total are their
      shares of 360 degrees. */
  lemma SharesOfTally(t: Tally, total: int)
    requires total != 0
    ensures forall k :: k in SLICE_KEYS ==> k in TallyValues(t)
    ensures var ps := Proportional(SLICE_KEYS, TallyValues(t), total);
      forall i :: 0 <= i < 5 ==> ps[i] == CountsInOrder(t)[i] as real / total as real * 360.0
  {
    TallyValuesLookup(t);
    TallyValuesKeys(t);
  }

  /** `draw_pieChart` on five counters: the total is the tally's total,
      so a tally with no findings raises a division error, and otherwise
      every sweep is its counter's share of 360 degrees. */
  lemma TallyPie(t: Tally, palette: Palette)
    ensures CountTotal(SLICE_KEYS, TallyValues(t)) == t.Total()
    ensures t.Total() == 0 ==> DrawOutcome(SLICE_KEYS, TallyValues(t), palette) == Err(DivisionByZero)
    ensures t.Total() != 0 ==>
      var ps := Proportional(SLICE_KEYS, TallyValues(t), t.Total());
      && SumR(ps) == 360.0
      && (forall i :: 0 <= i < 5 ==> ps[i] == CountsInOrder(t)[i] as real / t.Total() as real * 360.0)
      && DrawOutcome(SLICE_KEYS, TallyValues(t), palette) == Layout(SLICE_KEYS, ps, palette)
  {
    var v := TallyValues(t);
    TallyValuesLookup(t);
    TallyValuesKeys(t);
    CountTotalFive(v);
    assert CountTotal(SLICE_KEYS, v) == t.Total();
    if t.Total() == 0 {
      ZeroTotalFails(SLICE_KEYS, v, palette);
    } else {
      DrawFiveKeys(v, palette);
      var ps := Proportional(SLICE_KEYS, v, t.Total());
    }
  }

  /** The counters the per-host page passes as written: four counters
      and, under "info", the host's total. */
  function AsWrittenHostPieTally(h: Host): Tally
    reads h
  {
    Tally(h.criticalCount, h.highCount, h.mediumCount, h.lowCount, h.totalCount)
  }

  /** As written, the per-host pie counts every finding twice, so its
      "info" slice takes at least half of the pie whatever the host's
      findings are. */
  lemma AsWrittenHostPieInfoAtLeastHalf(h: Host, palette: Palette)
    requires h.Valid() && h.totalCount > 0
    ensures var u := AsWrittenHostPieTally(h);
      && u.Total() == 2 * h.totalCount - h.infoCount
      && Proportional(SLICE_KEYS, TallyValues(u), u.Total())[4] >= 180.0
  {
    var u := AsWrittenHostPieTally(h);
    TallyPie(u, palette);
    AtLeastHalf(h.totalCount as real, u.Total() as real);
  }

  lemma AtLeastHalf(a: real, b: real)
    requires 0.0 < b <= 2.0 * a
    ensures a / b * 360.0 >= 180.0
  {
    var q := a / b;
    assert q * b == a;
  }

  /** As written, a host with a single critical finding passes the
      counters 1, 0, 0, 0, 1: its pie is half critical and half info,
      where it should be all critical. */
  lemma AsWrittenHostPieSingleCritical(h: Host)
    requires h.Valid() && h.Counts() == Tally(1, 0, 0, 0, 0)
    ensures var u := AsWrittenHostPieTally(h);
      && u == Tally(1, 0, 0, 0, 1)
      && Proportional(SLICE_KEYS, TallyValues(u), 2) == [180.0, 0.0, 0.0, 0.0, 180.0]
  {
    var u := AsWrittenHostPieTally(h);
    SharesOfTally(u, 2);
    var ps := Proportional(SLICE_KEYS, TallyValues(u), 2);
    assert ps == [ps[0], ps[1], ps[2], ps[3], ps[4]];
  }

  /** With the info count under "info", that host's pie is all
      critical. */
  lemma HostPieSingleCritical(h: Host)
    requires h.Valid() && h.Counts() == Tally(1, 0, 0, 0, 0)
    ensures h.totalCount == 1
    ensures Proportional(SLICE_KEYS, TallyValues(h.Counts()), 1) == [360.0, 0.0, 0.0, 0.0, 0.0]
  {
    SharesOfTally(h.Counts(), 1);
    var qs := Proportional(SLICE_KEYS, TallyValues(h.Counts()), 1);
    assert qs == [qs[0], qs[1], qs[2], qs[3], qs[4]];
  }

  /** What drawing the dictionary literal of five counters yields in
      pyness3.py's colours; `TallyPie` states what that is. */
  function PieOfCounts(t: Tally): Result<seq<Sector>, PieError>
  {
    TallyValuesKeys(t);
    DrawOutcome(SLICE_KEYS, TallyValues(t), PynessColours)
  }

  /** The dictionary literal of five counters, drawn in pyness3.py's
      colours. */
  method CountsPie(t: Tally) returns (res: Result<seq<Sector>, PieError>)
    ensures res == PieOfCounts(t)
  {
    TallyValuesKeys(t);
    var stats := new Stats(SLICE_KEYS, TallyValues(t));
    res := DrawPieChart(stats, PynessColours);
  }

  /** The per-host pie, with the host's info count under "info". */
  method HostPie(h: Host) returns (res: Result<seq<Sector>, PieError>)
    ensures res == PieOfCounts(h.Counts())
  {
    res := CountsPie(h.Counts());
  }

  /** The dashboard pie: the scan totals of `getall_findingTotals`,
      drawn. */
  method DashboardPie(report: Report) returns (res: Result<seq<Sector>, PieError>)
    ensures res == PieOfCounts(TallySum(TalliesOf(report.hosts)))
  {
    var allCounts := GetAllFindingTotals(report);
    res := CountsPie(allCounts);
  }
}
