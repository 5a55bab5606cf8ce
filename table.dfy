/** The host grid of the dashboard page: `build_table_items` of pyness3.py
    turns every host into one `<td>` cell, coloured by its most severe
    non-empty counter, and groups the cells into `<tr>` rows of
    `column_length` cells. */
module Table {
  import opened Common
  import opened Severity
  import opened Hosts

  /** `range(0, n, 0)` raises ValueError: a zero column length fails
      before any row is built. */
  datatype TableError = ZeroColumnLength

  const CRITICAL_BG: string := "criticalbg"
  const HIGH_BG: string := "highbg"
  const MEDIUM_BG: string := "mediumbg"
  const LOW_BG: string := "lowbg"
  const INFO_BG: string := "infobg"

  /** The CSS class used for a host whose most severe finding is at `l`. */
  function ClassOf(l: Level): string
  {
    match l
    case Critical => CRITICAL_BG
    case High => HIGH_BG
    case Medium => MEDIUM_BG
    case Low => LOW_BG
    case Info => INFO_BG
  }

  /** The chain of `if ... continue` tests of `build_table_items`, in the
      order the code makes them. The info counter is never consulted. */
  function CellClass(critical: nat, high: nat, medium: nat, low: nat): string
  {
    if critical > 0 then CRITICAL_BG
    else if high > 0 && critical <= 0 then HIGH_BG
    else if medium > 0 && critical <= 0 && high <= 0 then MEDIUM_BG
    else if low > 0 && critical <= 0 && high <= 0 && medium <= 0 then LOW_BG
    else INFO_BG
  }

  /** A host gets the class of level `l` (Critical to Low) exactly when
      its `l` counter is non-zero and every more severe counter is zero. */
  lemma CellClassDominant(t: Tally, l: Level)
    requires l != Info
    ensures CellClass(t.critical, t.high, t.medium, t.low) == ClassOf(l)
        <==> t.CountOf(l) > 0 && forall m: Level :: Rank(m) > Rank(l) ==> t.CountOf(m) == 0
  {
    match l
    case Critical =>
    case High =>
      assert Rank(Critical) > Rank(High);
    case Medium =>
      assert Rank(Critical) > Rank(Medium) && Rank(High) > Rank(Medium);
    case Low =>
      assert Rank(Critical) > Rank(Low) && Rank(High) > Rank(Low) && Rank(Medium) > Rank(Low);
  }

  /** The fallback: "infobg" exactly when the four counters it tests are
      zero, whatever the info counter holds. */
  lemma CellClassFallback(t: Tally)
    ensures CellClass(t.critical, t.high, t.medium, t.low) == INFO_BG
        <==> t.critical == 0 && t.high == 0 && t.medium == 0 && t.low == 0
  {
  }

  /** More findings never make a cell less severe: if every counter grows,
      the class's level does not drop. */
  lemma CellClassMonotone(t: Tally, u: Tally, l: Level, m: Level)
    requires t.critical <= u.critical && t.high <= u.high && t.medium <= u.medium && t.low <= u.low
    requires CellClass(t.critical, t.high, t.medium, t.low) == ClassOf(l)
    requires CellClass(u.critical, u.high, u.medium, u.low) == ClassOf(m)
    ensures Rank(l) <= Rank(m)
  {
    match l
    case Info =>
    case Low =>
    case Medium =>
    case High =>
    case Critical =>
  }

  /** An f-string renders `None` as "None". */
  function Show(v: Option<string>): string
  {
    match v
    case None => "None"
    case Some(s) => s
  }

  /** The `TD_ROW` f-string. */
  function Cell(cls: string, filepath: Option<string>, hostname: string): string
  {
    "<td class=\"" + cls + "\"><a href=\"" + Show(filepath) + "\">" + hostname + "</a></td>"
  }

  function CellOf(h: Host): string
    reads h
  {
    Cell(CellClass(h.criticalCount, h.highCount, h.mediumCount, h.lowCount), h.reportFilepath, h.hostname)
  }

  function CellsOf(hosts: seq<Host>): seq<string>
    reads hosts
  {
    if |hosts| == 0 then [] else CellsOf(hosts[..|hosts| - 1]) + [CellOf(hosts[|hosts| - 1])]
  }

  /** Each host yields exactly one cell, in host order, whose class is that
      of the host's most severe non-empty counter among the four tested. */
  lemma {:induction false} CellsOfSpec(hosts: seq<Host>)
    ensures |CellsOf(hosts)| == |hosts|
    ensures forall i :: 0 <= i < |hosts| ==> CellsOf(hosts)[i] == CellOf(hosts[i])
    decreases |hosts|
  {
    if |hosts| > 0 {
      var p := hosts[..|hosts| - 1];
      CellsOfSpec(p);
      assert forall i :: 0 <= i < |p| ==> p[i] == hosts[i];
    }
  }

  /** `[s[i:i+k] for i in range(0, len(s), k)]`, for k > 0. */
  function Chunks(s: seq<string>, k: nat): seq<seq<string>>
    requires k > 0
    decreases |s|
  {
    if |s| == 0 then []
    else if |s| <= k then [s]
    else [s[..k]] + Chunks(s[k..], k)
  }

  function Flatten(rows: seq<seq<string>>): seq<string>
  {
    if |rows| == 0 then [] else rows[0] + Flatten(rows[1..])
  }

  /** Reading the rows left to right gives back the cells in host order:
      no cell is lost, repeated or moved. */
  lemma {:induction false} ChunksFlatten(s: seq<string>, k: nat)
    requires k > 0
    ensures Flatten(Chunks(s, k)) == s
    decreases |s|
  {
    if |s| > k {
      ChunksFlatten(s[k..], k);
      var rows := Chunks(s, k);
      assert rows[1..] == Chunks(s[k..], k);
      assert s == s[..k] + s[k..];
    } else if |s| > 0 {
      assert Chunks(s, k)[1..] == [];
    }
  }

  /** There are ceil(n/k) rows; every row but the last holds exactly k
      cells, and the last holds between 1 and k. */
  lemma {:induction false} ChunksShape(s: seq<string>, k: nat)
    requires k > 0
    ensures |Chunks(s, k)| == (|s| + k - 1) / k
    ensures forall i :: 0 <= i < |Chunks(s, k)| ==> 0 < |Chunks(s, k)[i]| <= k
    ensures forall i :: 0 <= i < |Chunks(s, k)| - 1 ==> |Chunks(s, k)[i]| == k
    decreases |s|
  {
    if |s| > k {
      ChunksShape(s[k..], k);
      var rows, rest := Chunks(s, k), Chunks(s[k..], k);
      assert rows == [s[..k]] + rest;
      assert (|s| + k - 1) / k == (|s[k..]| + k - 1) / k + 1 by {
        DivUnique(|s| + k - 1, k, (|s| - 1) / k + 1, (|s| - 1) % k);
      }
      forall i | 0 <= i < |rows|
        ensures 0 < |rows[i]| <= k && (i < |rows| - 1 ==> |rows[i]| == k)
      {
        if i > 0 {
          assert rows[i] == rest[i - 1];
        }
      }
    } else if |s| > 0 {
      assert (|s| + k - 1) / k == 1 by {
        DivUnique(|s| + k - 1, k, 1, |s| - 1);
      }
    }
  }

  lemma {:induction false} MulAtLeast(x: int, k: int)
    requires x >= 1 && k > 0
    ensures x * k >= k
    decreases x
  {
    if x > 1 {
      MulAtLeast(x - 1, k);
      assert x * k == (x - 1) * k + k;
    }
  }

  /** Euclidean division has one quotient. */
  lemma DivUnique(a: int, k: int, q: int, r: int)
    requires k > 0 && 0 <= r < k && a == q * k + r
    ensures a / k == q
  {
    var q', r' := a / k, a % k;
    assert a == q' * k + r';
    if q' > q {
      assert (q' - q) * k == q' * k - q * k;
      MulAtLeast(q' - q, k);
    } else if q' < q {
      assert (q - q') * k == q * k - q' * k;
      MulAtLeast(q - q', k);
    }
  }

  /** One pass of the chunking loop: the rows from offset `i` are the
      slice `s[i:i+k]` followed by the rows from `i + k`. */
  lemma ChunksFrom(s: seq<string>, k: nat, i: nat)
    requires k > 0 && i < |s|
    ensures var j := if i + k < |s| then i + k else |s|;
      Chunks(s[i..], k) == [s[i..j]] + Chunks(s[j..], k)
  {
    var j := if i + k < |s| then i + k else |s|;
    if i + k < |s| {
      assert s[i..][..k] == s[i..j];
      assert s[i..][k..] == s[j..];
    } else {
      assert s[i..] == s[i..j];
      assert s[j..] == [];
    }
  }

  /** `f"<tr>{td}</tr>"`. */
  function Wrap(td: string): string
  {
    "<tr>" + td + "</tr>"
  }

  /** One table row: the joined cells of a chunk, wrapped. */
  function Row(cells: seq<string>): string
  {
    Wrap(Join(cells))
  }

  function Rows(chunks: seq<seq<string>>): (rs: seq<string>)
    ensures |rs| == |chunks|
    ensures forall i :: 0 <= i < |chunks| ==> rs[i] == Row(chunks[i])
  {
    if |chunks| == 0 then [] else [Row(chunks[0])] + Rows(chunks[1..])
  }

  /** `''.join` applied to every chunk. */
  function JoinEach(chunks: seq<seq<string>>): seq<string>
  {
    if |chunks| == 0 then [] else [Join(chunks[0])] + JoinEach(chunks[1..])
  }

  lemma {:induction false} JoinEachSpec(chunks: seq<seq<string>>)
    ensures |JoinEach(chunks)| == |chunks|
    ensures forall i :: 0 <= i < |chunks| ==> JoinEach(chunks)[i] == Join(chunks[i])
    decreases |chunks|
  {
    if |chunks| > 0 {
      JoinEachSpec(chunks[1..]);
    }
  }

  /** What `build_table_items` returns for these cells: one `<tr>` per
      chunk, joined; a negative column length yields no rows at all, and
      zero fails. */
  function TableHtml(cells: seq<string>, columnLength: int): Result<string, TableError>
  {
    if columnLength == 0 then Err(ZeroColumnLength)
    else if columnLength < 0 then Ok("")
    else Ok(Join(Rows(Chunks(cells, columnLength))))
  }

  /** The `allTd_bysix` loop of `build_table_items`: for each `i` of
      `range(0, len(allTds), k)`, the slice `allTds[i:i+k]` joined. */
  method ChunkCells(allTds: seq<string>, k: nat) returns (allTdBysix: seq<string>)
    requires k > 0
    ensures allTdBysix == JoinEach(Chunks(allTds, k))
  {
    var n := |allTds|;
    allTdBysix := [];
    var i: nat := 0;
    while i < n
      invariant i < n + k
      invariant allTdBysix + JoinEach(Chunks(allTds[(if i < n then i else n)..], k)) == JoinEach(Chunks(allTds, k))
      decreases n - i
    {
      var j := if i + k < n then i + k else n;
      var hns := Join(allTds[i..j]);
      ghost var rest := Chunks(allTds[j..], k);
      ChunksFrom(allTds, k, i);
      assert JoinEach([allTds[i..j]] + rest) == [hns] + JoinEach(rest) by {
        assert ([allTds[i..j]] + rest)[1..] == rest;
      }
      allTdBysix := allTdBysix + [hns];
      i := i + k;
      assert (if i < n then i else n) == j;
    }
    assert allTds[n..] == [];
  }

  /** The `final` loop of `build_table_items`: every joined chunk wrapped
      in `<tr>`, in order. */
  method WrapRows(allTdBysix: seq<string>) returns (final: seq<string>)
    ensures |final| == |allTdBysix|
    ensures forall q :: 0 <= q < |final| ==> final[q] == Wrap(allTdBysix[q])
  {
    final := [];
    var r := 0;
    while r < |allTdBysix|
      invariant 0 <= r <= |allTdBysix|
      invariant |final| == r
      invariant forall q :: 0 <= q < r ==> final[q] == Wrap(allTdBysix[q])
    {
      final := final + [Wrap(allTdBysix[r])];
      r := r + 1;
    }
  }

  /** `build_table_items`: one cell per host of `uniq_hosts_from_report`,
      classed by the `if ... continue` chain, then the cells are cut into
      slices of `column_length` with `range(0, len(allTds), column_length)`,
      each slice joined and wrapped in `<tr>`, and the rows joined. */
  method BuildTableItems(report: Report, columnLength: int) returns (res: Result<string, TableError>)
    ensures res == TableHtml(CellsOf(report.hosts), columnLength)
  {
    var uniqHosts := UniqueHosts(report);
    var allTds: seq<string> := [];
    var h := 0;
    while h < |uniqHosts|
      invariant 0 <= h <= |uniqHosts|
      invariant allTds == CellsOf(uniqHosts[..h])
    {
      var rep := uniqHosts[h];
      var cls := CellClass(rep.criticalCount, rep.highCount, rep.mediumCount, rep.lowCount);
      assert uniqHosts[..h + 1][..h] == uniqHosts[..h];
      assert CellsOf(uniqHosts[..h + 1]) == CellsOf(uniqHosts[..h]) + [CellOf(rep)];
      allTds := allTds + [Cell(cls, rep.reportFilepath, rep.hostname)];
      h := h + 1;
    }
    assert uniqHosts[..h] == uniqHosts == report.hosts;
    assert allTds == CellsOf(report.hosts);
    if columnLength == 0 {
      return Err(ZeroColumnLength);
    }
    if columnLength < 0 {
      // a range from 0 upwards with a negative step is empty
      return Ok("");
    }
    var allTdBysix := ChunkCells(allTds, columnLength);
    var final := WrapRows(allTdBysix);
    JoinEachSpec(Chunks(allTds, columnLength));
    assert final == Rows(Chunks(allTds, columnLength));
    return Ok(Join(final));
  }
}
