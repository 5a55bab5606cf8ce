/** Per-host and per-scan aggregation of classified findings: the `Host`
    and `Report` classes of pyness3.py and py_nessJson.py, the display
    order of a host's findings, the scan totals, and the drivers that turn
    decoded `ReportHost` records into a `Report`. */
module Hosts {
  import opened Common
  import opened Severity

  /** The five per-level counters of a host, or their scan-wide sums. */
  datatype Tally = Tally(critical: nat, high: nat, medium: nat, low: nat, info: nat)
  {
    function Total(): nat
    {
      critical + high + medium + low + info
    }

    function Plus(other: Tally): Tally
    {
      Tally(critical + other.critical, high + other.high, medium + other.medium,
            low + other.low, info + other.info)
    }

    function CountOf(l: Level): nat
    {
      match l
      case Critical => critical
      case High => high
      case Medium => medium
      case Low => low
      case Info => info
    }
  }

  const NO_FINDINGS: Tally := Tally(0, 0, 0, 0, 0)

  lemma PlusZero(t: Tally)
    ensures t.Plus(NO_FINDINGS) == t
  {
  }

  lemma PlusAssoc(t: Tally, u: Tally, v: Tally)
    ensures t.Plus(u).Plus(v) == t.Plus(u.Plus(v))
  {
  }

  lemma PlusComm(t: Tally, u: Tally)
    ensures t.Plus(u) == u.Plus(t)
  {
  }

  /** The number of findings whose `risk_factor` is exactly `risk`. */
  function Count(vulns: seq<Finding>, risk: string): (n: nat)
    ensures n <= |vulns|
  {
    if |vulns| == 0 then 0
    else Count(vulns[..|vulns| - 1], risk) + (if vulns[|vulns| - 1].riskFactor == risk then 1 else 0)
  }

  /** The counters a host built from `vulns` ends up with. */
  function TallyOf(vulns: seq<Finding>): Tally
  {
    Tally(Count(vulns, CRITICAL), Count(vulns, HIGH), Count(vulns, MEDIUM),
          Count(vulns, LOW), Count(vulns, INFO))
  }

  /** The counters one finding labelled `risk` contributes. */
  function Unit(risk: string): Tally
  {
    Tally(if risk == CRITICAL then 1 else 0, if risk == HIGH then 1 else 0,
          if risk == MEDIUM then 1 else 0, if risk == LOW then 1 else 0,
          if risk == INFO then 1 else 0)
  }

  lemma TallyOfSnoc(p: seq<Finding>, x: Finding)
    ensures TallyOf(p + [x]) == TallyOf(p).Plus(Unit(x.riskFactor))
  {
    assert (p + [x])[..|p|] == p;
  }

  /** One finding adds one to the total exactly when its label is known. */
  lemma UnitTotal(risk: string)
    ensures Unit(risk).Total() == if IsKnown(risk) then 1 else 0
  {
    match LevelOf(risk)
    case None =>
    case Some(l) =>
      LevelLabelRoundTrip(l, risk);
      match l
      case Info =>
      case Low =>
      case Medium =>
      case High =>
      case Critical =>
  }

  lemma {:induction false} CountAppend(a: seq<Finding>, b: seq<Finding>, risk: string)
    ensures Count(a + b, risk) == Count(a, risk) + Count(b, risk)
    decreases |b|
  {
    if |b| > 0 {
      assert (a + b)[..|a + b| - 1] == a + b[..|b| - 1];
      CountAppend(a, b[..|b| - 1], risk);
    } else {
      assert a + b == a;
    }
  }

  /** The counters only see the five display labels: their sum is at most
      the number of findings, with equality exactly when every label is
      one of the five. */
  lemma {:induction false} TallyTotalBound(vulns: seq<Finding>)
    ensures TallyOf(vulns).Total() <= |vulns|
    ensures TallyOf(vulns).Total() == |vulns| <==> forall i :: 0 <= i < |vulns| ==> IsKnown(vulns[i].riskFactor)
  {
    if |vulns| > 0 {
      var p, x := vulns[..|vulns| - 1], vulns[|vulns| - 1];
      TallyTotalBound(p);
      assert forall i :: 0 <= i < |p| ==> p[i] == vulns[i];
      assert vulns == p + [x];
      TallyOfSnoc(p, x);
      UnitTotal(x.riskFactor);
    }
  }

  /** What the page writer reads of a host besides its counters. */
  datatype HostView = HostView(hostname: string, vulns: seq<Finding>, ipAddress: Option<string>)

  /** A host holds its findings, their counters and the metadata the page
      writer adds later. The counters are fields, as in the scripts; the
      constructor fills them and nothing in the core changes them again. */
  class Host {
    var hostname: string
    var vulns: seq<Finding>
    var infoCount: nat
    var lowCount: nat
    var mediumCount: nat
    var highCount: nat
    var criticalCount: nat
    var totalCount: nat
    var ipAddress: Option<string>
    var reportFilepath: Option<string>

    function View(): HostView
      reads this
    {
      HostView(hostname, vulns, ipAddress)
    }

    function Counts(): Tally
      reads this
    {
      Tally(criticalCount, highCount, mediumCount, lowCount, infoCount)
    }

    /** Each counter counts exact matches of its label, and the total is
        their sum. */
    ghost predicate Valid()
      reads this
    {
      && criticalCount == Count(vulns, CRITICAL) && highCount == Count(vulns, HIGH)
      && mediumCount == Count(vulns, MEDIUM) && lowCount == Count(vulns, LOW)
      && infoCount == Count(vulns, INFO)
      && totalCount == criticalCount + highCount + mediumCount + lowCount + infoCount
    }

    /** `Host.__init__`: one pass over the findings, bumping the counter
        whose label matches and refreshing the total after each finding. */
    constructor (hostname: string, vulns: seq<Finding>)
      ensures Valid()
      ensures this.hostname == hostname && this.vulns == vulns
      ensures ipAddress == None && reportFilepath == None
    {
      this.hostname := hostname;
      this.vulns := vulns;
      infoCount, lowCount, mediumCount, highCount, criticalCount, totalCount := 0, 0, 0, 0, 0, 0;
      ipAddress, reportFilepath := None, None;
      new;
      var i := 0;
      while i < |vulns|
        invariant 0 <= i <= |vulns|
        invariant criticalCount == Count(vulns[..i], CRITICAL) && highCount == Count(vulns[..i], HIGH)
        invariant mediumCount == Count(vulns[..i], MEDIUM) && lowCount == Count(vulns[..i], LOW)
        invariant infoCount == Count(vulns[..i], INFO)
        invariant totalCount == criticalCount + highCount + mediumCount + lowCount + infoCount
        invariant this.hostname == hostname && this.vulns == vulns
        invariant ipAddress == None && reportFilepath == None
      {
        assert vulns[..i + 1][..i] == vulns[..i];
        CountFinding(vulns[i].riskFactor);
        i := i + 1;
      }
      assert vulns[..|vulns|] == vulns;
    }

    /** The body of the counting loop of `Host.__init__`: bump the counter
        whose label is `rating` (none for any other label), then refresh
        the total. */
    method CountFinding(rating: string)
      modifies this
      ensures criticalCount == old(criticalCount) + (if rating == CRITICAL then 1 else 0)
      ensures highCount == old(highCount) + (if rating == HIGH then 1 else 0)
      ensures mediumCount == old(mediumCount) + (if rating == MEDIUM then 1 else 0)
      ensures lowCount == old(lowCount) + (if rating == LOW then 1 else 0)
      ensures infoCount == old(infoCount) + (if rating == INFO then 1 else 0)
      ensures totalCount == criticalCount + highCount + mediumCount + lowCount + infoCount
      ensures hostname == old(hostname) && vulns == old(vulns)
      ensures ipAddress == old(ipAddress) && reportFilepath == old(reportFilepath)
    {
      if rating == INFO {
        infoCount := infoCount + 1;
      }
      if rating == LOW {
        lowCount := lowCount + 1;
      }
      if rating == MEDIUM {
        mediumCount := mediumCount + 1;
      }
      if rating == HIGH {
        highCount := highCount + 1;
      }
      if rating == CRITICAL {
        criticalCount := criticalCount + 1;
      }
      totalCount := criticalCount + highCount + mediumCount + lowCount + infoCount;
    }
  }

  /** A fresh host for `add_report`: counted from `vulns`, with `ip` as
      its address and no report file yet. */
  method NewHost(hostname: string, vulns: seq<Finding>, ip: Option<string>) returns (host: Host)
    ensures fresh(host) && host.Valid()
    ensures host.View() == HostView(hostname, vulns, ip) && host.reportFilepath == None
  {
    host := new Host(hostname, vulns);
    host.ipAddress := ip;
  }

  /** The list of hosts of one scan (`Report` in both scripts). */
  class Report {
    var hosts: seq<Host>

    ghost predicate Valid()
      reads this, hosts
    {
      forall i :: 0 <= i < |hosts| ==> hosts[i].Valid()
    }

    constructor ()
      ensures Valid() && hosts == []
    {
      hosts := [];
    }

    /** `host_count()`. */
    function HostCount(): nat
      reads this
    {
      |hosts|
    }

    /** `add_report` of pyness3.py: build a host from the findings, record
        its address, append it. */
    method AddReport(hostname: string, vulns: seq<Finding>, ip: string)
      requires Valid()
      modifies this
      ensures Valid()
      ensures HostCount() == old(HostCount()) + 1
      ensures hosts[..|old(hosts)|] == old(hosts)
      ensures fresh(hosts[|hosts| - 1]) && hosts[|hosts| - 1].reportFilepath == None
      ensures ViewsOf(hosts) == old(ViewsOf(hosts)) + [HostView(hostname, vulns, Some(ip))]
    {
      var host := NewHost(hostname, vulns, Some(ip));
      Append(host);
    }

    /** `self.hosts.append(host)`. */
    method Append(host: Host)
      requires Valid() && host.Valid()
      modifies this
      ensures Valid() && hosts == old(hosts) + [host]
      ensures ViewsOf(hosts) == old(ViewsOf(hosts)) + [host.View()]
    {
      ghost var before := hosts;
      hosts := hosts + [host];
      ViewsSnoc(before, host);
    }

    /** `add_report` of py_nessJson.py: the same, without an address. */
    method AddReportWithoutAddress(hostname: string, vulns: seq<Finding>)
      requires Valid()
      modifies this
      ensures Valid()
      ensures HostCount() == old(HostCount()) + 1
      ensures hosts[..|old(hosts)|] == old(hosts)
      ensures fresh(hosts[|hosts| - 1]) && hosts[|hosts| - 1].reportFilepath == None
      ensures ViewsOf(hosts) == old(ViewsOf(hosts)) + [HostView(hostname, vulns, None)]
    {
      var host := NewHost(hostname, vulns, None);
      Append(host);
    }
  }

  // ----- scan totals -----

  function TalliesOf(hosts: seq<Host>): (ts: seq<Tally>)
    reads hosts
    ensures |ts| == |hosts|
  {
    if |hosts| == 0 then []
    else TalliesOf(hosts[..|hosts| - 1]) + [hosts[|hosts| - 1].Counts()]
  }

  function ViewsOf(hosts: seq<Host>): (vs: seq<HostView>)
    reads hosts
    ensures |vs| == |hosts|
  {
    if |hosts| == 0 then []
    else ViewsOf(hosts[..|hosts| - 1]) + [hosts[|hosts| - 1].View()]
  }

  /** Appending a host to the scan adds exactly its counters to the scan
      totals. */
  lemma TotalsAfterAppend(hosts: seq<Host>, h: Host)
    ensures TallySum(TalliesOf(hosts + [h])) == TallySum(TalliesOf(hosts)).Plus(h.Counts())
  {
    assert (hosts + [h])[..|hosts|] == hosts;
    var ts := TalliesOf(hosts);
    assert (ts + [h.Counts()])[..|ts|] == ts;
  }

  lemma ViewsSnoc(hosts: seq<Host>, h: Host)
    ensures ViewsOf(hosts + [h]) == ViewsOf(hosts) + [h.View()]
  {
    assert (hosts + [h])[..|hosts|] == hosts;
  }

  function TallySum(ts: seq<Tally>): Tally
  {
    if |ts| == 0 then NO_FINDINGS else TallySum(ts[..|ts| - 1]).Plus(ts[|ts| - 1])
  }

  /** `getall_findingTotals`: each scan-wide counter is the sum of that
      counter over the hosts, in host order. */
  method GetAllFindingTotals(report: Report) returns (counts: Tally)
    ensures counts == TallySum(TalliesOf(report.hosts))
  {
    var hosts := report.hosts;
    var totalC: nat, totalH: nat, totalM: nat, totalL: nat, totalI: nat := 0, 0, 0, 0, 0;
    var i := 0;
    while i < |hosts|
      invariant 0 <= i <= |hosts|
      invariant Tally(totalC, totalH, totalM, totalL, totalI) == TallySum(TalliesOf(hosts[..i]))
    {
      var rep := hosts[i];
      ghost var sofar := TallySum(TalliesOf(hosts[..i]));
      assert hosts[..i + 1] == hosts[..i] + [rep];
      TotalsAfterAppend(hosts[..i], rep);
      totalC := totalC + rep.criticalCount;
      totalH := totalH + rep.highCount;
      totalM := totalM + rep.mediumCount;
      totalL := totalL + rep.lowCount;
      totalI := totalI + rep.infoCount;
      assert Tally(totalC, totalH, totalM, totalL, totalI) == sofar.Plus(rep.Counts());
      i := i + 1;
    }
    assert hosts[..|hosts|] == hosts;
    counts := Tally(totalC, totalH, totalM, totalL, totalI);
  }

  lemma {:induction false} TallySumAppend(a: seq<Tally>, b: seq<Tally>)
    ensures TallySum(a + b) == TallySum(a).Plus(TallySum(b))
    decreases |b|
  {
    if |b| == 0 {
      assert a + b == a;
      PlusZero(TallySum(a));
    } else {
      var b', y := b[..|b| - 1], b[|b| - 1];
      assert (a + b)[..|a + b| - 1] == a + b';
      assert (a + b)[|a + b| - 1] == y;
      TallySumAppend(a, b');
      PlusAssoc(TallySum(a), TallySum(b'), y);
    }
  }

  lemma TallySumSingle(x: Tally)
    ensures TallySum([x]) == x
  {
    assert [x][..0] == [];
    PlusComm(NO_FINDINGS, x);
    PlusZero(x);
  }

  lemma MultisetRemove(b: seq<Tally>, k: nat)
    requires k < |b|
    ensures multiset(b[..k] + b[k + 1..]) == multiset(b) - multiset{b[k]}
  {
    assert b == b[..k] + [b[k]] + b[k + 1..];
  }

  /** Taking one host's counts out of the middle of the list. */
  lemma TallySumRemove(b: seq<Tally>, k: nat)
    requires k < |b|
    ensures TallySum(b) == TallySum(b[..k] + b[k + 1..]).Plus(b[k])
  {
    var x, l, r := b[k], b[..k], b[k + 1..];
    assert b == l + ([x] + r);
    var sl, sr := TallySum(l), TallySum(r);
    calc {
      TallySum(b);
      { TallySumAppend(l, [x] + r); }
      sl.Plus(TallySum([x] + r));
      { TallySumAppend([x], r); TallySumSingle(x); }
      sl.Plus(x.Plus(sr));
      { PlusComm(x, sr); }
      sl.Plus(sr.Plus(x));
      { PlusAssoc(sl, sr, x); }
      sl.Plus(sr).Plus(x);
      { TallySumAppend(l, r); }
      TallySum(l + r).Plus(x);
    }
  }

  /** The scan totals do not depend on the order of the hosts. */
  lemma {:induction false} TallySumPermutation(a: seq<Tally>, b: seq<Tally>)
    requires multiset(a) == multiset(b)
    ensures TallySum(a) == TallySum(b)
    decreases |a|
  {
    if |a| == 0 {
      assert |b| == |multiset(b)| == 0;
    } else {
      var x, a' := a[|a| - 1], a[..|a| - 1];
      assert a == a' + [x];
      assert multiset(a') == multiset(a) - multiset{x};
      assert x in multiset(b);
      var k :| 0 <= k < |b| && b[k] == x;
      MultisetRemove(b, k);
      TallySumRemove(b, k);
      TallySumPermutation(a', b[..k] + b[k + 1..]);
    }
  }

  // ----- display order of a host's findings -----

  /** `[x for x in vulns if x['risk_factor'] == risk]`. */
  function Band(vulns: seq<Finding>, risk: string): seq<Finding>
  {
    if |vulns| == 0 then []
    else Band(vulns[..|vulns| - 1], risk) + (if vulns[|vulns| - 1].riskFactor == risk then [vulns[|vulns| - 1]] else [])
  }

  /** A band holds exactly the findings with its label: as many as the
      counter counts, and nothing with another label. */
  lemma {:induction false} BandShape(vulns: seq<Finding>, risk: string)
    ensures |Band(vulns, risk)| == Count(vulns, risk)
    ensures forall i :: 0 <= i < |Band(vulns, risk)| ==> Band(vulns, risk)[i].riskFactor == risk
  {
    if |vulns| > 0 {
      BandShape(vulns[..|vulns| - 1], risk);
    }
  }

  /** `sort_vlun_list`: the Critical findings, then High, Medium, Low and
      Info, each band in input order; findings with any other label are
      not in the result. */
  function SortVulnList(vulns: seq<Finding>): seq<Finding>
  {
    Band(vulns, CRITICAL) + Band(vulns, HIGH) + Band(vulns, MEDIUM) + Band(vulns, LOW) + Band(vulns, INFO)
  }

  lemma {:induction false} BandAppend(a: seq<Finding>, b: seq<Finding>, risk: string)
    ensures Band(a + b, risk) == Band(a, risk) + Band(b, risk)
    decreases |b|
  {
    if |b| == 0 {
      assert a + b == a;
    } else {
      assert (a + b)[..|a + b| - 1] == a + b[..|b| - 1];
      BandAppend(a, b[..|b| - 1], risk);
    }
  }

  lemma {:induction false} BandOfUniform(s: seq<Finding>, risk: string, other: string)
    requires forall i :: 0 <= i < |s| ==> s[i].riskFactor == risk
    ensures Band(s, risk) == s
    ensures other != risk ==> Band(s, other) == []
  {
    if |s| > 0 {
      BandOfUniform(s[..|s| - 1], risk, other);
    }
  }

  predicate RankDescending(s: seq<Finding>)
  {
    forall i, j :: 0 <= i < j < |s| ==> RankOf(s[i].riskFactor) >= RankOf(s[j].riskFactor)
  }

  predicate RanksWithin(s: seq<Finding>, lo: int, hi: int)
  {
    forall i :: 0 <= i < |s| ==> lo <= RankOf(s[i].riskFactor) <= hi
  }

  lemma ConcatDescending(a: seq<Finding>, b: seq<Finding>, lo: int, m: int, hi: int)
    requires lo <= m <= hi
    requires RankDescending(a) && RanksWithin(a, m, hi)
    requires RankDescending(b) && RanksWithin(b, lo, m)
    ensures RankDescending(a + b) && RanksWithin(a + b, lo, hi)
  {
    var s := a + b;
    forall i | 0 <= i < |s|
      ensures lo <= RankOf(s[i].riskFactor) <= hi
    {
      if i < |a| {
        assert s[i] == a[i];
      } else {
        assert s[i] == b[i - |a|];
      }
    }
    forall i, j | 0 <= i < j < |s|
      ensures RankOf(s[i].riskFactor) >= RankOf(s[j].riskFactor)
    {
      if j < |a| {
        assert s[i] == a[i] && s[j] == a[j];
      } else if i >= |a| {
        assert s[i] == b[i - |a|] && s[j] == b[j - |a|];
      } else {
        assert s[i] == a[i] && s[j] == b[j - |a|];
      }
    }
  }

  /** The band of one display level: every finding in it has that level's
      rank, so it is trivially in descending order. */
  lemma LevelBand(vulns: seq<Finding>, lv: Level)
    ensures var b := Band(vulns, LabelOf(lv)); RankDescending(b) && RanksWithin(b, Rank(lv), Rank(lv))
  {
    BandShape(vulns, LabelOf(lv));
    LevelLabelRoundTrip(lv, LabelOf(lv));
  }

  /** The sorted list has one entry per finding with a display label, that
      is `TallyOf(vulns).Total()` entries. */
  lemma SortVulnListLength(vulns: seq<Finding>)
    ensures |SortVulnList(vulns)| == TallyOf(vulns).Total()
  {
    BandShape(vulns, CRITICAL);
    BandShape(vulns, HIGH);
    BandShape(vulns, MEDIUM);
    BandShape(vulns, LOW);
    BandShape(vulns, INFO);
  }

  /** Every entry of the sorted list has a display label, and the entries
      go from most to least severe. */
  lemma SortVulnListOrdered(vulns: seq<Finding>)
    ensures var r := SortVulnList(vulns);
      && (forall i :: 0 <= i < |r| ==> IsKnown(r[i].riskFactor))
      && RankDescending(r)
  {
    var c, h, m, l, f := Band(vulns, CRITICAL), Band(vulns, HIGH), Band(vulns, MEDIUM), Band(vulns, LOW), Band(vulns, INFO);
    LevelBand(vulns, Critical);
    LevelBand(vulns, High);
    LevelBand(vulns, Medium);
    LevelBand(vulns, Low);
    LevelBand(vulns, Info);
    ConcatDescending(l, f, 0, 1, 1);
    ConcatDescending(m, l + f, 0, 2, 2);
    ConcatDescending(h, m + (l + f), 0, 3, 3);
    ConcatDescending(c, h + (m + (l + f)), 0, 4, 4);
    assert SortVulnList(vulns) == c + (h + (m + (l + f)));
  }

  lemma BandOfBandSame(vulns: seq<Finding>, risk: string)
    ensures Band(Band(vulns, risk), risk) == Band(vulns, risk)
  {
    BandShape(vulns, risk);
    BandOfUniform(Band(vulns, risk), risk, risk);
  }

  lemma BandOfBandOther(vulns: seq<Finding>, risk: string, other: string)
    requires risk != other
    ensures Band(Band(vulns, risk), other) == []
  {
    BandShape(vulns, risk);
    BandOfUniform(Band(vulns, risk), risk, other);
  }

  /** Regrouping the sorted list by label. */
  lemma SortVulnListBands(vulns: seq<Finding>, risk: string)
    ensures Band(SortVulnList(vulns), risk)
         == Band(Band(vulns, CRITICAL), risk) + Band(Band(vulns, HIGH), risk) + Band(Band(vulns, MEDIUM), risk)
          + Band(Band(vulns, LOW), risk) + Band(Band(vulns, INFO), risk)
  {
    var c, h, m, l, f := Band(vulns, CRITICAL), Band(vulns, HIGH), Band(vulns, MEDIUM), Band(vulns, LOW), Band(vulns, INFO);
    BandAppend(c + h + m + l, f, risk);
    BandAppend(c + h + m, l, risk);
    BandAppend(c + h, m, risk);
    BandAppend(c, h, risk);
  }

  /** Sorting keeps, for every display level, exactly the input's findings
      of that level in their input order: the sort is stable. */
  lemma SortVulnListStable(vulns: seq<Finding>, lv: Level)
    ensures Band(SortVulnList(vulns), LabelOf(lv)) == Band(vulns, LabelOf(lv))
  {
    match lv
    case Critical => StableCritical(vulns);
    case High => StableHigh(vulns);
    case Medium => StableMedium(vulns);
    case Low => StableLow(vulns);
    case Info => StableInfo(vulns);
  }

  lemma StableCritical(vulns: seq<Finding>)
    ensures Band(SortVulnList(vulns), CRITICAL) == Band(vulns, CRITICAL)
  {
    SortVulnListBands(vulns, CRITICAL);
    BandOfBandSame(vulns, CRITICAL);
    BandOfBandOther(vulns, HIGH, CRITICAL);
    BandOfBandOther(vulns, MEDIUM, CRITICAL);
    BandOfBandOther(vulns, LOW, CRITICAL);
    BandOfBandOther(vulns, INFO, CRITICAL);
    assert Band(SortVulnList(vulns), CRITICAL) == Band(vulns, CRITICAL) + [] + [] + [] + [];
  }

  lemma StableHigh(vulns: seq<Finding>)
    ensures Band(SortVulnList(vulns), HIGH) == Band(vulns, HIGH)
  {
    SortVulnListBands(vulns, HIGH);
    BandOfBandOther(vulns, CRITICAL, HIGH);
    BandOfBandSame(vulns, HIGH);
    BandOfBandOther(vulns, MEDIUM, HIGH);
    BandOfBandOther(vulns, LOW, HIGH);
    BandOfBandOther(vulns, INFO, HIGH);
    assert Band(SortVulnList(vulns), HIGH) == [] + Band(vulns, HIGH) + [] + [] + [];
  }

  lemma StableMedium(vulns: seq<Finding>)
    ensures Band(SortVulnList(vulns), MEDIUM) == Band(vulns, MEDIUM)
  {
    SortVulnListBands(vulns, MEDIUM);
    BandOfBandOther(vulns, CRITICAL, MEDIUM);
    BandOfBandOther(vulns, HIGH, MEDIUM);
    BandOfBandSame(vulns, MEDIUM);
    BandOfBandOther(vulns, LOW, MEDIUM);
    BandOfBandOther(vulns, INFO, MEDIUM);
    assert Band(SortVulnList(vulns), MEDIUM) == [] + [] + Band(vulns, MEDIUM) + [] + [];
  }

  lemma StableLow(vulns: seq<Finding>)
    ensures Band(SortVulnList(vulns), LOW) == Band(vulns, LOW)
  {
    SortVulnListBands(vulns, LOW);
    BandOfBandOther(vulns, CRITICAL, LOW);
    BandOfBandOther(vulns, HIGH, LOW);
    BandOfBandOther(vulns, MEDIUM, LOW);
    BandOfBandSame(vulns, LOW);
    BandOfBandOther(vulns, INFO, LOW);
    assert Band(SortVulnList(vulns), LOW) == [] + [] + [] + Band(vulns, LOW) + [];
  }

  lemma StableInfo(vulns: seq<Finding>)
    ensures Band(SortVulnList(vulns), INFO) == Band(vulns, INFO)
  {
    SortVulnListBands(vulns, INFO);
    BandOfBandOther(vulns, CRITICAL, INFO);
    BandOfBandOther(vulns, HIGH, INFO);
    BandOfBandOther(vulns, MEDIUM, INFO);
    BandOfBandOther(vulns, LOW, INFO);
    BandOfBandSame(vulns, INFO);
    assert Band(SortVulnList(vulns), INFO) == [] + [] + [] + [] + Band(vulns, INFO);
  }

  /** Findings whose label is not a display label do not survive sorting. */
  lemma SortVulnListDropsUnknown(vulns: seq<Finding>, risk: string)
    requires !IsKnown(risk)
    ensures Band(SortVulnList(vulns), risk) == []
  {
    SortVulnListBands(vulns, risk);
    BandOfBandOther(vulns, CRITICAL, risk);
    BandOfBandOther(vulns, HIGH, risk);
    BandOfBandOther(vulns, MEDIUM, risk);
    BandOfBandOther(vulns, LOW, risk);
    BandOfBandOther(vulns, INFO, risk);
  }

  /** For a host built by its constructor, the sorted list has exactly
      `_total_count` entries. */
  lemma SortedLengthIsTotal(h: Host)
    requires h.Valid()
    ensures |SortVulnList(h.vulns)| == h.totalCount
  {
    SortVulnListLength(h.vulns);
  }

  lemma BandSnocSame(p: seq<Finding>, x: Finding)
    ensures Band(p + [x], x.riskFactor) == Band(p, x.riskFactor) + [x]
  {
    assert (p + [x])[..|p|] == p;
  }

  lemma BandSnocOther(p: seq<Finding>, x: Finding, risk: string)
    requires x.riskFactor != risk
    ensures Band(p + [x], risk) == Band(p, risk)
  {
    assert (p + [x])[..|p|] == p;
  }

  lemma BandEmptyBelow(p: seq<Finding>, lv: Level)
    requires forall i :: 0 <= i < |p| ==> RankOf(p[i].riskFactor) > Rank(lv)
    ensures Band(p, LabelOf(lv)) == []
  {
    LevelLabelRoundTrip(lv, LabelOf(lv));
    BandNone(p, LabelOf(lv));
  }

  lemma {:induction false} BandNone(p: seq<Finding>, risk: string)
    requires forall i :: 0 <= i < |p| ==> p[i].riskFactor != risk
    ensures Band(p, risk) == []
  {
    if |p| > 0 {
      BandNone(p[..|p| - 1], risk);
    }
  }

  /** Appending a finding no more severe than any before it appends it to
      the sorted list. */
  lemma SortVulnListSnoc(p: seq<Finding>, x: Finding)
    requires IsKnown(x.riskFactor)
    requires forall i :: 0 <= i < |p| ==> RankOf(p[i].riskFactor) >= RankOf(x.riskFactor)
    ensures SortVulnList(p + [x]) == SortVulnList(p) + [x]
  {
    LevelLabelRoundTrip(LevelOf(x.riskFactor).value, x.riskFactor);
    match LevelOf(x.riskFactor).value
    case Critical =>
      BandEmptyBelow(p, High);
      BandEmptyBelow(p, Medium);
      BandEmptyBelow(p, Low);
      BandEmptyBelow(p, Info);
      SnocCritical(p, x);
    case High =>
      BandEmptyBelow(p, Medium);
      BandEmptyBelow(p, Low);
      BandEmptyBelow(p, Info);
      SnocHigh(p, x);
    case Medium =>
      BandEmptyBelow(p, Low);
      BandEmptyBelow(p, Info);
      SnocMedium(p, x);
    case Low =>
      BandEmptyBelow(p, Info);
      SnocLow(p, x);
    case Info =>
      SnocInfo(p, x);
  }

  lemma SnocCritical(p: seq<Finding>, x: Finding)
    requires x.riskFactor == CRITICAL
    requires Band(p, HIGH) == Band(p, MEDIUM) == Band(p, LOW) == Band(p, INFO) == []
    ensures SortVulnList(p + [x]) == SortVulnList(p) + [x]
  {
    BandSnocSame(p, x);
    BandSnocOther(p, x, HIGH);
    BandSnocOther(p, x, MEDIUM);
    BandSnocOther(p, x, LOW);
    BandSnocOther(p, x, INFO);
    assert SortVulnList(p) == Band(p, CRITICAL);
  }

  lemma SnocHigh(p: seq<Finding>, x: Finding)
    requires x.riskFactor == HIGH
    requires Band(p, MEDIUM) == Band(p, LOW) == Band(p, INFO) == []
    ensures SortVulnList(p + [x]) == SortVulnList(p) + [x]
  {
    BandSnocSame(p, x);
    BandSnocOther(p, x, CRITICAL);
    BandSnocOther(p, x, MEDIUM);
    BandSnocOther(p, x, LOW);
    BandSnocOther(p, x, INFO);
    assert SortVulnList(p) == Band(p, CRITICAL) + Band(p, HIGH);
  }

  lemma SnocMedium(p: seq<Finding>, x: Finding)
    requires x.riskFactor == MEDIUM
    requires Band(p, LOW) == Band(p, INFO) == []
    ensures SortVulnList(p + [x]) == SortVulnList(p) + [x]
  {
    BandSnocSame(p, x);
    BandSnocOther(p, x, CRITICAL);
    BandSnocOther(p, x, HIGH);
    BandSnocOther(p, x, LOW);
    BandSnocOther(p, x, INFO);
    assert SortVulnList(p) == Band(p, CRITICAL) + Band(p, HIGH) + Band(p, MEDIUM);
  }

  lemma SnocLow(p: seq<Finding>, x: Finding)
    requires x.riskFactor == LOW
    requires Band(p, INFO) == []
    ensures SortVulnList(p + [x]) == SortVulnList(p) + [x]
  {
    BandSnocSame(p, x);
    BandSnocOther(p, x, CRITICAL);
    BandSnocOther(p, x, HIGH);
    BandSnocOther(p, x, MEDIUM);
    BandSnocOther(p, x, INFO);
    var c, h, m, l := Band(p, CRITICAL), Band(p, HIGH), Band(p, MEDIUM), Band(p, LOW);
    assert SortVulnList(p + [x]) == c + h + m + (l + [x]);
  }

  lemma SnocInfo(p: seq<Finding>, x: Finding)
    requires x.riskFactor == INFO
    ensures SortVulnList(p + [x]) == SortVulnList(p) + [x]
  {
    BandSnocSame(p, x);
    BandSnocOther(p, x, CRITICAL);
    BandSnocOther(p, x, HIGH);
    BandSnocOther(p, x, MEDIUM);
    BandSnocOther(p, x, LOW);
  }

  lemma {:induction false} BandsOfSorted(s: seq<Finding>)
    requires forall i :: 0 <= i < |s| ==> IsKnown(s[i].riskFactor)
    requires RankDescending(s)
    ensures SortVulnList(s) == s
    decreases |s|
  {
    if |s| > 0 {
      var p, x := s[..|s| - 1], s[|s| - 1];
      assert s == p + [x];
      assert forall i :: 0 <= i < |p| ==> p[i] == s[i];
      BandsOfSorted(p);
      SortVulnListSnoc(p, x);
    }
  }

  /** The sorted list is the only arrangement of the input's known findings
      that is in descending rank and keeps each band in input order: the
      bucket concatenation is exactly a stable sort by level. */
  lemma SortVulnListUnique(vulns: seq<Finding>, s: seq<Finding>)
    requires forall i :: 0 <= i < |s| ==> IsKnown(s[i].riskFactor)
    requires RankDescending(s)
    requires forall lv: Level :: Band(s, LabelOf(lv)) == Band(vulns, LabelOf(lv))
    ensures s == SortVulnList(vulns)
  {
    BandsOfSorted(s);
    assert Band(s, CRITICAL) == Band(vulns, CRITICAL) by { assert LabelOf(Critical) == CRITICAL; }
    assert Band(s, HIGH) == Band(vulns, HIGH) by { assert LabelOf(High) == HIGH; }
    assert Band(s, MEDIUM) == Band(vulns, MEDIUM) by { assert LabelOf(Medium) == MEDIUM; }
    assert Band(s, LOW) == Band(vulns, LOW) by { assert LabelOf(Low) == LOW; }
    assert Band(s, INFO) == Band(vulns, INFO) by { assert LabelOf(Info) == INFO; }
  }

  // ----- the host list shown on the dashboard -----

  /** `uniq_hosts_from_report` (and its copy `loop_hostsTester`). The guard
      asks whether the host's address or name is in the list of `Host`
      objects collected so far; a string never equals a `Host`, so the
      guard always holds and every host is kept, in order. */
  method UniqueHosts(report: Report) returns (uniq: seq<Host>)
    ensures uniq == report.hosts
  {
    uniq := [];
    var i := 0;
    while i < |report.hosts|
      invariant 0 <= i <= |report.hosts|
      invariant uniq == report.hosts[..i]
    {
      uniq := uniq + [report.hosts[i]];
      i := i + 1;
    }
  }

  // ----- building a report from decoded hosts -----

  /** One `tag` of a host's `HostProperties`: its `@name` and `#text`. */
  datatype Tag = Tag(name: string, text: string)

  /** One decoded `ReportHost`: its `@name`, its property tags and its
      `ReportItem` records, which the drivers rewrite in place. */
  datatype ReportHost = ReportHost(name: string, tags: seq<Tag>, items: array<Finding>)

  /** `parse_reports` indexes `[0]` into the list of matching tags, which
      fails when the host has no such tag. */
  datatype ParseError = MissingHostProperty(property: string)

  const HOST_IP: string := "host-ip"
  const HOST_START: string := "HOST_START"
  const HOST_END: string := "HOST_END"

  /** `[x['#text'] for x in tags if x['@name'] == name][0]`, or None when
      the list is empty. */
  function FirstTag(tags: seq<Tag>, name: string): Option<string>
  {
    if |tags| == 0 then None
    else if tags[0].name == name then Some(tags[0].text)
    else FirstTag(tags[1..], name)
  }

  /** The lookup fails exactly when no tag has the name, and otherwise
      yields the text of the first tag that has it. */
  lemma {:induction false} FirstTagFinds(tags: seq<Tag>, name: string)
    ensures FirstTag(tags, name).None? <==> forall i :: 0 <= i < |tags| ==> tags[i].name != name
    ensures FirstTag(tags, name).Some? ==>
      exists i :: 0 <= i < |tags| && tags[i] == Tag(name, FirstTag(tags, name).value)
                  && forall j :: 0 <= j < i ==> tags[j].name != name
  {
    if |tags| > 0 && tags[0].name != name {
      FirstTagFinds(tags[1..], name);
      assert forall i :: 1 <= i < |tags| ==> tags[i] == tags[1..][i - 1];
      if FirstTag(tags, name).Some? {
        var i :| 0 <= i < |tags[1..]| && tags[1..][i] == Tag(name, FirstTag(tags, name).value)
                 && forall j :: 0 <= j < i ==> tags[1..][j].name != name;
        assert tags[i + 1] == Tag(name, FirstTag(tags, name).value);
      }
    }
  }

  /** The three lookups of `parse_reports`, in the order the code performs
      them: the host's address when all three tags are present, otherwise
      the first missing one. */
  function HostProperties(tags: seq<Tag>): Result<string, ParseError>
  {
    var hostIpaddress := FirstTag(tags, HOST_IP);
    if hostIpaddress.None? then Err(MissingHostProperty(HOST_IP))
    else if FirstTag(tags, HOST_START).None? then Err(MissingHostProperty(HOST_START))
    else if FirstTag(tags, HOST_END).None? then Err(MissingHostProperty(HOST_END))
    else Ok(hostIpaddress.value)
  }

  /** A host passes exactly when it has all three tags, and then yields its
      first address; otherwise the error names a tag it lacks, after every
      tag looked up before it was found. */
  lemma HostPropertiesSpec(tags: seq<Tag>)
    ensures var r := HostProperties(tags);
      && (r.Ok? <==> FirstTag(tags, HOST_IP).Some? && FirstTag(tags, HOST_START).Some? && FirstTag(tags, HOST_END).Some?)
      && (r.Ok? ==> FirstTag(tags, HOST_IP) == Some(r.value))
      && (r.Err? ==>
            && (r.error.property == HOST_IP || r.error.property == HOST_START || r.error.property == HOST_END)
            && FirstTag(tags, r.error.property).None?
            && (r.error.property != HOST_IP ==> FirstTag(tags, HOST_IP).Some?)
            && (r.error.property == HOST_END ==> FirstTag(tags, HOST_START).Some?))
  {
  }

  /** The index of the first host whose properties lack a tag, or the
      number of hosts when none does. */
  function FirstBadHost(reportData: seq<ReportHost>): (k: nat)
    ensures k <= |reportData|
  {
    if |reportData| == 0 then 0
    else if HostProperties(reportData[0].tags).Err? then 0
    else 1 + FirstBadHost(reportData[1..])
  }

  /** Every host before the first bad one has all its tags, and the first
      bad one (if any) lacks one. */
  lemma {:induction false} FirstBadHostSpec(reportData: seq<ReportHost>)
    ensures var k := FirstBadHost(reportData);
      && (forall j :: 0 <= j < k ==> HostProperties(reportData[j].tags).Ok?)
      && (k < |reportData| ==> HostProperties(reportData[k].tags).Err?)
  {
    if |reportData| > 0 && HostProperties(reportData[0].tags).Ok? {
      FirstBadHostSpec(reportData[1..]);
      assert forall j :: 1 <= j < |reportData| ==> reportData[j] == reportData[1..][j - 1];
    }
  }

  lemma FirstBadHostStep(reportData: seq<ReportHost>, i: nat)
    requires i <= FirstBadHost(reportData) && i < |reportData|
    ensures HostProperties(reportData[i].tags).Ok? ==> i < FirstBadHost(reportData)
    ensures HostProperties(reportData[i].tags).Err? ==> i == FirstBadHost(reportData)
  {
    FirstBadHostSpec(reportData);
  }

  ghost function ItemArrays(reportData: seq<ReportHost>): set<array<Finding>>
  {
    set i | 0 <= i < |reportData| :: reportData[i].items
  }

  /** The end of one pass of the `parse_reports` loop, once the tags are
      found: rewrite the host's findings in place, collecting them, and
      append a host built from them with its address. */
  method ParseHost(reportClass: Report, report: ReportHost, ip: string)
    requires reportClass.Valid()
    modifies reportClass, report.items
    ensures reportClass.Valid() && |reportClass.hosts| == old(|reportClass.hosts|) + 1
    ensures report.items[..] == ReclassifiedAll(old(report.items[..]), INFO)
    ensures ViewsOf(reportClass.hosts) == old(ViewsOf(reportClass.hosts)) + [HostView(report.name, report.items[..], Some(ip))]
  {
    var listofVulns := CollectHostFindings(report.items);
    reportClass.AddReport(report.name, listofVulns, ip);
  }

  /** What the `parse_reports` loop has done after its first `i` passes:
      `reportClass` holds one host per pass, built from the rewritten
      findings and the first address tag, the first `i` hosts' findings
      are rewritten and the rest are as they were (`olds`). */
  ghost predicate ParsedUpTo(reportClass: Report, reportData: seq<ReportHost>, olds: seq<seq<Finding>>, i: nat)
    reads reportClass, reportClass.hosts, ItemArrays(reportData)
  {
    && i <= |reportData| == |olds|
    && reportClass.Valid() && |reportClass.hosts| == i
    && (forall j :: 0 <= j < i ==> reportData[j].items[..] == ReclassifiedAll(olds[j], INFO))
    && (forall j :: i <= j < |reportData| ==> reportData[j].items[..] == olds[j])
    && (forall j :: 0 <= j < i ==>
          ViewsOf(reportClass.hosts)[j]
          == HostView(reportData[j].name, ReclassifiedAll(olds[j], INFO), FirstTag(reportData[j].tags, HOST_IP)))
  }

  /** One pass of the `parse_reports` loop for a host whose tags are all
      present. */
  method ParseNext(reportClass: Report, reportData: seq<ReportHost>, ghost olds: seq<seq<Finding>>, i: nat)
    requires i < |reportData| && HostProperties(reportData[i].tags).Ok?
    requires forall i, j :: 0 <= i < j < |reportData| ==> reportData[i].items != reportData[j].items
    requires ParsedUpTo(reportClass, reportData, olds, i)
    modifies reportClass, reportData[i].items
    ensures ParsedUpTo(reportClass, reportData, olds, i + 1)
  {
    var report := reportData[i];
    var ip := HostProperties(report.tags).value;
    assert FirstTag(report.tags, HOST_IP) == Some(ip);
    label L:
    ParseHost(reportClass, report, ip);
    forall j | 0 <= j < |reportData| && j != i
      ensures reportData[j].items[..] == old@L(reportData[j].items[..])
    {
      assert reportData[j].items != reportData[i].items;
    }
  }

  /** `parse_reports`: for each host in order, look up its address and
      start/end tags, rewrite its findings in place, and append a host built
      from them. The first host that lacks a tag stops the run: the hosts
      before it have had their findings rewritten, it and the later ones
      have not, and no report is returned. */
  method ParseReports(reportData: seq<ReportHost>) returns (res: Result<Report, ParseError>)
    requires forall i, j :: 0 <= i < j < |reportData| ==> reportData[i].items != reportData[j].items
    modifies ItemArrays(reportData)
    ensures var k := FirstBadHost(reportData);
      && (res.Ok? <==> k == |reportData|)
      && (res.Err? ==> HostProperties(reportData[k].tags) == Err(res.error))
      && (forall j :: 0 <= j < k ==> reportData[j].items[..] == ReclassifiedAll(old(reportData[j].items[..]), INFO))
      && (forall j :: k <= j < |reportData| ==> reportData[j].items[..] == old(reportData[j].items[..]))
    ensures res.Ok? ==>
      && fresh(res.value) && res.value.Valid() && |res.value.hosts| == |reportData|
      && forall j :: 0 <= j < |reportData| ==>
           ViewsOf(res.value.hosts)[j]
           == HostView(reportData[j].name, ReclassifiedAll(old(reportData[j].items[..]), INFO),
                       FirstTag(reportData[j].tags, HOST_IP))
  {
    ghost var olds := seq(|reportData|, j requires 0 <= j < |reportData| reads ItemArrays(reportData) => reportData[j].items[..]);
    var reportClass := new Report();
    var i := 0;
    while i < |reportData|
      invariant 0 <= i <= FirstBadHost(reportData)
      invariant fresh(reportClass) && ParsedUpTo(reportClass, reportData, olds, i)
    {
      FirstBadHostStep(reportData, i);
      var properties := HostProperties(reportData[i].tags);
      if properties.Err? {
        return Err(properties.error);
      }
      ParseNext(reportClass, reportData, olds, i);
      i := i + 1;
    }
    return Ok(reportClass);
  }

  /** One pass of the py_nessJson.py loop: rewrite the host's findings in
      place, collecting them, and append a host built from them. */
  method LoadHost(reportClass: Report, report: ReportHost)
    requires reportClass.Valid()
    modifies reportClass, report.items
    ensures reportClass.Valid() && |reportClass.hosts| == old(|reportClass.hosts|) + 1
    ensures report.items[..] == ReclassifiedAll(old(report.items[..]), INFO)
    ensures ViewsOf(reportClass.hosts) == old(ViewsOf(reportClass.hosts)) + [HostView(report.name, report.items[..], None)]
  {
    var listofVulns := CollectHostFindings(report.items);
    reportClass.AddReportWithoutAddress(report.name, listofVulns);
  }

  /** What the py_nessJson.py loop has done after its first `i` passes. */
  ghost predicate LoadedUpTo(reportClass: Report, reportData: seq<ReportHost>, olds: seq<seq<Finding>>, i: nat)
    reads reportClass, reportClass.hosts, ItemArrays(reportData)
  {
    && i <= |reportData| == |olds|
    && reportClass.Valid() && |reportClass.hosts| == i
    && (forall j :: 0 <= j < i ==> reportData[j].items[..] == ReclassifiedAll(olds[j], INFO))
    && (forall j :: i <= j < |reportData| ==> reportData[j].items[..] == olds[j])
    && (forall j :: 0 <= j < i ==>
          ViewsOf(reportClass.hosts)[j] == HostView(reportData[j].name, ReclassifiedAll(olds[j], INFO), None))
  }

  method LoadNext(reportClass: Report, reportData: seq<ReportHost>, ghost olds: seq<seq<Finding>>, i: nat)
    requires i < |reportData|
    requires forall i, j :: 0 <= i < j < |reportData| ==> reportData[i].items != reportData[j].items
    requires LoadedUpTo(reportClass, reportData, olds, i)
    modifies reportClass, reportData[i].items
    ensures LoadedUpTo(reportClass, reportData, olds, i + 1)
  {
    label L:
    LoadHost(reportClass, reportData[i]);
    forall j | 0 <= j < |reportData| && j != i
      ensures reportData[j].items[..] == old@L(reportData[j].items[..])
    {
      assert reportData[j].items != reportData[i].items;
    }
  }

  /** The module-level loop of py_nessJson.py: every host's findings are
      rewritten in place and a host is appended for each, in order; no
      address is recorded and nothing can fail. */
  method LoadReports(reportData: seq<ReportHost>) returns (reportClass: Report)
    requires forall i, j :: 0 <= i < j < |reportData| ==> reportData[i].items != reportData[j].items
    modifies ItemArrays(reportData)
    ensures forall j :: 0 <= j < |reportData| ==> reportData[j].items[..] == ReclassifiedAll(old(reportData[j].items[..]), INFO)
    ensures fresh(reportClass) && reportClass.Valid() && |reportClass.hosts| == |reportData|
    ensures forall j :: 0 <= j < |reportData| ==>
              ViewsOf(reportClass.hosts)[j]
              == HostView(reportData[j].name, ReclassifiedAll(old(reportData[j].items[..]), INFO), None)
  {
    ghost var olds := seq(|reportData|, j requires 0 <= j < |reportData| reads ItemArrays(reportData) => reportData[j].items[..]);
    reportClass := new Report();
    var i := 0;
    while i < |reportData|
      invariant 0 <= i <= |reportData|
      invariant fresh(reportClass) && LoadedUpTo(reportClass, reportData, olds, i)
    {
      LoadNext(reportClass, reportData, olds, i);
      i := i + 1;
    }
  }
}
