/** Severity labels of a Nessus finding and the reclassification rule the
    scripts apply to every decoded `ReportItem` before it is counted.

    Labels stay strings, as in the scripts: the rule compares strings and
    lets any label it does not know pass through unchanged. */
module Severity {
  import opened Common

  /** The label Nessus uses for an informational finding. */
  const NONE_LABEL: string := "None"

  const INFO: string := "Info"
  const LOW: string := "Low"
  const MEDIUM: string := "Medium"
  const HIGH: string := "High"
  const CRITICAL: string := "Critical"

  /** py_nessus.py rewrites "None" to this label instead of "Info". */
  const SHORT_INFO: string := "I"

  /** A CVSS v3 base score strictly above this forces "Critical". */
  const OVERRIDE_THRESHOLD: real := 8.9

  /** The five display levels, least severe first. */
  datatype Level = Info | Low | Medium | High | Critical

  function Rank(l: Level): nat
  {
    match l
    case Info => 0
    case Low => 1
    case Medium => 2
    case High => 3
    case Critical => 4
  }

  function LabelOf(l: Level): string
  {
    match l
    case Info => INFO
    case Low => LOW
    case Medium => MEDIUM
    case High => HIGH
    case Critical => CRITICAL
  }

  /** The level a display label names; None for any other string. */
  function LevelOf(risk: string): (r: Option<Level>)
    ensures r.Some? ==> LabelOf(r.value) == risk
  {
    if risk == INFO then Some(Info)
    else if risk == LOW then Some(Low)
    else if risk == MEDIUM then Some(Medium)
    else if risk == HIGH then Some(High)
    else if risk == CRITICAL then Some(Critical)
    else None
  }

  predicate IsKnown(risk: string)
  {
    LevelOf(risk).Some?
  }

  /** Labels and levels are in one-to-one correspondence. */
  lemma LevelLabelRoundTrip(l: Level, risk: string)
    ensures LevelOf(LabelOf(l)) == Some(l)
    ensures LevelOf(risk) == Some(l) <==> risk == LabelOf(l)
  {
  }

  /** Sort key of a label: the level's rank, or -1 for an unknown label. */
  function RankOf(risk: string): (k: int)
    ensures -1 <= k <= 4
    ensures k == -1 <==> !IsKnown(risk)
    ensures IsKnown(risk) ==> k == Rank(LevelOf(risk).value)
  {
    match LevelOf(risk)
    case None => -1
    case Some(l) => Rank(l)
  }

  /** The bands of the display order: Critical first, Info last, and any
      unknown label below all five. */
  lemma RankOrder(x: string)
    requires !IsKnown(x)
    ensures RankOf(CRITICAL) > RankOf(HIGH) > RankOf(MEDIUM) > RankOf(LOW) > RankOf(INFO) >= 0 > RankOf(x)
  {
  }

  /** One decoded `ReportItem`: the fields the core reads. The other
      fields of the record are carried by the template layer only. */
  datatype Finding = Finding(pluginName: string, riskFactor: string, cvss3BaseScore: Option<real>)

  /** `float(vuln['cvss3_base_score']) if 'cvss3_base_score' in vuln else 0`. */
  function Score(f: Finding): real
  {
    match f.cvss3BaseScore
    case None => 0.0
    case Some(s) => s
  }

  /** The rule of pyness3.py and py_nessJson.py (`infoLabel` is "Info") and
      of py_nessus.py (`infoLabel` is "I"): "None" is renamed, then a score
      above the threshold overrides whatever label resulted. */
  function Reclassify(risk: string, score: real, infoLabel: string): string
  {
    var renamed := if risk == NONE_LABEL then infoLabel else risk;
    if score > OVERRIDE_THRESHOLD then CRITICAL else renamed
  }

  /** The record with its `risk_factor` overwritten; nothing else changes. */
  function Reclassified(f: Finding, infoLabel: string): (g: Finding)
    ensures g.pluginName == f.pluginName && g.cvss3BaseScore == f.cvss3BaseScore
  {
    f.(riskFactor := Reclassify(f.riskFactor, Score(f), infoLabel))
  }

  function ReclassifiedAll(fs: seq<Finding>, infoLabel: string): seq<Finding>
  {
    seq(|fs|, i requires 0 <= i < |fs| => Reclassified(fs[i], infoLabel))
  }

  /** A score above 8.9 yields "Critical" whatever the label was. */
  lemma OverrideWins(risk: string, score: real, infoLabel: string)
    requires score > OVERRIDE_THRESHOLD
    ensures Reclassify(risk, score, infoLabel) == CRITICAL
  {
  }

  /** Without the override, "None" is renamed and every other label,
      known or not, passes through unchanged. A score of exactly 8.9 and a
      missing score (0) are both below the override. */
  lemma NoOverrideKeepsLabel(f: Finding, infoLabel: string)
    requires f.cvss3BaseScore.None? || f.cvss3BaseScore.value <= OVERRIDE_THRESHOLD
    ensures f.riskFactor == NONE_LABEL ==> Reclassified(f, infoLabel).riskFactor == infoLabel
    ensures f.riskFactor != NONE_LABEL ==> Reclassified(f, infoLabel).riskFactor == f.riskFactor
  {
  }

  /** Applying the rule twice changes nothing more, provided the renamed
      risk is not "None" again (true of "Info" and of "I"). */
  lemma ReclassifyIdempotent(risk: string, score: real, infoLabel: string)
    requires infoLabel != NONE_LABEL
    ensures Reclassify(Reclassify(risk, score, infoLabel), score, infoLabel)
         == Reclassify(risk, score, infoLabel)
  {
  }

  /** The raw labels a Nessus export uses, and the level each denotes. */
  function RawLevel(risk: string): Option<Level>
  {
    if risk == NONE_LABEL then Some(Info) else LevelOf(risk)
  }

  /** The classification as a function on levels: the override lifts any
      level to Critical, otherwise the raw level stands. */
  function Classify(raw: Level, score: real): Level
  {
    if score > OVERRIDE_THRESHOLD then Critical else raw
  }

  /** On the five raw labels of an export, the string rule of pyness3.py
      agrees with the level-valued classification, so its result is always
      one of the five display labels the counters look for. */
  lemma ReclassifyMatchesLevels(risk: string, score: real)
    requires RawLevel(risk).Some?
    ensures LevelOf(Reclassify(risk, score, INFO)) == Some(Classify(RawLevel(risk).value, score))
    ensures IsKnown(Reclassify(risk, score, INFO))
  {
  }

  /** In py_nessus.py a "None" finding below the override ends up with the
      label "I", which is not one of the five display labels. */
  lemma ShortInfoIsNotDisplayLabel(score: real)
    requires score <= OVERRIDE_THRESHOLD
    ensures Reclassify(NONE_LABEL, score, SHORT_INFO) == SHORT_INFO
    ensures !IsKnown(Reclassify(NONE_LABEL, score, SHORT_INFO))
  {
  }

  /** The module-level loop of py_nessus.py over one host's `ReportItem`
      list: every record's `risk_factor` is overwritten in place; no record
      is added, removed or reordered. */
  method RewriteRiskFactors(items: array<Finding>)
    modifies items
    ensures items[..] == ReclassifiedAll(old(items[..]), SHORT_INFO)
  {
    var i := 0;
    while i < items.Length
      invariant 0 <= i <= items.Length
      invariant forall j :: 0 <= j < i ==> items[j] == Reclassified(old(items[j]), SHORT_INFO)
      invariant forall j :: i <= j < items.Length ==> items[j] == old(items[j])
    {
      items[i] := Reclassified(items[i], SHORT_INFO);
      i := i + 1;
    }
  }

  /** The inner loop of `parse_reports` (pyness3.py) and of the module-level
      loop of py_nessJson.py: each record is rewritten in place and then
      appended to `listofVulns`, so the list holds every record once, in
      input order, after its rewrite. */
  method CollectHostFindings(items: array<Finding>) returns (listofVulns: seq<Finding>)
    modifies items
    ensures items[..] == ReclassifiedAll(old(items[..]), INFO)
    ensures listofVulns == items[..]
  {
    listofVulns := [];
    var i := 0;
    while i < items.Length
      invariant 0 <= i <= items.Length
      invariant forall j :: 0 <= j < i ==> items[j] == Reclassified(old(items[j]), INFO)
      invariant forall j :: i <= j < items.Length ==> items[j] == old(items[j])
      invariant listofVulns == items[..i]
    {
      items[i] := Reclassified(items[i], INFO);
      listofVulns := listofVulns + [items[i]];
      i := i + 1;
    }
  }
}
