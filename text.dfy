/** The string helpers of pyness3.py and py_nessJson.py: Python's
    `str.replace`, `cleanString`, the per-host file name, and `slugify`
    restricted to ASCII input. */
module Text {

  /** Python's `s.replace(pat, rep)`: occurrences of `pat` are found left to
      right and do not overlap; the text between them is copied. */
  function Replace(s: string, pat: string, rep: string): string
    requires |pat| > 0
    decreases |s|
  {
    if |s| < |pat| then s
    else if s[..|pat|] == pat then rep + Replace(s[|pat|..], pat, rep)
    else [s[0]] + Replace(s[1..], pat, rep)
  }

  predicate OccursAt(s: string, pat: string, i: int)
  {
    0 <= i && i + |pat| <= |s| && s[i..i + |pat|] == pat
  }

  ghost predicate Occurs(s: string, pat: string)
  {
    exists i :: OccursAt(s, pat, i)
  }

  /** A string without the pattern comes back unchanged. */
  lemma {:induction false} ReplaceAbsent(s: string, pat: string, rep: string)
    requires |pat| > 0 && !Occurs(s, pat)
    ensures Replace(s, pat, rep) == s
  {
    if |s| >= |pat| {
      assert !OccursAt(s, pat, 0);
      if Occurs(s[1..], pat) {
        var i :| OccursAt(s[1..], pat, i);
        assert s[1..][i..i + |pat|] == s[i + 1..i + 1 + |pat|];
        assert OccursAt(s, pat, i + 1);
      }
      ReplaceAbsent(s[1..], pat, rep);
    }
  }

  /** Replacing one character by one character keeps the length and rewrites
      exactly the positions holding that character. */
  lemma {:induction false} ReplaceOneChar(s: string, c: char, d: char)
    ensures |Replace(s, [c], [d])| == |s|
    ensures forall i :: 0 <= i < |s| ==> Replace(s, [c], [d])[i] == if s[i] == c then d else s[i]
  {
    if |s| > 0 {
      ReplaceOneChar(s[1..], c, d);
    }
  }

  /** Every character of the result comes from the input or from `rep`; a
      one-character pattern that `rep` does not contain is gone. */
  lemma {:induction false} ReplaceChars(s: string, pat: string, rep: string)
    requires |pat| > 0
    ensures forall ch :: ch in Replace(s, pat, rep) ==> ch in s || ch in rep
    ensures |pat| == 1 && pat[0] !in rep ==> pat[0] !in Replace(s, pat, rep)
  {
    if |s| >= |pat| {
      if s[..|pat|] == pat {
        ReplaceChars(s[|pat|..], pat, rep);
      } else {
        ReplaceChars(s[1..], pat, rep);
      }
    }
  }

  /** `cleanString`: angle brackets become the words LT and GT, then the
      PowerShell-style newline escape "`n" becomes an HTML line break. */
  function CleanString(s: string): string
  {
    var noLt := Replace(s, "<", "LT");
    var noGt := Replace(noLt, ">", "GT");
    Replace(noGt, "`n", "<br />")
  }

  const BR: string := "<br />"

  /** Every '<' of `r` opens a BR and every '>' closes one. */
  predicate MarkupOnlyInBreaks(r: string)
  {
    && (forall i :: 0 <= i < |r| && r[i] == '<' ==> i + 6 <= |r| && r[i..i + 6] == BR)
    && (forall i :: 0 <= i < |r| && r[i] == '>' ==> 5 <= i && r[i - 5..i + 1] == BR)
  }

  lemma PrependPlain(c: char, rest: string)
    requires c != '<' && c != '>' && MarkupOnlyInBreaks(rest)
    ensures MarkupOnlyInBreaks([c] + rest)
  {
    var r := [c] + rest;
    forall i | 0 < i < |r|
      ensures r[i] == rest[i - 1]
      ensures i + 6 <= |r| ==> r[i..i + 6] == rest[i - 1..i + 5]
      ensures 6 <= i ==> r[i - 5..i + 1] == rest[i - 6..i]
    {
    }
  }

  lemma PrependBreak(rest: string)
    requires MarkupOnlyInBreaks(rest)
    ensures MarkupOnlyInBreaks(BR + rest)
  {
    var r := BR + rest;
    forall i | 6 <= i < |r|
      ensures r[i] == rest[i - 6]
      ensures i + 6 <= |r| ==> r[i..i + 6] == rest[i - 6..i]
      ensures 11 <= i ==> r[i - 5..i + 1] == rest[i - 11..i - 5]
    {
    }
    assert r[0..6] == BR;
  }

  /** When `t` has no angle brackets, every one in `Replace(t, "`n", BR)`
      belongs to an inserted BR. */
  lemma {:induction false} BreaksAreOnlyMarkup(t: string)
    requires '<' !in t && '>' !in t
    ensures MarkupOnlyInBreaks(Replace(t, "`n", BR))
  {
    if |t| >= 2 {
      var k := if t[..2] == "`n" then 2 else 1;
      assert forall ch :: ch in t[k..] ==> ch in t;
      BreaksAreOnlyMarkup(t[k..]);
      if k == 2 {
        PrependBreak(Replace(t[2..], "`n", BR));
      } else {
        PrependPlain(t[0], Replace(t[1..], "`n", BR));
      }
    }
  }

  /** The output of `cleanString` holds no '<' or '>' except inside a BR
      that came from a "`n". */
  lemma CleanStringEscapes(s: string)
    ensures MarkupOnlyInBreaks(CleanString(s))
  {
    var noLt := Replace(s, "<", "LT");
    var noGt := Replace(noLt, ">", "GT");
    ReplaceChars(s, "<", "LT");
    ReplaceChars(noLt, ">", "GT");
    assert '<' !in noGt;
    BreaksAreOnlyMarkup(noGt);
  }

  lemma CharAbsentNotOccurs(s: string, c: char)
    requires c !in s
    ensures !Occurs(s, [c])
  {
    forall i | 0 <= i < |s|
      ensures !OccursAt(s, [c], i)
    {
      assert s[i] in s;
    }
  }

  /** A string with no '<', no '>' and no "`n" passes `cleanString` unchanged. */
  lemma CleanStringIdentity(s: string)
    requires '<' !in s && '>' !in s && !Occurs(s, "`n")
    ensures CleanString(s) == s
  {
    CharAbsentNotOccurs(s, '<');
    ReplaceAbsent(s, "<", "LT");
    CharAbsentNotOccurs(s, '>');
    ReplaceAbsent(s, ">", "GT");
    ReplaceAbsent(s, "`n", BR);
  }

  /** The per-host page name of pyness3.py:
      `hostname.replace('.', '_').replace('-', '_') + ".html"`. */
  function HostFileName(hostname: string): (r: string)
    ensures |r| == |hostname| + 5 && r[|hostname|..] == ".html"
    ensures forall i :: 0 <= i < |hostname| ==>
      r[i] == if hostname[i] == '.' || hostname[i] == '-' then '_' else hostname[i]
    ensures forall i :: 0 <= i < |hostname| ==> r[i] != '.' && r[i] != '-'
  {
    var dots := Replace(hostname, ".", "_");
    ReplaceOneChar(hostname, '.', '_');
    ReplaceOneChar(dots, '-', '_');
    Replace(dots, "-", "_") + ".html"
  }

  // ----- slugify, on ASCII input -----

  predicate IsAscii(s: string)
  {
    forall i :: 0 <= i < |s| ==> s[i] < '\U{80}'
  }

  function LowerChar(c: char): char
  {
    if 'A' <= c <= 'Z' then (c as int + 32) as char else c
  }

  /** `str.lower()` on ASCII text: no upper-case letter is left, each
      upper-case letter becomes its lower-case partner and every other
      character stays where it was. */
  function Lower(s: string): (r: string)
    ensures |r| == |s|
    ensures forall i :: 0 <= i < |r| ==> !('A' <= r[i] <= 'Z')
    ensures forall i :: 0 <= i < |s| && !('A' <= s[i] <= 'Z') ==> r[i] == s[i]
    ensures forall i :: 0 <= i < |s| && 'A' <= s[i] <= 'Z' ==> 'a' <= r[i] <= 'z' && r[i] as int - s[i] as int == 32
  {
    seq(|s|, i requires 0 <= i < |s| => LowerChar(s[i]))
  }

  /** `\w` on ASCII text. */
  predicate IsWordChar(c: char)
  {
    'a' <= c <= 'z' || 'A' <= c <= 'Z' || '0' <= c <= '9' || c == '_'
  }

  /** `\s` on ASCII text: space, tab to carriage return, and the four
      separator controls 0x1C to 0x1F. */
  predicate IsSpace(c: char)
  {
    c == ' ' || '\t' <= c <= '\r' || '\U{1C}' <= c <= '\U{1F}'
  }

  predicate IsDashOrSpace(c: char)
  {
    c == '-' || IsSpace(c)
  }

  /** `re.sub(r'[^\w\s-]', '', value)`: exactly the word characters,
      whitespace and dashes of the input survive, in their order
      (`KeepWordSpaceDashAppend` gives the order). */
  function KeepWordSpaceDash(s: string): (r: string)
    ensures |r| <= |s|
    ensures forall c :: c in r ==> c in s && (IsWordChar(c) || IsDashOrSpace(c))
    ensures forall c :: c in s && (IsWordChar(c) || IsDashOrSpace(c)) ==> c in r
    ensures (forall i :: 0 <= i < |s| ==> IsWordChar(s[i]) || IsDashOrSpace(s[i])) ==> r == s
  {
    if |s| == 0 then ""
    else if IsWordChar(s[0]) || IsDashOrSpace(s[0]) then [s[0]] + KeepWordSpaceDash(s[1..])
    else KeepWordSpaceDash(s[1..])
  }

  /** The filter works character by character: filtering a concatenation
      is filtering each part, so kept characters keep their order. */
  lemma {:induction false} KeepWordSpaceDashAppend(a: string, b: string)
    ensures KeepWordSpaceDash(a + b) == KeepWordSpaceDash(a) + KeepWordSpaceDash(b)
    decreases |a|
  {
    if |a| > 0 {
      assert (a + b)[0] == a[0] && (a + b)[1..] == a[1..] + b;
      KeepWordSpaceDashAppend(a[1..], b);
    } else {
      assert a + b == b;
    }
  }

  /** The input after its leading run of dashes and spaces. */
  function SkipRun(s: string): (t: string)
    ensures |t| <= |s| && t == s[|s| - |t|..]
    ensures forall i :: 0 <= i < |s| - |t| ==> IsDashOrSpace(s[i])
    ensures |t| > 0 ==> !IsDashOrSpace(t[0])
  {
    if |s| > 0 && IsDashOrSpace(s[0]) then SkipRun(s[1..]) else s
  }

  /** `re.sub(r'[-\s]+', '-', value)`: each maximal run of dashes and
      spaces becomes one dash. */
  function CollapseRuns(s: string): string
    decreases |s|
  {
    if |s| == 0 then ""
    else if IsDashOrSpace(s[0]) then "-" + CollapseRuns(SkipRun(s[1..]))
    else [s[0]] + CollapseRuns(s[1..])
  }

  predicate DashPairAt(s: string, i: int)
    requires 0 <= i < |s| - 1
  {
    s[i] == '-' && s[i + 1] == '-'
  }

  predicate NoDoubleDash(s: string)
  {
    forall i :: 0 <= i < |s| - 1 ==> !DashPairAt(s, i)
  }

  lemma NoDoubleDashSlice(s: string, a: nat, b: nat)
    requires a <= b <= |s| && NoDoubleDash(s)
    ensures NoDoubleDash(s[a..b])
  {
    forall i | 0 <= i < b - a - 1
      ensures !DashPairAt(s[a..b], i)
    {
      assert !DashPairAt(s, a + i);
    }
  }

  lemma NoDoubleDashCons(head: string, t: string)
    requires |head| == 1 && NoDoubleDash(t)
    requires !(head[0] == '-' && |t| > 0 && t[0] == '-')
    ensures NoDoubleDash(head + t)
  {
    var r := head + t;
    forall i | 0 <= i < |r| - 1
      ensures !DashPairAt(r, i)
    {
      if i > 0 {
        assert !DashPairAt(t, i - 1);
      }
    }
  }

  /** A character `slugify` may leave in place: lower-case letter, digit or
      underscore. */
  predicate IsLowerWordChar(c: char)
  {
    'a' <= c <= 'z' || '0' <= c <= '9' || c == '_'
  }

  /** What is left after lower-casing and filtering. */
  predicate AllLowerWordOrRun(s: string)
  {
    forall i :: 0 <= i < |s| ==> IsLowerWordChar(s[i]) || IsDashOrSpace(s[i])
  }

  predicate AllSlugChars(s: string)
  {
    forall i :: 0 <= i < |s| ==> IsLowerWordChar(s[i]) || s[i] == '-'
  }

  /** A run's dash is followed by a character that is not a dash. */
  lemma CollapseRunsHead(s: string)
    requires |s| > 0 && !IsDashOrSpace(s[0])
    ensures |CollapseRuns(s)| > 0 && CollapseRuns(s)[0] == s[0]
  {
  }

  lemma LowerWordOrRunSuffix(s: string, k: nat)
    requires k <= |s| && AllLowerWordOrRun(s)
    ensures AllLowerWordOrRun(s[k..])
  {
    assert forall i :: 0 <= i < |s| - k ==> s[k..][i] == s[k + i];
  }

  /** Collapsing the runs leaves only slug characters. */
  lemma {:induction false} CollapseRunsChars(s: string)
    requires AllLowerWordOrRun(s)
    ensures AllSlugChars(CollapseRuns(s))
    decreases |s|
  {
    if |s| > 0 {
      LowerWordOrRunSuffix(s, 1);
      if IsDashOrSpace(s[0]) {
        var t := SkipRun(s[1..]);
        LowerWordOrRunSuffix(s[1..], |s| - 1 - |t|);
        CollapseRunsChars(t);
        SlugCharsCons("-", CollapseRuns(t));
      } else {
        CollapseRunsChars(s[1..]);
        SlugCharsCons([s[0]], CollapseRuns(s[1..]));
      }
    }
  }

  lemma SlugCharsCons(head: string, t: string)
    requires |head| == 1 && (IsLowerWordChar(head[0]) || head[0] == '-') && AllSlugChars(t)
    ensures AllSlugChars(head + t)
  {
    assert forall i :: 1 <= i < |head + t| ==> (head + t)[i] == t[i - 1];
  }

  /** Collapsing the runs never leaves two dashes in a row. */
  lemma {:induction false} CollapseRunsNoDoubleDash(s: string)
    ensures NoDoubleDash(CollapseRuns(s))
    decreases |s|
  {
    if |s| > 0 {
      var r := CollapseRuns(s);
      if IsDashOrSpace(s[0]) {
        var t := SkipRun(s[1..]);
        CollapseRunsNoDoubleDash(t);
        if |t| > 0 {
          CollapseRunsHead(t);
        }
        assert r == "-" + CollapseRuns(t);
        NoDoubleDashCons("-", CollapseRuns(t));
      } else {
        CollapseRunsNoDoubleDash(s[1..]);
        assert r == [s[0]] + CollapseRuns(s[1..]);
        NoDoubleDashCons([s[0]], CollapseRuns(s[1..]));
      }
    }
  }

  predicate AllRun(r: string)
  {
    forall i :: 0 <= i < |r| ==> IsDashOrSpace(r[i])
  }

  predicate NoRunChar(w: string)
  {
    forall i :: 0 <= i < |w| ==> !IsDashOrSpace(w[i])
  }

  /** A whole run of dashes and spaces is skipped, up to the first
      character that is not one. */
  lemma {:induction false} SkipRunPrefix(r: string, t: string)
    requires AllRun(r)
    requires |t| > 0 ==> !IsDashOrSpace(t[0])
    ensures SkipRun(r + t) == t
    decreases |r|
  {
    if |r| > 0 {
      assert (r + t)[0] == r[0] && (r + t)[1..] == r[1..] + t;
      assert AllRun(r[1..]) by {
        assert forall i :: 0 <= i < |r| - 1 ==> r[1..][i] == r[i + 1];
      }
      SkipRunPrefix(r[1..], t);
    } else {
      assert r + t == t;
    }
  }

  /** One maximal run of dashes and spaces, whatever its length and mix,
      becomes exactly one dash. */
  lemma CollapseRunsRun(r: string, t: string)
    requires |r| > 0 && AllRun(r)
    requires |t| > 0 ==> !IsDashOrSpace(t[0])
    ensures CollapseRuns(r + t) == "-" + CollapseRuns(t)
  {
    assert (r + t)[0] == r[0] && (r + t)[1..] == r[1..] + t;
    assert AllRun(r[1..]) by {
      assert forall i :: 0 <= i < |r| - 1 ==> r[1..][i] == r[i + 1];
    }
    SkipRunPrefix(r[1..], t);
  }

  /** Characters outside runs are copied as they are. */
  lemma {:induction false} CollapseRunsWord(w: string, s: string)
    requires NoRunChar(w)
    ensures CollapseRuns(w + s) == w + CollapseRuns(s)
    decreases |w|
  {
    if |w| > 0 {
      var ws := w + s;
      assert ws[0] == w[0] && !IsDashOrSpace(ws[0]) && ws[1..] == w[1..] + s;
      assert CollapseRuns(ws) == [w[0]] + CollapseRuns(w[1..] + s);
      assert NoRunChar(w[1..]) by {
        assert forall i :: 0 <= i < |w| - 1 ==> w[1..][i] == w[i + 1];
      }
      CollapseRunsWord(w[1..], s);
      assert [w[0]] + (w[1..] + CollapseRuns(s)) == w + CollapseRuns(s);
    } else {
      assert w + s == s;
    }
  }

  predicate IsStripped(c: char)
  {
    c == '-' || c == '_'
  }

  /** `strip('-_')` on the left: the longest prefix of '-' and '_' is
      removed. */
  function StripLeft(s: string): (r: string)
    ensures |r| <= |s| && r == s[|s| - |r|..]
    ensures forall i :: 0 <= i < |s| - |r| ==> IsStripped(s[i])
    ensures |r| > 0 ==> !IsStripped(r[0])
  {
    if |s| > 0 && IsStripped(s[0]) then StripLeft(s[1..]) else s
  }

  /** `strip('-_')` on the right: the longest suffix of '-' and '_' is
      removed. */
  function StripRight(s: string): (r: string)
    ensures |r| <= |s| && r == s[..|r|]
    ensures forall i :: |r| <= i < |s| ==> IsStripped(s[i])
    ensures |r| > 0 ==> !IsStripped(r[|r| - 1])
  {
    if |s| > 0 && IsStripped(s[|s| - 1]) then StripRight(s[..|s| - 1]) else s
  }

  /** `str.strip('-_')`. */
  function Strip(s: string): string
  {
    StripRight(StripLeft(s))
  }

  /** `slugify(value)` of pyness3.py for ASCII text (where the NFKD
      normalisation and the ASCII re-encoding change nothing). */
  function Slugify(value: string): string
    requires IsAscii(value)
  {
    Strip(CollapseRuns(KeepWordSpaceDash(Lower(value))))
  }

  /** What a slug looks like: lower-case letters, digits, '_' and '-' only,
      no "--", and no '-' or '_' at either end. */
  predicate IsSlug(r: string)
  {
    && AllSlugChars(r)
    && NoDoubleDash(r)
    && (|r| > 0 ==> !IsStripped(r[0]) && !IsStripped(r[|r| - 1]))
  }

  lemma SliceKeepsSlugChars(s: string, a: nat, b: nat)
    requires a <= b <= |s| && AllSlugChars(s)
    ensures AllSlugChars(s[a..b])
  {
    assert forall i :: 0 <= i < b - a ==> s[a..b][i] == s[a + i];
  }

  lemma {:induction false} StripLeftShape(s: string)
    requires AllSlugChars(s) && NoDoubleDash(s)
    ensures AllSlugChars(StripLeft(s)) && NoDoubleDash(StripLeft(s))
  {
    if |s| > 0 && IsStripped(s[0]) {
      SliceKeepsSlugChars(s, 1, |s|);
      NoDoubleDashSlice(s, 1, |s|);
      assert s[1..|s|] == s[1..];
      StripLeftShape(s[1..]);
    }
  }

  lemma {:induction false} StripRightShape(s: string)
    requires AllSlugChars(s) && NoDoubleDash(s)
    ensures AllSlugChars(StripRight(s)) && NoDoubleDash(StripRight(s))
    ensures |StripRight(s)| > 0 ==> StripRight(s)[0] == s[0]
  {
    if |s| > 0 && IsStripped(s[|s| - 1]) {
      SliceKeepsSlugChars(s, 0, |s| - 1);
      NoDoubleDashSlice(s, 0, |s| - 1);
      StripRightShape(s[..|s| - 1]);
    }
  }

  lemma StripKeepsShape(s: string)
    requires AllSlugChars(s) && NoDoubleDash(s)
    ensures IsSlug(Strip(s))
  {
    StripLeftShape(s);
    StripRightShape(StripLeft(s));
  }

  /** Whatever ASCII text it is given, `slugify` returns a slug. */
  lemma SlugifyIsSlug(value: string)
    requires IsAscii(value)
    ensures IsSlug(Slugify(value))
  {
    var lowered := Lower(value);
    var kept := KeepWordSpaceDash(lowered);
    assert forall c :: c in lowered ==> !('A' <= c <= 'Z');
    assert AllLowerWordOrRun(kept) by {
      forall i | 0 <= i < |kept|
        ensures IsLowerWordChar(kept[i]) || IsDashOrSpace(kept[i])
      {
        assert kept[i] in kept;
      }
    }
    CollapseRunsChars(kept);
    CollapseRunsNoDoubleDash(kept);
    StripKeepsShape(CollapseRuns(kept));
  }

  lemma {:induction false} KeepSlugUnchanged(s: string)
    requires AllSlugChars(s)
    ensures KeepWordSpaceDash(s) == s
  {
    if |s| > 0 {
      KeepSlugUnchanged(s[1..]);
    }
  }

  lemma CollapseAtWord(s: string)
    requires |s| > 0 && !IsDashOrSpace(s[0])
    ensures CollapseRuns(s) == [s[0]] + CollapseRuns(s[1..])
  {
  }

  lemma CollapseAtDash(u: string)
    requires |u| > 0 && u[0] == '-' && (|u| > 1 ==> !IsDashOrSpace(u[1]))
    ensures CollapseRuns(u) == "-" + CollapseRuns(u[1..])
  {
    assert SkipRun(u[1..]) == u[1..];
  }

  /** What follows the first character (and the dash after it, if any) of
      a slug body is again a slug body that does not start a run. */
  lemma SlugTail(s: string, k: nat)
    requires AllSlugChars(s) && NoDoubleDash(s)
    requires 1 <= k <= 2 && k <= |s| && (k == 2 <==> |s| > 1 && s[1] == '-')
    ensures AllSlugChars(s[k..]) && NoDoubleDash(s[k..])
    ensures |s| > k ==> !IsDashOrSpace(s[k])
  {
    SliceKeepsSlugChars(s, k, |s|);
    NoDoubleDashSlice(s, k, |s|);
    assert s[k..|s|] == s[k..];
    if |s| > k {
      if k == 2 {
        assert !DashPairAt(s, 1);
      }
      assert s[k] != '-';
      assert IsLowerWordChar(s[k]);
    }
  }

  lemma SplitFirst(s: string)
    requires |s| > 0
    ensures [s[0]] + s[1..] == s
  {
  }

  lemma SplitAfterDash(s: string)
    requires |s| > 1 && s[1] == '-'
    ensures [s[0]] + ("-" + s[2..]) == s
  {
    assert s == s[..2] + s[2..];
  }

  lemma {:induction false} CollapseSlugUnchanged(s: string)
    requires AllSlugChars(s) && NoDoubleDash(s)
    requires |s| > 0 ==> s[0] != '-'
    ensures CollapseRuns(s) == s
    decreases |s|
  {
    if |s| > 1 && s[1] == '-' {
      SlugTail(s, 2);
      CollapseSlugUnchanged(s[2..]);
      var u := s[1..];
      assert u[1..] == s[2..];
      CollapseAtDash(u);
      CollapseAtWord(s);
      calc {
        CollapseRuns(s);
        [s[0]] + CollapseRuns(u);
        [s[0]] + ("-" + s[2..]);
        { SplitAfterDash(s); }
        s;
      }
    } else if |s| > 0 {
      SlugTail(s, 1);
      CollapseSlugUnchanged(s[1..]);
      CollapseAtWord(s);
      calc {
        CollapseRuns(s);
        [s[0]] + s[1..];
        { SplitFirst(s); }
        s;
      }
    }
  }

  /** A slug is ASCII and `slugify` leaves it unchanged. */
  lemma SlugFixedPoint(r: string)
    requires IsSlug(r)
    ensures IsAscii(r) && Slugify(r) == r
  {
    LowerSlugUnchanged(r);
    KeepSlugUnchanged(r);
    CollapseSlugUnchanged(r);
    assert StripLeft(r) == r;
    assert StripRight(r) == r;
    assert Strip(r) == r;
  }

  lemma LowerSlugUnchanged(r: string)
    requires AllSlugChars(r)
    ensures IsAscii(r) && Lower(r) == r
  {
    forall i | 0 <= i < |r|
      ensures r[i] < '\U{80}' && LowerChar(r[i]) == r[i]
    {
      assert IsLowerWordChar(r[i]) || r[i] == '-';
    }
  }

  // ----- what slugify keeps -----

  predicate IsAlnum(c: char)
  {
    'a' <= c <= 'z' || '0' <= c <= '9'
  }

  /** The lower-case letters and digits of a string, in order. */
  function AlnumOf(s: string): string
  {
    if |s| == 0 then ""
    else (if IsAlnum(s[0]) then [s[0]] else "") + AlnumOf(s[1..])
  }

  lemma {:induction false} AlnumOfAppend(a: string, b: string)
    ensures AlnumOf(a + b) == AlnumOf(a) + AlnumOf(b)
    decreases |a|
  {
    if |a| > 0 {
      assert (a + b)[0] == a[0] && (a + b)[1..] == a[1..] + b;
      AlnumOfAppend(a[1..], b);
    } else {
      assert a + b == b;
    }
  }

  lemma {:induction false} AlnumOfNone(s: string)
    requires forall i :: 0 <= i < |s| ==> !IsAlnum(s[i])
    ensures AlnumOf(s) == ""
    decreases |s|
  {
    if |s| > 0 {
      AlnumOfNone(s[1..]);
    }
  }

  /** A prefix without letters or digits contributes none. */
  lemma AlnumOfDropPrefix(s: string, k: nat)
    requires k <= |s| && forall i :: 0 <= i < k ==> !IsAlnum(s[i])
    ensures AlnumOf(s) == AlnumOf(s[k..])
  {
    assert s == s[..k] + s[k..];
    AlnumOfAppend(s[..k], s[k..]);
    AlnumOfNone(s[..k]);
  }

  /** A suffix without letters or digits contributes none. */
  lemma AlnumOfDropSuffix(s: string, k: nat)
    requires k <= |s| && forall i :: k <= i < |s| ==> !IsAlnum(s[i])
    ensures AlnumOf(s) == AlnumOf(s[..k])
  {
    assert s == s[..k] + s[k..];
    AlnumOfAppend(s[..k], s[k..]);
    AlnumOfNone(s[k..]);
  }

  /** Dropping `[^\w\s-]` keeps every letter and digit. */
  lemma {:induction false} KeepWordSpaceDashAlnum(s: string)
    ensures AlnumOf(KeepWordSpaceDash(s)) == AlnumOf(s)
    decreases |s|
  {
    if |s| > 0 {
      KeepWordSpaceDashAlnum(s[1..]);
      if IsWordChar(s[0]) || IsDashOrSpace(s[0]) {
        var r := [s[0]] + KeepWordSpaceDash(s[1..]);
        assert r[0] == s[0] && r[1..] == KeepWordSpaceDash(s[1..]);
      }
    }
  }

  /** Collapsing runs of dashes and spaces keeps every letter and digit. */
  lemma {:induction false} CollapseRunsAlnum(s: string)
    ensures AlnumOf(CollapseRuns(s)) == AlnumOf(s)
    decreases |s|
  {
    if |s| > 0 {
      if IsDashOrSpace(s[0]) {
        var t := SkipRun(s[1..]);
        CollapseRunsAlnum(t);
        AlnumOfDropPrefix(s[1..], |s| - 1 - |t|);
        var r := "-" + CollapseRuns(t);
        assert r[1..] == CollapseRuns(t);
      } else {
        CollapseRunsAlnum(s[1..]);
        var r := [s[0]] + CollapseRuns(s[1..]);
        assert r[0] == s[0] && r[1..] == CollapseRuns(s[1..]);
      }
    }
  }

  /** `strip('-_')` removes no letter or digit. */
  lemma StripAlnum(s: string)
    ensures AlnumOf(Strip(s)) == AlnumOf(s)
  {
    StripLeftAlnum(s);
    StripRightAlnum(StripLeft(s));
  }

  lemma StripLeftAlnum(s: string)
    ensures AlnumOf(StripLeft(s)) == AlnumOf(s)
  {
    AlnumOfDropPrefix(s, |s| - |StripLeft(s)|);
  }

  lemma StripRightAlnum(s: string)
    ensures AlnumOf(StripRight(s)) == AlnumOf(s)
  {
    AlnumOfDropSuffix(s, |StripRight(s)|);
  }

  /** `slugify` keeps every letter (lower-cased) and every digit of its
      input, in order, and adds none. */
  lemma SlugifyKeepsAlnum(value: string)
    requires IsAscii(value)
    ensures AlnumOf(Slugify(value)) == AlnumOf(Lower(value))
  {
    var kept := KeepWordSpaceDash(Lower(value));
    KeepWordSpaceDashAlnum(Lower(value));
    CollapseRunsAlnum(kept);
    StripAlnum(CollapseRuns(kept));
  }

  predicate AllAlnum(w: string)
  {
    forall i :: 0 <= i < |w| ==> IsAlnum(w[i])
  }

  /** An ASCII character that lower-casing and the filter both keep. */
  predicate IsPlain(c: char)
  {
    c < '\U{80}' && !('A' <= c <= 'Z') && (IsWordChar(c) || IsDashOrSpace(c))
  }

  predicate AllPlain(s: string)
  {
    forall i :: 0 <= i < |s| ==> IsPlain(s[i])
  }

  lemma AllPlainAppend(a: string, b: string)
    requires AllPlain(a) && AllPlain(b)
    ensures AllPlain(a + b)
  {
    assert forall i :: |a| <= i < |a + b| ==> (a + b)[i] == b[i - |a|];
  }

  /** Lower-casing and the filter leave plain text unchanged. */
  lemma PlainUnchanged(s: string)
    requires AllPlain(s)
    ensures IsAscii(s)
    ensures KeepWordSpaceDash(Lower(s)) == s
  {
    assert Lower(s) == s;
  }

  lemma CollapseWordRunWord(w1: string, r: string, w2: string)
    requires |r| > 0 && NoRunChar(w1) && AllRun(r) && NoRunChar(w2)
    ensures CollapseRuns(w1 + r + w2) == w1 + "-" + w2
  {
    assert w1 + r + w2 == w1 + (r + w2);
    CollapseRunsWord(w1, r + w2);
    CollapseRunsRun(r, w2);
    CollapseRunsWord(w2, "");
    assert w2 + "" == w2;
  }

  lemma StripUnchanged(c: string)
    requires |c| > 0 && !IsStripped(c[0]) && !IsStripped(c[|c| - 1])
    ensures Strip(c) == c
  {
    assert StripLeft(c) == c;
  }

  lemma AlnumWord(w: string)
    requires AllAlnum(w)
    ensures AllPlain(w) && NoRunChar(w)
  {
  }

  /** A run of spaces or dashes between two words becomes a single dash:
      `slugify("a  b")`, `slugify("a - b")` and `slugify("a--b")` are all
      "a-b". */
  lemma SlugifyJoinsWords(w1: string, r: string, w2: string)
    requires |w1| > 0 && |r| > 0 && |w2| > 0
    requires AllAlnum(w1) && AllRun(r) && AllAlnum(w2)
    ensures IsAscii(w1 + r + w2)
    ensures Slugify(w1 + r + w2) == w1 + "-" + w2
  {
    AlnumWord(w1);
    AlnumWord(w2);
    assert AllPlain(r);
    AllPlainAppend(w1, r);
    AllPlainAppend(w1 + r, w2);
    PlainUnchanged(w1 + r + w2);
    CollapseWordRunWord(w1, r, w2);
    var c := w1 + "-" + w2;
    assert c[0] == w1[0] && c[|c| - 1] == w2[|w2| - 1];
    StripUnchanged(c);
  }

  /** `slugify` applied to a slug returns it unchanged, so applying it twice
      is the same as applying it once. */
  lemma SlugifyIdempotent(value: string)
    requires IsAscii(value)
    ensures IsAscii(Slugify(value))
    ensures Slugify(Slugify(value)) == Slugify(value)
  {
    SlugifyIsSlug(value);
    SlugFixedPoint(Slugify(value));
  }
}
