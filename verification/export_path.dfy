/**
 * The file the report is written to: the configured `export` path, or a
 * default name stamped with the run's ISO-8601 time in which every run of
 * non-digits is collapsed to one hyphen.
 */
module ExportPath {
  import opened Wrappers
  import opened Strings

  /** `s` without its leading run of non-digits. */
  function SkipNonDigits(s: string): (r: string)
    ensures |r| <= |s| && r == s[|s| - |r|..]
    ensures r == [] || IsDigit(r[0])
    ensures forall i :: 0 <= i < |s| - |r| ==> !IsDigit(s[i])
  {
    if s == [] || IsDigit(s[0]) then s else SkipNonDigits(s[1..])
  }

  /** Digits and hyphens only, and never two hyphens side by side. */
  predicate IsCollapsed(s: string)
  {
    && (forall i :: 0 <= i < |s| ==> IsDigit(s[i]) || s[i] == '-')
    && (forall i :: 0 <= i < |s| - 1 ==> s[i] == '-' ==> s[i + 1] != '-')
  }

  /** `s.replace(/[^\d]+/g, '-')`: every maximal run of non-digits becomes a single hyphen. */
  function CollapseNonDigits(s: string): (r: string)
    ensures IsCollapsed(r)
    ensures s != [] ==> r != [] && (IsDigit(r[0]) <==> IsDigit(s[0]))
    decreases |s|
  {
    if s == [] then []
    else if IsDigit(s[0]) then [s[0]] + CollapseNonDigits(s[1..])
    else "-" + CollapseNonDigits(SkipNonDigits(s[1..]))
  }

  /** The digits of `s`, in order. */
  function Digits(s: string): (r: string)
    ensures AllDigits(r)
  {
    if s == [] then [] else (if IsDigit(s[0]) then [s[0]] else []) + Digits(s[1..])
  }

  lemma {:induction false} SkipKeepsDigits(s: string)
    ensures Digits(SkipNonDigits(s)) == Digits(s)
  {
    if s != [] && !IsDigit(s[0]) {
      SkipKeepsDigits(s[1..]);
    }
  }

  /** Collapsing keeps every digit of the timestamp, in order; only separators change. */
  lemma {:induction false} CollapseKeepsDigits(s: string)
    ensures Digits(CollapseNonDigits(s)) == Digits(s)
    decreases |s|
  {
    if s != [] {
      var r := CollapseNonDigits(s);
      if IsDigit(s[0]) {
        assert r[1..] == CollapseNonDigits(s[1..]);
        CollapseKeepsDigits(s[1..]);
      } else {
        var t := SkipNonDigits(s[1..]);
        assert r[1..] == CollapseNonDigits(t);
        CollapseKeepsDigits(t);
        SkipKeepsDigits(s[1..]);
      }
    }
  }

  /** A string that is already collapsed is left as it is. */
  lemma {:induction false} CollapseFixesCollapsed(s: string)
    requires IsCollapsed(s)
    ensures CollapseNonDigits(s) == s
  {
    if s != [] {
      var tail := s[1..];
      assert IsCollapsed(tail) by {
        assert forall i :: 0 <= i < |tail| ==> tail[i] == s[i + 1];
      }
      if !IsDigit(s[0]) {
        assert tail != [] ==> IsDigit(tail[0]) by {
          assert tail != [] ==> tail[0] == s[1];
        }
        assert SkipNonDigits(tail) == tail;
      }
      CollapseFixesCollapsed(tail);
    }
  }

  /** Collapsing twice is collapsing once. */
  lemma CollapseIdempotent(s: string)
    ensures CollapseNonDigits(CollapseNonDigits(s)) == CollapseNonDigits(s)
  {
    CollapseFixesCollapsed(CollapseNonDigits(s));
  }

  /** No character of `s` is a digit. */
  predicate NoDigits(s: string)
  {
    forall i :: 0 <= i < |s| ==> !IsDigit(s[i])
  }

  /** Skipping a run of non-digits stops at the digit that follows it. */
  lemma {:induction false} SkipRun(n: string, t: string)
    requires NoDigits(n) && (t == [] || IsDigit(t[0]))
    ensures SkipNonDigits(n + t) == t
  {
    if n == [] {
      assert n + t == t;
    } else {
      assert (n + t)[0] == n[0] && (n + t)[1..] == n[1..] + t;
      SkipRun(n[1..], t);
    }
  }

  /** Digits are copied as they are: collapsing `d + t` is `d` followed by collapsing `t`. */
  lemma {:induction false} CollapseDigitsPrefix(d: string, t: string)
    requires AllDigits(d)
    ensures CollapseNonDigits(d + t) == d + CollapseNonDigits(t)
  {
    if d == [] {
      assert d + t == t;
    } else {
      var s := d + t;
      assert IsDigit(s[0]) && s[0] == d[0];
      assert s[1..] == d[1..] + t;
      assert CollapseNonDigits(s) == [d[0]] + CollapseNonDigits(d[1..] + t);
      assert AllDigits(d[1..]) by {
        forall i | 0 <= i < |d[1..]| ensures IsDigit(d[1..][i]) {
          assert d[1..][i] == d[i + 1];
        }
      }
      CollapseDigitsPrefix(d[1..], t);
      assert [d[0]] + (d[1..] + CollapseNonDigits(t)) == d + CollapseNonDigits(t);
    }
  }

  /** A maximal run of non-digits, however long, becomes exactly one hyphen. */
  lemma CollapseNonDigitRun(n: string, t: string)
    requires n != [] && NoDigits(n) && (t == [] || IsDigit(t[0]))
    ensures CollapseNonDigits(n + t) == "-" + CollapseNonDigits(t)
  {
    assert (n + t)[0] == n[0] && (n + t)[1..] == n[1..] + t;
    SkipRun(n[1..], t);
  }

  /**
   * A time written as digit fields, each followed by one separator, as
   * `toISOString` writes `2026-10-11T04:19:00.123Z`.
   */
  function Stamped(fields: seq<string>, separators: string): string
    requires |fields| == |separators|
  {
    if fields == [] then [] else fields[0] + [separators[0]] + Stamped(fields[1..], separators[1..])
  }

  /** The fields, each followed by a hyphen. */
  function Hyphenated(fields: seq<string>): string
  {
    if fields == [] then [] else fields[0] + "-" + Hyphenated(fields[1..])
  }

  /** Non-empty digit fields separated (and ended) by single non-digit characters. */
  predicate IsoShaped(fields: seq<string>, separators: string)
  {
    && |fields| == |separators|
    && (forall k :: 0 <= k < |fields| ==> |fields[k]| > 0 && AllDigits(fields[k]))
    && NoDigits(separators)
  }

  /** Collapsing an ISO-shaped time replaces each separator by a hyphen and keeps every field. */
  lemma {:induction false} CollapseIsoTime(fields: seq<string>, separators: string)
    requires IsoShaped(fields, separators)
    ensures CollapseNonDigits(Stamped(fields, separators)) == Hyphenated(fields)
  {
    if fields != [] {
      var rest := Stamped(fields[1..], separators[1..]);
      assert IsoShaped(fields[1..], separators[1..]);
      CollapseIsoTime(fields[1..], separators[1..]);
      assert rest == [] || IsDigit(rest[0]) by {
        if fields[1..] != [] {
          assert rest[0] == fields[1][0];
        }
      }
      CollapseNonDigitRun([separators[0]], rest);
      CollapseDigitsPrefix(fields[0], [separators[0]] + rest);
      assert Stamped(fields, separators) == fields[0] + ([separators[0]] + rest);
    }
  }

  const ReportPrefix: string := "newman/newman-run-report-"
  const ReportSuffix: string := "0.xlsx"

  /** `reporterOptions.export ?? \`newman/newman-run-report-${timestamp}0.xlsx\`` */
  function OutputPath(exportPath: Option<string>, isoTimestamp: string): (path: string)
    ensures exportPath.Some? ==> path == exportPath.value
  {
    match exportPath
    case Some(p) => p
    case None => ReportPrefix + CollapseNonDigits(isoTimestamp) + ReportSuffix
  }

  /**
   * Without `export` the path is the fixed prefix, then a stamp of digits and
   * single hyphens carrying every digit of the ISO time in order, then the suffix.
   */
  lemma DefaultPathShape(isoTimestamp: string)
    ensures var path := OutputPath(None, isoTimestamp);
            && |path| >= |ReportPrefix| + |ReportSuffix|
            && path[..|ReportPrefix|] == ReportPrefix
            && path[|path| - |ReportSuffix|..] == ReportSuffix
            && IsCollapsed(path[|ReportPrefix|..|path| - |ReportSuffix|])
            && Digits(path[|ReportPrefix|..|path| - |ReportSuffix|]) == Digits(isoTimestamp)
  {
    var stamp := CollapseNonDigits(isoTimestamp);
    var path := OutputPath(None, isoTimestamp);
    assert path[|ReportPrefix|..|path| - |ReportSuffix|] == stamp;
    CollapseKeepsDigits(isoTimestamp);
  }

  /** Without `export`, an ISO-shaped time gives the path whose stamp is its fields joined and ended by hyphens. */
  lemma DefaultPathOfIsoTime(fields: seq<string>, separators: string)
    requires IsoShaped(fields, separators)
    ensures OutputPath(None, Stamped(fields, separators)) == ReportPrefix + Hyphenated(fields) + ReportSuffix
  {
    CollapseIsoTime(fields, separators);
  }

  /** An `export` option of the empty string is kept: only a missing option falls back to the default. */
  lemma EmptyExportIsKept(isoTimestamp: string)
    ensures OutputPath(Some(""), isoTimestamp) == ""
  {
  }
}
