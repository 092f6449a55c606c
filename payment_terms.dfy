/**
 * The payment-term parser `extrair_metricas` of src/custom_transformers.py.
 *
 * A free-text payment term such as "30/60/90 dd boleto" is lower-cased, the
 * noise tokens `boleto`, `dd`, `x`, `(` and `)` are deleted in one
 * left-to-right pass, and the maximal runs of decimal digits that remain are
 * read as the installment terms in days. The two regular expressions of the
 * source are written out here as recursive string functions.
 */
module PaymentTerms {
  import opened Wrappers
  import opened Text

  // ---------------------------------------------------------------------------
  // Noise stripping: re.sub(r"(boleto|dd|x|\(|\))", "", text)
  // ---------------------------------------------------------------------------

  /** The alternatives of the noise pattern, in the order the pattern tries them. */
  const NoiseTokens: seq<string> := ["boleto", "dd", "x", "(", ")"]

  /**
   * The length of the first alternative that matches at the start of s, or 0
   * when none does (what the regular-expression engine tries at one position).
   */
  function MatchLength(alts: seq<string>, s: string): (n: nat)
    requires forall j :: 0 <= j < |alts| ==> alts[j] != []
    ensures n <= |s|
    ensures n > 0 <==> exists j :: 0 <= j < |alts| && IsPrefix(alts[j], s)
    ensures n > 0 ==> s[..n] in alts
  {
    if alts == [] then 0
    else if IsPrefix(alts[0], s) then |alts[0]|
    else MatchLength(alts[1..], s)
  }

  /**
   * One left-to-right pass that deletes every leftmost, non-overlapping
   * occurrence of a noise token; what the deletion brings together is not
   * scanned again.
   */
  function StripNoise(s: string): (r: string)
    ensures |r| <= |s|
    decreases |s|
  {
    if s == [] then []
    else
      var n := MatchLength(NoiseTokens, s);
      if n > 0 then StripNoise(s[n..])
      else [s[0]] + StripNoise(s[1..])
  }

  /** The stripped text holds no parenthesis and no "x": each of them is a whole noise token. */
  lemma {:induction false} StripNoiseRemovesParens(s: string)
    ensures forall i :: 0 <= i < |StripNoise(s)| ==> StripNoise(s)[i] !in "x()"
    decreases |s|
  {
    if s != [] {
      var n := MatchLength(NoiseTokens, s);
      if n > 0 {
        StripNoiseRemovesParens(s[n..]);
      } else {
        StripNoiseRemovesParens(s[1..]);
        PrefixHead("x", s);
        PrefixHead("(", s);
        PrefixHead(")", s);
        assert !IsPrefix(NoiseTokens[2], s) && !IsPrefix(NoiseTokens[3], s) && !IsPrefix(NoiseTokens[4], s);
        assert ""[..0] == "";
        assert s[0] !in "x()";
      }
    }
  }

  /** No noise token holds a digit. */
  lemma NoiseTokensHaveNoDigits(t: string)
    requires t in NoiseTokens
    ensures Digits(t) == []
  {
    DigitsEmptyIff(t);
  }

  /** Stripping keeps exactly the digits of its input, in their order. */
  lemma {:induction false} StripNoiseKeepsDigits(s: string)
    ensures Digits(StripNoise(s)) == Digits(s)
    decreases |s|
  {
    if s != [] {
      var n := MatchLength(NoiseTokens, s);
      if n > 0 {
        StripNoiseKeepsDigits(s[n..]);
        NoiseTokensHaveNoDigits(s[..n]);
        assert s == s[..n] + s[n..];
        DigitsAppend(s[..n], s[n..]);
      } else {
        StripNoiseKeepsDigits(s[1..]);
        DigitsAppend([s[0]], StripNoise(s[1..]));
        assert [s[0]][1..] == [];
      }
    }
  }

  /** The noise tokens begin with five different characters. */
  lemma NoiseTokenByFirst(a: string, b: string)
    requires a in NoiseTokens && b in NoiseTokens && a[0] == b[0]
    ensures a == b
  {
  }

  lemma PrefixHead(w: string, s: string)
    requires w != []
    ensures IsPrefix(w, s) ==> s != [] && s[0] == w[0] && IsPrefix(w[1..], s[1..])
  {
    if IsPrefix(w, s) {
      assert s[1..][..|w| - 1] == s[..|w|][1..];
    }
  }

  /** A character that starts no noise token is kept. */
  lemma StripNoiseKeeps(c: char, rest: string)
    requires c != 'x' && c != '(' && c != ')'
    requires c == 'd' ==> rest == [] || rest[0] != 'd'
    requires c == 'b' ==> !IsPrefix("oleto", rest)
    ensures StripNoise([c] + rest) == [c] + StripNoise(rest)
  {
    var s := [c] + rest;
    assert s[0] == c && s[1..] == rest;
    assert "boleto"[1..] == "oleto" && "dd"[1..] == "d";
    PrefixHead("boleto", s);
    PrefixHead("dd", s);
    PrefixHead("d", rest);
    PrefixHead("x", s);
    PrefixHead("(", s);
    PrefixHead(")", s);
    assert forall j :: 0 <= j < |NoiseTokens| ==> !IsPrefix(NoiseTokens[j], s);
  }

  /** A noise token at the front is deleted. */
  lemma StripNoiseDeletes(tok: string, rest: string)
    requires tok in NoiseTokens
    ensures StripNoise(tok + rest) == StripNoise(rest)
  {
    var s := tok + rest;
    assert s[..|tok|] == tok;
    var n := MatchLength(NoiseTokens, s);
    assert n > 0;
    var other := s[..n];
    assert other in NoiseTokens;
    assert other[0] == s[0] == tok[0];
    NoiseTokenByFirst(other, tok);
    assert s[n..] == rest;
  }

  /** "dd" is deleted, but "dxd" loses only its "x" and becomes "dd": the pass is single. */
  lemma StripNoiseSinglePass()
    ensures StripNoise("dd") == ""
    ensures StripNoise("dxd") == "dd"
  {
    calc {
      StripNoise("dd");
    == { assert "dd" == "dd" + ""; }
      StripNoise("dd" + "");
    == { StripNoiseDeletes("dd", ""); }
      StripNoise("");
    ==
      "";
    }
    calc {
      StripNoise("dxd");
    == { assert "dxd" == ['d'] + "xd"; }
      StripNoise(['d'] + "xd");
    == { StripNoiseKeeps('d', "xd"); }
      ['d'] + StripNoise("xd");
    == { assert "xd" == "x" + "d"; }
      ['d'] + StripNoise("x" + "d");
    == { StripNoiseDeletes("x", "d"); }
      ['d'] + StripNoise("d");
    == { assert "d" == ['d'] + ""; }
      ['d'] + StripNoise(['d'] + "");
    == { StripNoiseKeeps('d', ""); }
      ['d'] + (['d'] + StripNoise(""));
    ==
      "dd";
    }
  }

  /** A digit run interrupted by a noise token is joined up: "3x30" becomes "330". */
  lemma StripNoiseJoinsDigits()
    ensures StripNoise("3x30") == "330"
  {
    calc {
      StripNoise("3x30");
    == { assert "3x30" == ['3'] + "x30"; }
      StripNoise(['3'] + "x30");
    == { StripNoiseKeeps('3', "x30"); }
      ['3'] + StripNoise("x30");
    == { assert "x30" == "x" + "30"; }
      ['3'] + StripNoise("x" + "30");
    == { StripNoiseDeletes("x", "30"); }
      ['3'] + StripNoise("30");
    == { assert AllPlain("30"); assert "30" == "30" + ""; StripNoisePlainPrefix("30", ""); }
      ['3'] + ("30" + StripNoise(""));
    ==
      "330";
    }
  }

  /** A character that no noise token begins with. */
  predicate Plain(c: char)
  {
    c != 'b' && c != 'd' && c != 'x' && c != '(' && c != ')'
  }

  predicate AllPlain(a: string)
  {
    a == [] || (Plain(a[0]) && AllPlain(a[1..]))
  }

  /** A prefix holding no character that can start a noise token passes through unchanged. */
  lemma {:induction false} StripNoisePlainPrefix(a: string, rest: string)
    requires AllPlain(a)
    ensures StripNoise(a + rest) == a + StripNoise(rest)
  {
    if a == [] {
      assert a + rest == rest;
    } else {
      var c, tail := a[0], a[1..];
      var sr := StripNoise(rest);
      calc {
        StripNoise(a + rest);
      == { assert a == [c] + tail; }
        StripNoise(([c] + tail) + rest);
      == { StripNoiseCons(c, tail, rest); }
        [c] + StripNoise(tail + rest);
      == { StripNoisePlainPrefix(tail, rest); }
        [c] + (tail + sr);
      == { assert a == [c] + tail; }
        a + sr;
      }
    }
  }

  lemma StripNoiseCons(c: char, tail: string, rest: string)
    requires Plain(c)
    ensures StripNoise(([c] + tail) + rest) == [c] + StripNoise(tail + rest)
  {
    assert ([c] + tail) + rest == [c] + (tail + rest);
    StripNoiseKeeps(c, tail + rest);
  }

  // ---------------------------------------------------------------------------
  // Digit runs: re.findall(r"\d+", text)
  // ---------------------------------------------------------------------------

  /** The length of the longest all-digit prefix of s. */
  function DigitPrefixLength(s: string): (k: nat)
    ensures k <= |s|
    ensures forall i :: 0 <= i < k ==> IsDigit(s[i])
    ensures k < |s| ==> !IsDigit(s[k])
  {
    if s != [] && IsDigit(s[0]) then 1 + DigitPrefixLength(s[1..]) else 0
  }

  /** The maximal runs of digits in s, from left to right. */
  function DigitRuns(s: string): (runs: seq<string>)
    ensures forall j :: 0 <= j < |runs| ==> runs[j] != [] && AllDigits(runs[j])
    decreases |s|
  {
    if s == [] then []
    else if !IsDigit(s[0]) then DigitRuns(s[1..])
    else
      var k := DigitPrefixLength(s);
      [s[..k]] + DigitRuns(s[k..])
  }

  function Concat(runs: seq<string>): string
  {
    if runs == [] then [] else runs[0] + Concat(runs[1..])
  }

  /**
   * The reference count of digit runs: the number of positions holding a
   * digit that follows a non-digit or the start (`afterDigit` says whether the
   * character before s was a digit).
   */
  function RunStarts(afterDigit: bool, s: string): nat
    decreases |s|
  {
    if s == [] then 0
    else (if IsDigit(s[0]) && !afterDigit then 1 else 0) + RunStarts(IsDigit(s[0]), s[1..])
  }

  lemma {:induction false} DigitsOfAllDigits(s: string)
    requires AllDigits(s)
    ensures Digits(s) == s
  {
    if s != [] {
      DigitsOfAllDigits(s[1..]);
      assert s == [s[0]] + s[1..];
    }
  }

  /** Read together, the runs are exactly the digits of s. */
  lemma {:induction false} DigitRunsConcat(s: string)
    ensures Concat(DigitRuns(s)) == Digits(s)
    decreases |s|
  {
    if s != [] {
      if !IsDigit(s[0]) {
        DigitRunsConcat(s[1..]);
      } else {
        var k := DigitPrefixLength(s);
        DigitRunsConcat(s[k..]);
        DigitsOfAllDigits(s[..k]);
        assert s == s[..k] + s[k..];
        DigitsAppend(s[..k], s[k..]);
        var runs := [s[..k]] + DigitRuns(s[k..]);
        assert runs[0] == s[..k] && runs[1..] == DigitRuns(s[k..]);
      }
    }
  }

  lemma {:induction false} DigitPrefixLengthAppend(run: string, rest: string)
    requires AllDigits(run)
    ensures DigitPrefixLength(run + rest) == |run| + DigitPrefixLength(rest)
  {
    if run != [] {
      DigitPrefixLengthAppend(run[1..], rest);
      assert (run + rest)[1..] == run[1..] + rest;
    } else {
      assert run + rest == rest;
    }
  }

  /** A whole run at the front is the first run. */
  lemma DigitRunsRun(run: string, rest: string)
    requires run != [] && AllDigits(run)
    requires rest == [] || !IsDigit(rest[0])
    ensures DigitRuns(run + rest) == [run] + DigitRuns(rest)
  {
    var s := run + rest;
    DigitPrefixLengthAppend(run, rest);
    assert DigitPrefixLength(rest) == 0;
    assert s[..|run|] == run && s[|run|..] == rest;
  }

  /** A non-digit at the front starts no run. */
  lemma DigitRunsSkip(c: char, rest: string)
    requires !IsDigit(c)
    ensures DigitRuns([c] + rest) == DigitRuns(rest)
  {
    assert ([c] + rest)[1..] == rest;
  }

  /** Skipping the rest of a digit run does not start a new one. */
  lemma {:induction false} RunStartsSkipRun(t: string, j: nat)
    requires j <= |t|
    requires forall i :: 0 <= i < j ==> IsDigit(t[i])
    requires j == |t| || !IsDigit(t[j])
    ensures RunStarts(true, t) == RunStarts(false, t[j..])
  {
    if j > 0 {
      RunStartsSkipRun(t[1..], j - 1);
      assert t[1..][j - 1..] == t[j..];
    }
  }

  /** There are as many runs as positions where a run starts. */
  lemma {:induction false} DigitRunsCount(s: string)
    ensures |DigitRuns(s)| == RunStarts(false, s)
    decreases |s|
  {
    if s != [] {
      if !IsDigit(s[0]) {
        DigitRunsCount(s[1..]);
      } else {
        var k := DigitPrefixLength(s);
        DigitRunsCount(s[k..]);
        RunStartsSkipRun(s[1..], k - 1);
        assert s[1..][k - 1..] == s[k..];
      }
    }
  }

  /** There is no run exactly when there is no digit. */
  lemma DigitRunsEmptyIff(s: string)
    ensures DigitRuns(s) == [] <==> Digits(s) == []
  {
    DigitRunsConcat(s);
    var runs := DigitRuns(s);
    if runs != [] {
      assert Concat(runs) == runs[0] + Concat(runs[1..]);
      assert |Concat(runs)| >= |runs[0]| > 0;
    }
  }

  // ---------------------------------------------------------------------------
  // Reading a run as a number: int(run)
  // ---------------------------------------------------------------------------

  function DigitValue(c: char): (v: nat)
    requires IsDigit(c)
    ensures v < 10
  {
    c as int - '0' as int
  }

  function DigitChar(d: nat): (c: char)
    requires d < 10
    ensures IsDigit(c) && DigitValue(c) == d
  {
    ('0' as int + d) as char
  }

  /** The decimal value of a string of digits; leading zeros are allowed. */
  function ParseNat(ds: string): nat
    requires AllDigits(ds)
    decreases |ds|
  {
    if ds == [] then 0 else 10 * ParseNat(ds[..|ds| - 1]) + DigitValue(ds[|ds| - 1])
  }

  /** The canonical decimal rendering of n, the inverse partner of ParseNat. */
  function NatToDigits(n: nat): (ds: string)
    ensures ds != [] && AllDigits(ds)
    decreases n
  {
    if n < 10 then [DigitChar(n)] else NatToDigits(n / 10) + [DigitChar(n % 10)]
  }

  lemma {:induction false} ParseNatToDigits(n: nat)
    ensures ParseNat(NatToDigits(n)) == n
    decreases n
  {
    if n >= 10 {
      ParseNatToDigits(n / 10);
      var ds := NatToDigits(n);
      assert ds[..|ds| - 1] == NatToDigits(n / 10);
    }
  }

  /** A leading zero does not change the value: int("030") is 30. */
  lemma {:induction false} ParseNatLeadingZero(ds: string)
    requires AllDigits(ds)
    ensures AllDigits("0" + ds) && ParseNat("0" + ds) == ParseNat(ds)
    decreases |ds|
  {
    var zs := "0" + ds;
    assert AllDigits(zs);
    if ds != [] {
      ParseNatLeadingZero(ds[..|ds| - 1]);
      assert zs[..|zs| - 1] == "0" + ds[..|ds| - 1];
    } else {
      assert zs == "0";
    }
  }

  function ParseAll(runs: seq<string>): (ns: seq<nat>)
    requires forall j :: 0 <= j < |runs| ==> AllDigits(runs[j])
    ensures |ns| == |runs|
    ensures forall j :: 0 <= j < |runs| ==> ns[j] == ParseNat(runs[j])
  {
    if runs == [] then [] else [ParseNat(runs[0])] + ParseAll(runs[1..])
  }

  // ---------------------------------------------------------------------------
  // extrair_metricas
  // ---------------------------------------------------------------------------

  /** What the parser makes of one payment term. */
  datatype Metrics =
    | Missing                   // absent value or "missing": (NaN, NaN, NaN)
    | Vista                     // "boleto a vista": (1, 0, 0)
    | NoDigits                  // no digit left after stripping: (0, 0, 0)
    | Numbers(values: seq<nat>) // the installment terms, in order of appearance

  predicate IsSentinel(text: string)
  {
    Lower(text) == "missing" || Lower(text) == "boleto a vista"
  }

  /** The text the digit runs are read from. */
  function Cleaned(text: string): string
  {
    StripNoise(Lower(text))
  }

  lemma {:induction false} DigitsLower(s: string)
    ensures Digits(Lower(s)) == Digits(s)
  {
    if s != [] {
      DigitsLower(s[1..]);
      assert Lower(s)[1..] == Lower(s[1..]);
    }
  }

  /**
   * `extrair_metricas`: the "missing" check comes first, then the cash case,
   * then numbers are read off the stripped text.
   */
  function ExtrairMetricas(valor: Option<string>): (m: Metrics)
    ensures m.Missing? <==> valor.None? || Lower(valor.value) == "missing"
    ensures m.Vista? <==> valor.Some? && Lower(valor.value) == "boleto a vista"
    ensures m.NoDigits? <==> valor.Some? && !IsSentinel(valor.value) && Digits(valor.value) == []
    ensures m.Numbers? ==> |m.values| == RunStarts(false, Cleaned(valor.value)) >= 1
  {
    if valor.None? || Lower(valor.value) == "missing" then Missing
    else if Lower(valor.value) == "boleto a vista" then Vista
    else
      var cleaned := Cleaned(valor.value);
      var runs := DigitRuns(cleaned);
      DigitRunsEmptyIff(cleaned);
      StripNoiseKeepsDigits(Lower(valor.value));
      DigitsLower(valor.value);
      DigitRunsCount(cleaned);
      if runs == [] then NoDigits else Numbers(ParseAll(runs))
  }

  /**
   * Unfolds ExtrairMetricas in the numbers case, for the worked examples below:
   * outside the sentinels the terms are the values of the digit runs of the cleaned text.
   */
  lemma ExtrairMetricasNumbers(v: string)
    requires !IsSentinel(v) && DigitRuns(Cleaned(v)) != []
    ensures ExtrairMetricas(Some(v)) == Numbers(ParseAll(DigitRuns(Cleaned(v))))
  {
  }

  /** In the numbers case the digit runs, written one after another, are exactly the digits of the input. */
  lemma NumbersKeepDigits(v: string)
    requires ExtrairMetricas(Some(v)).Numbers?
    ensures Concat(DigitRuns(Cleaned(v))) == Digits(v)
  {
    DigitRunsConcat(Cleaned(v));
    StripNoiseKeepsDigits(Lower(v));
    DigitsLower(v);
  }

  /** In the numbers case the terms are, in order, the values of the digit runs of the cleaned text. */
  lemma NumbersAreTheRuns(v: string)
    requires ExtrairMetricas(Some(v)).Numbers?
    ensures var runs := DigitRuns(Cleaned(v));
      && |ExtrairMetricas(Some(v)).values| == |runs|
      && forall j :: 0 <= j < |runs| ==> ExtrairMetricas(Some(v)).values[j] == ParseNat(runs[j])
  {
  }

  // ---------------------------------------------------------------------------
  // The returned triple (n_parcelas, prazo_medio, prazo_maximo)
  // ---------------------------------------------------------------------------

  /** A mean kept as a sum and a count: the value is sum / count. */
  datatype Mean = Mean(sum: nat, count: nat)

  datatype Triple = Triple(nParcelas: nat, prazoMedio: Mean, prazoMaximo: nat)

  function Max(vs: seq<nat>): (m: nat)
    requires vs != []
    ensures m in vs
    ensures forall j :: 0 <= j < |vs| ==> vs[j] <= m
  {
    if |vs| == 1 then vs[0]
    else var t := Max(vs[1..]); if vs[0] < t then t else vs[0]
  }

  function Min(vs: seq<nat>): (m: nat)
    requires vs != []
    ensures m in vs
    ensures forall j :: 0 <= j < |vs| ==> m <= vs[j]
  {
    if |vs| == 1 then vs[0]
    else var t := Min(vs[1..]); if t < vs[0] then t else vs[0]
  }

  function Sum(vs: seq<nat>): nat
  {
    if vs == [] then 0 else vs[0] + Sum(vs[1..])
  }

  /** A sum of values between lo and hi lies between count * lo and count * hi. */
  lemma {:induction false} SumBounds(vs: seq<nat>, lo: nat, hi: nat)
    requires forall j :: 0 <= j < |vs| ==> lo <= vs[j] <= hi
    ensures |vs| * lo <= Sum(vs) <= |vs| * hi
  {
    if vs != [] {
      SumBounds(vs[1..], lo, hi);
      assert |vs| * lo == lo + |vs[1..]| * lo;
      assert |vs| * hi == hi + |vs[1..]| * hi;
    }
  }

  predicate ValidMetrics(m: Metrics)
  {
    m.Numbers? ==> m.values != []
  }

  /**
   * The tuple the parser returns; None stands for the NaN triple. In the
   * numbers case the count is the number of terms, the maximum is one of the
   * terms and bounds all of them, and the mean is the sum of the terms over
   * their count, which lies between the smallest and the largest term.
   */
  function AsTriple(m: Metrics): (t: Option<Triple>)
    requires ValidMetrics(m)
    ensures t.None? <==> m.Missing?
    ensures m.Vista? ==> t == Some(Triple(1, Mean(0, 1), 0))
    ensures m.NoDigits? ==> t == Some(Triple(0, Mean(0, 1), 0))
    ensures m.Numbers? ==>
              && t.Some?
              && t.value.nParcelas == |m.values| == t.value.prazoMedio.count
              && t.value.prazoMaximo in m.values
              && (forall j :: 0 <= j < |m.values| ==> m.values[j] <= t.value.prazoMaximo)
              && t.value.prazoMedio.count * Min(m.values) <= t.value.prazoMedio.sum
              && t.value.prazoMedio.sum <= t.value.prazoMedio.count * t.value.prazoMaximo
              && t.value.prazoMedio.sum == Sum(m.values)
  {
    match m
    case Missing => None
    case Vista => Some(Triple(1, Mean(0, 1), 0))
    case NoDigits => Some(Triple(0, Mean(0, 1), 0))
    case Numbers(vs) =>
      SumBounds(vs, Min(vs), Max(vs));
      Some(Triple(|vs|, Mean(Sum(vs), |vs|), Max(vs)))
  }

  lemma ParseSmallExamples()
    ensures AllDigits("30") && ParseNat("30") == 30
    ensures AllDigits("60") && ParseNat("60") == 60
    ensures AllDigits("90") && ParseNat("90") == 90
    ensures AllDigits("330") && ParseNat("330") == 330
  {
    assert "30"[..1] == "3" && "60"[..1] == "6" && "90"[..1] == "9";
    assert "330"[..2] == "33" && "33"[..1] == "3";
    assert "3"[..0] == "" && "6"[..0] == "" && "9"[..0] == "";
  }

  /** The sentinel check ignores case and comes first: "MISSING" is the NaN triple. */
  lemma MissingExample(v: string)
    requires v == "MISSING"
    ensures AsTriple(ExtrairMetricas(Some(v))) == None
  {
    assert Lower(v) == "missing";
  }

  /** Cash payment, in any case: (1, 0, 0). */
  lemma VistaExample(v: string)
    requires v == "Boleto a Vista"
    ensures AsTriple(ExtrairMetricas(Some(v))) == Some(Triple(1, Mean(0, 1), 0))
  {
    assert Lower(v) == "boleto a vista";
  }

  /** A text without digits: (0, 0, 0). */
  lemma NoDigitsExample(v: string)
    requires v == "xyz"
    ensures AsTriple(ExtrairMetricas(Some(v))) == Some(Triple(0, Mean(0, 1), 0))
  {
    LowerWithoutCapitals(v);
    assert !IsSentinel(v);
    DigitsEmptyIff(v);
  }

  /** "3x30" is read as one term of 330 days, not as 3 times 30. */
  lemma JoinedDigitsExample(v: string)
    requires v == "3x30"
    ensures ExtrairMetricas(Some(v)) == Numbers([330])
  {
    assert Lower(v) == v by { LowerWithoutCapitals(v); }
    assert !IsSentinel(v);
    assert Cleaned(v) == "330" by { StripNoiseJoinsDigits(); }
    assert DigitRuns("330") == ["330"] by { assert "330" == "330" + ""; DigitRunsRun("330", ""); }
    assert ParseAll(["330"]) == [330] by { ParseSmallExamples(); }
    ExtrairMetricasNumbers(v);
  }

  /** Between plain text, a "dd" and a "boleto" are deleted. */
  lemma StripNoiseTwoTokens(p: string, q: string)
    requires AllPlain(p) && AllPlain(q)
    ensures StripNoise(p + ("dd" + (q + "boleto"))) == p + q
  {
    calc {
      StripNoise(p + ("dd" + (q + "boleto")));
    == { StripNoisePlainPrefix(p, "dd" + (q + "boleto")); }
      p + StripNoise("dd" + (q + "boleto"));
    == { StripNoiseDeletes("dd", q + "boleto"); }
      p + StripNoise(q + "boleto");
    == { StripNoisePlainPrefix(q, "boleto"); }
      p + (q + StripNoise("boleto"));
    == { assert "boleto" == "boleto" + ""; StripNoiseDeletes("boleto", ""); }
      p + q;
    }
  }

  lemma CleanedTwoTokens(v: string, p: string, q: string)
    requires Lower(v) == v && AllPlain(p) && AllPlain(q)
    requires v == p + ("dd" + (q + "boleto"))
    ensures Cleaned(v) == p + q
  {
    StripNoiseTwoTokens(p, q);
  }

  lemma RunsOfThreeInstallments(v: string)
    requires v == "30/60/90 dd boleto"
    ensures DigitRuns(Cleaned(v)) == ["30", "60", "90"]
  {
    CleanedThreeInstallments(v);
    RunsThreeInstallments("30/60/90  ");
  }

  lemma CleanedThreeInstallments(v: string)
    requires v == "30/60/90 dd boleto"
    ensures Cleaned(v) == "30/60/90  "
  {
    LowerThreeInstallments(v);
    assert v == "30/60/90 " + ("dd" + (" " + "boleto"));
    PlainThreeInstallments("30/60/90 ");
    assert AllPlain(" ");
    CleanedTwoTokens(v, "30/60/90 ", " ");
  }

  lemma LowerThreeInstallments(v: string)
    requires v == "30/60/90 dd boleto"
    ensures Lower(v) == v
  {
    NoCapitalsThreeInstallments(v);
    LowerWithoutCapitals(v);
  }

  lemma NoCapitalsThreeInstallments(v: string)
    requires v == "30/60/90 dd boleto"
    ensures forall i :: 0 <= i < |v| ==> !IsUpper(v[i])
  {
  }

  lemma PlainThreeInstallments(p: string)
    requires p == "30/60/90 "
    ensures AllPlain(p)
  {
    AllPlainChars(p);
  }

  /** A string every character of which is plain is AllPlain. */
  lemma {:induction false} AllPlainChars(a: string)
    requires forall i :: 0 <= i < |a| ==> Plain(a[i])
    ensures AllPlain(a)
  {
    if a != [] {
      AllPlainChars(a[1..]);
    }
  }

  lemma RunsThreeInstallments(c: string)
    requires c == "30/60/90  "
    ensures DigitRuns(c) == ["30", "60", "90"]
  {
    calc {
      DigitRuns(c);
    == { assert c == "30" + ("/" + ("60" + ("/" + ("90" + "  ")))); }
      DigitRuns("30" + ("/" + ("60" + ("/" + ("90" + "  ")))));
    == { DigitRunsRun("30", "/" + ("60" + ("/" + ("90" + "  ")))); }
      ["30"] + DigitRuns("/" + ("60" + ("/" + ("90" + "  "))));
    == { DigitRunsSkip('/', "60" + ("/" + ("90" + "  "))); }
      ["30"] + DigitRuns("60" + ("/" + ("90" + "  ")));
    == { DigitRunsRun("60", "/" + ("90" + "  ")); }
      ["30"] + (["60"] + DigitRuns("/" + ("90" + "  ")));
    == { DigitRunsSkip('/', "90" + "  "); }
      ["30"] + (["60"] + DigitRuns("90" + "  "));
    == { DigitRunsRun("90", "  "); }
      ["30"] + (["60"] + (["90"] + DigitRuns("  ")));
    == { DigitRunsSkip(' ', " "); DigitRunsSkip(' ', ""); assert "  " == [' '] + " " && " " == [' '] + ""; }
      ["30", "60", "90"];
    }
  }

  /** "30/60/90 dd boleto" is three installments at 30, 60 and 90 days: (3, 60, 90). */
  lemma ThreeInstallmentsExample(v: string)
    requires v == "30/60/90 dd boleto"
    ensures ExtrairMetricas(Some(v)) == Numbers([30, 60, 90])
  {
    LowerThreeInstallments(v);
    assert !IsSentinel(v);
    RunsOfThreeInstallments(v);
    ParseThreeInstallments(["30", "60", "90"]);
    ExtrairMetricasNumbers(v);
  }

  lemma ParseThreeInstallments(runs: seq<string>)
    requires runs == ["30", "60", "90"]
    ensures ParseAll(runs) == [30, 60, 90]
  {
    ParseSmallExamples();
    assert runs[1..] == ["60", "90"] && runs[2..] == ["90"] && runs[3..] == [];
  }

  /** The triple of those three installments: 3 terms, mean 180 / 3 = 60, maximum 90. */
  lemma ThreeInstallmentsTriple(m: Metrics)
    requires m == Numbers([30, 60, 90])
    ensures AsTriple(m) == Some(Triple(3, Mean(180, 3), 90))
  {
    assert Sum(m.values) == 180;
  }
}
