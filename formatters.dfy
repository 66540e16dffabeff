/** The two digit masks of the form helpers: the business tax identifier
    (CNPJ, `00.000.000/0000-00`) and the personal tax identifier
    (CPF, `000.000.000-00`). Both keep only the digits of their input and
    then insert fixed separators according to how many digits there are, so
    that a partially typed number is formatted as far as it goes. */
module Formatters {
  import opened Sequences

  predicate IsDigit(c: char)
  {
    '0' <= c <= '9'
  }

  predicate IsNonDigit(c: char)
  {
    !IsDigit(c)
  }

  predicate AllDigits(s: string)
  {
    forall i :: 0 <= i < |s| ==> IsDigit(s[i])
  }

  /** The characters a mask can produce: digits and the three separators. */
  predicate IsMaskChar(c: char)
  {
    IsDigit(c) || c == '.' || c == '/' || c == '-'
  }

  /** `value.replace(/\D/g, '')`: the digits of `s`, in order. */
  function Digits(s: string): (r: string)
    ensures AllDigits(r)
    ensures |r| <= |s|
  {
    Filter(s, IsDigit)
  }

  /** The separators (every non-digit) of `s`, in order. */
  function NonDigits(s: string): (r: string)
    ensures forall i :: 0 <= i < |r| ==> !IsDigit(r[i])
  {
    Filter(s, IsNonDigit)
  }

  /** CNPJ mask. */
  function MaskCNPJ(value: string): (r: string)
    ensures |r| <= 18
  {
    var d := Digits(value);
    if |d| <= 2 then d
    else if |d| <= 5 then d[..2] + "." + d[2..]
    else if |d| <= 8 then d[..2] + "." + d[2..5] + "." + d[5..]
    else if |d| <= 12 then d[..2] + "." + d[2..5] + "." + d[5..8] + "/" + d[8..]
    else d[..2] + "." + d[2..5] + "." + d[5..8] + "/" + d[8..12] + "-" + d[12..Min(14, |d|)]
  }

  /** CPF mask. */
  function MaskCPF(value: string): (r: string)
    ensures |r| <= 14
  {
    var d := Digits(value);
    if |d| <= 3 then d
    else if |d| <= 6 then d[..3] + "." + d[3..]
    else if |d| <= 9 then d[..3] + "." + d[3..6] + "." + d[6..]
    else d[..3] + "." + d[3..6] + "." + d[6..9] + "-" + d[9..Min(11, |d|)]
  }

  // ---------------------------------------------------------------------
  // A reference definition of both masks: a pattern in which `#` marks a
  // digit slot and every other character is a literal separator. Digits
  // fill the slots from the left; a separator is written only when a digit
  // is still left to follow it, and digits beyond the last slot are dropped.
  // ---------------------------------------------------------------------

  const Hole := '#'

  const CnpjPattern := "##.###.###/####-##"

  const CpfPattern := "###.###.###-##"

  function Fill(pattern: string, d: string): string
    decreases |pattern| + |d|
  {
    if pattern == [] || d == [] then []
    else if pattern[0] == Hole then [d[0]] + Fill(pattern[1..], d[1..])
    else [pattern[0]] + Fill(pattern[1..], d)
  }

  /** How many digit slots a pattern has. */
  function HoleCount(pattern: string): nat
  {
    if pattern == [] then 0
    else (if pattern[0] == Hole then 1 else 0) + HoleCount(pattern[1..])
  }

  /** `r` agrees with a prefix of `pattern`: a digit at every slot and the
      pattern's own separator everywhere else. */
  predicate Fits(r: string, pattern: string)
  {
    |r| <= |pattern| &&
    forall i :: 0 <= i < |r| ==>
      (pattern[i] == Hole ==> IsDigit(r[i])) && (pattern[i] != Hole ==> r[i] == pattern[i])
  }

  predicate AllHoles(g: string)
  {
    forall i :: 0 <= i < |g| ==> g[i] == Hole
  }

  /** A separator followed by a run of slots, such as `.###`. */
  predicate IsGroup(q: string)
  {
    |q| > 0 && q[0] != Hole && AllHoles(q[1..])
  }

  lemma {:induction false} HoleCountConcat(p: string, q: string)
    ensures HoleCount(p + q) == HoleCount(p) + HoleCount(q)
  {
    if p == [] {
      assert p + q == q;
    } else {
      assert (p + q)[1..] == p[1..] + q;
      HoleCountConcat(p[1..], q);
    }
  }

  lemma {:induction false} HoleCountAllHoles(g: string)
    requires AllHoles(g)
    ensures HoleCount(g) == |g|
  {
    if g != [] {
      HoleCountAllHoles(g[1..]);
    }
  }

  lemma {:induction false} HoleCountGroup(p: string, q: string)
    requires IsGroup(q)
    ensures HoleCount(p + q) == HoleCount(p) + |q| - 1
  {
    HoleCountConcat(p, q);
    HoleCountAllHoles(q[1..]);
  }

  /** Filling a pattern made of two parts: the first part takes as many
      digits as it has slots; the second part is written only if digits remain. */
  lemma {:induction false} FillAppend(p: string, q: string, d: string)
    ensures Fill(p + q, d) ==
            if |d| <= HoleCount(p) then Fill(p, d) else Fill(p, d) + Fill(q, d[HoleCount(p)..])
    decreases |p|
  {
    if p == [] {
      assert p + q == q;
    } else if d != [] {
      assert (p + q)[1..] == p[1..] + q;
      if p[0] == Hole {
        FillAppend(p[1..], q, d[1..]);
        if |d| > HoleCount(p) {
          assert d[HoleCount(p)..] == d[1..][HoleCount(p[1..])..];
        }
      } else {
        FillAppend(p[1..], q, d);
      }
    }
  }

  /** A run of slots takes at most as many digits as it has slots. */
  lemma {:induction false} FillLastGroup(g: string, d: string)
    requires AllHoles(g)
    ensures Fill(g, d) == d[..Min(|g|, |d|)]
  {
    if g != [] && d != [] {
      FillLastGroup(g[1..], d[1..]);
      assert d[..Min(|g|, |d|)] == [d[0]] + d[1..][..Min(|g| - 1, |d| - 1)];
    }
  }

  /** A group writes its separator and then its slots, if any digit is left. */
  lemma {:induction false} FillGroup(q: string, x: string)
    requires IsGroup(q)
    ensures Fill(q, x) == if x == [] then [] else [q[0]] + x[..Min(|q| - 1, |x|)]
  {
    if x != [] {
      FillLastGroup(q[1..], x);
    }
  }

  /** One more group after a pattern whose slots the digits outnumber. */
  lemma {:induction false} FillStep(p: string, q: string, d: string)
    requires IsGroup(q) && |d| > HoleCount(p)
    ensures Fill(p + q, d) == Fill(p, d) + [q[0]] + d[HoleCount(p)..Min(HoleCount(p) + |q| - 1, |d|)]
  {
    var k := HoleCount(p);
    var x := d[k..];
    FillAppend(p, q, d);
    assert Fill(p + q, d) == Fill(p, d) + Fill(q, x);
    FillGroup(q, x);
    assert |x| == |d| - k;
    SliceOfSuffix(d, k, |q| - 1);
    var y := d[k..Min(k + |q| - 1, |d|)];
    assert Fill(q, x) == [q[0]] + y;
    AppendAssoc(Fill(p, d), [q[0]], y);
  }

  /** Once the digits are used up, the rest of the pattern adds nothing. */
  lemma {:induction false} FillStop(p: string, q: string, d: string)
    requires |d| <= HoleCount(p)
    ensures Fill(p + q, d) == Fill(p, d)
  {
    FillAppend(p, q, d);
  }

  /** Digits beyond the pattern's last slot make no difference, provided the
      pattern ends with a slot. */
  lemma {:induction false} FillTruncates(pattern: string, d: string)
    requires pattern == [] || pattern[|pattern| - 1] == Hole
    ensures Fill(pattern, d[..Min(HoleCount(pattern), |d|)]) == Fill(pattern, d)
    decreases |pattern|
  {
    var e := d[..Min(HoleCount(pattern), |d|)];
    if pattern != [] && d != [] {
      if pattern[0] == Hole {
        FillTruncates(pattern[1..], d[1..]);
        assert e[1..] == d[1..][..Min(HoleCount(pattern[1..]), |d| - 1)];
      } else {
        assert HoleCount(pattern[1..]) > 0 by { LastHoleCounts(pattern[1..]); }
        FillTruncates(pattern[1..], d);
      }
    }
  }

  lemma {:induction false} LastHoleCounts(pattern: string)
    requires pattern != [] && pattern[|pattern| - 1] == Hole
    ensures HoleCount(pattern) > 0
    decreases |pattern|
  {
    if pattern[0] != Hole {
      LastHoleCounts(pattern[1..]);
    }
  }

  /** Whatever digits it is given, Fill writes a prefix of the pattern's shape. */
  lemma {:induction false} FillFits(pattern: string, d: string)
    requires AllDigits(d)
    ensures Fits(Fill(pattern, d), pattern)
    decreases |pattern| + |d|
  {
    if pattern != [] && d != [] {
      if pattern[0] == Hole {
        FillFits(pattern[1..], d[1..]);
      } else {
        FillFits(pattern[1..], d);
      }
    }
  }

  // ---------------------------------------------------------------------
  // Facts about digit extraction used by both masks.
  // ---------------------------------------------------------------------

  lemma {:induction false} DigitsOfDigits(s: string)
    requires AllDigits(s)
    ensures Digits(s) == s
  {
    FilterKeepsAll(s, IsDigit);
  }

  lemma {:induction false} DigitsConcat(a: string, b: string)
    ensures Digits(a + b) == Digits(a) + Digits(b)
  {
    FilterConcat(a, b, IsDigit);
  }

  lemma {:induction false} NonDigitsConcat(a: string, b: string)
    ensures NonDigits(a + b) == NonDigits(a) + NonDigits(b)
  {
    FilterConcat(a, b, IsNonDigit);
  }

  lemma {:induction false} NonDigitsOfDigits(s: string)
    requires AllDigits(s)
    ensures NonDigits(s) == []
  {
    FilterDropsAll(s, IsNonDigit);
  }

  /** Joining two pieces with one separator: the digits are those of the
      pieces, and the separator sits between their separators. */
  lemma {:induction false} JoinAt(x: string, sep: char, y: string)
    requires !IsDigit(sep)
    ensures Digits(x + [sep] + y) == Digits(x) + Digits(y)
    ensures NonDigits(x + [sep] + y) == NonDigits(x) + [sep] + NonDigits(y)
  {
    DigitsConcat(x, [sep]);
    DigitsConcat(x + [sep], y);
    NonDigitsConcat(x, [sep]);
    NonDigitsConcat(x + [sep], y);
  }

  /** A run of digits contributes itself to the digits and nothing to the separators. */
  lemma {:induction false} DigitRun(s: string)
    requires AllDigits(s)
    ensures Digits(s) == s && NonDigits(s) == []
  {
    DigitsOfDigits(s);
    NonDigitsOfDigits(s);
  }

  // ---------------------------------------------------------------------
  // CNPJ
  // ---------------------------------------------------------------------

  /** How many separators the CNPJ mask writes for `n` digits. */
  function CnpjSeparatorCount(n: nat): nat
  {
    if n <= 2 then 0 else if n <= 5 then 1 else if n <= 8 then 2 else if n <= 12 then 3 else 4
  }

  /** Digit runs joined by separators: the digits are the runs, the
      separators are those written between them. */
  lemma {:induction false} Join2(d1: string, s1: char, d2: string)
    requires AllDigits(d1) && AllDigits(d2) && !IsDigit(s1)
    ensures Digits(d1 + [s1] + d2) == d1 + d2
    ensures NonDigits(d1 + [s1] + d2) == [s1]
  {
    DigitRun(d1);
    DigitRun(d2);
    JoinAt(d1, s1, d2);
  }

  lemma {:induction false} Join3(d1: string, s1: char, d2: string, s2: char, d3: string)
    requires AllDigits(d1) && AllDigits(d2) && AllDigits(d3) && !IsDigit(s1) && !IsDigit(s2)
    ensures Digits(d1 + [s1] + d2 + [s2] + d3) == d1 + d2 + d3
    ensures NonDigits(d1 + [s1] + d2 + [s2] + d3) == [s1, s2]
  {
    Join2(d1, s1, d2);
    DigitRun(d3);
    JoinAt(d1 + [s1] + d2, s2, d3);
  }

  lemma {:induction false} Join4(d1: string, s1: char, d2: string, s2: char, d3: string, s3: char, d4: string)
    requires AllDigits(d1) && AllDigits(d2) && AllDigits(d3) && AllDigits(d4)
    requires !IsDigit(s1) && !IsDigit(s2) && !IsDigit(s3)
    ensures Digits(d1 + [s1] + d2 + [s2] + d3 + [s3] + d4) == d1 + d2 + d3 + d4
    ensures NonDigits(d1 + [s1] + d2 + [s2] + d3 + [s3] + d4) == [s1, s2, s3]
  {
    Join3(d1, s1, d2, s2, d3);
    DigitRun(d4);
    JoinAt(d1 + [s1] + d2 + [s2] + d3, s3, d4);
  }

  lemma {:induction false} Join5(d1: string, s1: char, d2: string, s2: char, d3: string, s3: char, d4: string,
              s4: char, d5: string)
    requires AllDigits(d1) && AllDigits(d2) && AllDigits(d3) && AllDigits(d4) && AllDigits(d5)
    requires !IsDigit(s1) && !IsDigit(s2) && !IsDigit(s3) && !IsDigit(s4)
    ensures Digits(d1 + [s1] + d2 + [s2] + d3 + [s3] + d4 + [s4] + d5) == d1 + d2 + d3 + d4 + d5
    ensures NonDigits(d1 + [s1] + d2 + [s2] + d3 + [s3] + d4 + [s4] + d5) == [s1, s2, s3, s4]
  {
    Join4(d1, s1, d2, s2, d3, s3, d4);
    DigitRun(d5);
    JoinAt(d1 + [s1] + d2 + [s2] + d3 + [s3] + d4, s4, d5);
  }

  /** The masked text holds the first (at most 14) digits of the input and,
      between them, a prefix of the separators `.`, `.`, `/`, `-` whose length
      the digit count fixes. */
  lemma {:induction false} MaskCNPJStructure(v: string)
    ensures Digits(MaskCNPJ(v)) == Digits(v)[..Min(14, |Digits(v)|)]
    ensures NonDigits(MaskCNPJ(v)) == "../-"[..CnpjSeparatorCount(|Digits(v)|)]
    ensures |MaskCNPJ(v)| == Min(14, |Digits(v)|) + CnpjSeparatorCount(|Digits(v)|)
  {
    var n := |Digits(v)|;
    if n <= 2 {
      DigitRun(Digits(v));
    } else if n <= 5 {
      CnpjUpTo5(v);
    } else if n <= 8 {
      CnpjUpTo8(v);
    } else if n <= 12 {
      CnpjUpTo12(v);
    } else {
      CnpjUpTo14(v);
    }
  }

  /** The mask holds only digits and the separators `.`, `/` and `-`, and
      is never longer than the full pattern. */
  lemma {:induction false} MaskCNPJChars(v: string)
    ensures forall i :: 0 <= i < |MaskCNPJ(v)| ==> IsMaskChar(MaskCNPJ(v)[i])
    ensures |MaskCNPJ(v)| <= 18
  {
    var r := MaskCNPJ(v);
    MaskCNPJStructure(v);
    var seps := "../-"[..CnpjSeparatorCount(|Digits(v)|)];
    assert forall c :: c in seps ==> c == '.' || c == '/' || c == '-';
    forall i | 0 <= i < |r|
      ensures IsMaskChar(r[i])
    {
      if !IsDigit(r[i]) {
        FilterContains(r, IsNonDigit, i);
      }
    }
  }

  lemma {:induction false} CnpjUpTo5(v: string)
    requires 2 < |Digits(v)| <= 5
    ensures Digits(MaskCNPJ(v)) == Digits(v) && NonDigits(MaskCNPJ(v)) == "."
  {
    var d := Digits(v);
    Join2(d[..2], '.', d[2..]);
    assert d[..2] + d[2..] == d;
  }

  lemma {:induction false} CnpjUpTo8(v: string)
    requires 5 < |Digits(v)| <= 8
    ensures Digits(MaskCNPJ(v)) == Digits(v) && NonDigits(MaskCNPJ(v)) == ".."
  {
    var d := Digits(v);
    Join3(d[..2], '.', d[2..5], '.', d[5..]);
    assert d[..2] + d[2..5] + d[5..] == d;
  }

  lemma {:induction false} CnpjUpTo12(v: string)
    requires 8 < |Digits(v)| <= 12
    ensures Digits(MaskCNPJ(v)) == Digits(v) && NonDigits(MaskCNPJ(v)) == "../"
  {
    var d := Digits(v);
    Join4(d[..2], '.', d[2..5], '.', d[5..8], '/', d[8..]);
    assert d[..2] + d[2..5] + d[5..8] + d[8..] == d;
  }

  lemma {:induction false} CnpjUpTo14(v: string)
    requires 12 < |Digits(v)|
    ensures Digits(MaskCNPJ(v)) == Digits(v)[..Min(14, |Digits(v)|)]
    ensures NonDigits(MaskCNPJ(v)) == "../-"
  {
    var d := Digits(v);
    var m := Min(14, |d|);
    Join5(d[..2], '.', d[2..5], '.', d[5..8], '/', d[8..12], '-', d[12..m]);
    assert d[..2] + d[2..5] + d[5..8] + d[8..12] + d[12..m] == d[..m];
  }

  /** Only the digits of the input matter: stripping the non-digits first, or
      replacing the input by any other with the same digits, gives the same mask. */
  lemma {:induction false} MaskCNPJOnlyDigitsMatter(v: string, w: string)
    ensures MaskCNPJ(Digits(v)) == MaskCNPJ(v)
    ensures Digits(v) == Digits(w) ==> MaskCNPJ(v) == MaskCNPJ(w)
  {
    DigitsOfDigits(Digits(v));
  }

  /** Typing a non-digit anywhere leaves the mask unchanged. */
  lemma {:induction false} MaskCNPJIgnoresNonDigit(a: string, c: char, b: string)
    requires !IsDigit(c)
    ensures MaskCNPJ(a + [c] + b) == MaskCNPJ(a + b)
  {
    JoinAt(a, c, b);
    DigitsConcat(a, b);
  }

  /** Masking an already masked CNPJ changes nothing. */
  lemma {:induction false} MaskCNPJIdempotent(v: string)
    ensures MaskCNPJ(MaskCNPJ(v)) == MaskCNPJ(v)
  {
    var d := Digits(v);
    MaskCNPJStructure(v);
    MaskCNPJFillsPattern(v);
    MaskCNPJFillsPattern(MaskCNPJ(v));
    CnpjGroups();
    HoleCountGroup(Cnpj4, "-##");
    FillTruncates(CnpjPattern, d);
  }

  // The CNPJ pattern group by group: `##`, `.###`, `.###`, `/####`, `-##`.
  const Cnpj1 := "##"
  const Cnpj2 := Cnpj1 + ".###"
  const Cnpj3 := Cnpj2 + ".###"
  const Cnpj4 := Cnpj3 + "/####"

  lemma {:induction false} CnpjGroups()
    ensures CnpjPattern == Cnpj4 + "-##"
    ensures HoleCount(Cnpj1) == 2 && HoleCount(Cnpj2) == 5 && HoleCount(Cnpj3) == 8
    ensures HoleCount(Cnpj4) == 12
  {
    HoleCountGroup(Cnpj1, ".###");
    HoleCountGroup(Cnpj2, ".###");
    HoleCountGroup(Cnpj3, "/####");
  }

  lemma {:induction false} CnpjFillUpTo5(d: string)
    requires 2 < |d|
    ensures Fill(Cnpj2, d) == d[..2] + "." + d[2..Min(5, |d|)]
  {
    CnpjGroups();
    assert Fill(Cnpj1, d) == d[..2] by { FillLastGroup(Cnpj1, d); }
    FillStep(Cnpj1, ".###", d);
  }

  lemma {:induction false} CnpjFillUpTo8(d: string)
    requires 5 < |d|
    ensures Fill(Cnpj3, d) == d[..2] + "." + d[2..5] + "." + d[5..Min(8, |d|)]
  {
    CnpjGroups();
    CnpjFillUpTo5(d);
    FillStep(Cnpj2, ".###", d);
  }

  lemma {:induction false} CnpjFillUpTo12(d: string)
    requires 8 < |d|
    ensures Fill(Cnpj4, d) == d[..2] + "." + d[2..5] + "." + d[5..8] + "/" + d[8..Min(12, |d|)]
  {
    CnpjGroups();
    CnpjFillUpTo8(d);
    FillStep(Cnpj3, "/####", d);
  }

  lemma {:induction false} CnpjFillUpTo14(d: string)
    requires 12 < |d|
    ensures Fill(CnpjPattern, d) ==
            d[..2] + "." + d[2..5] + "." + d[5..8] + "/" + d[8..12] + "-" + d[12..Min(14, |d|)]
  {
    CnpjGroups();
    CnpjFillUpTo12(d);
    FillStep(Cnpj4, "-##", d);
  }

  /** The mask is the pattern `##.###.###/####-##` filled with the input's
      digits: separators sit right after the 2nd, 5th, 8th and 12th digit and
      only when a digit follows; every masked text fits the pattern's shape. */
  lemma {:induction false} MaskCNPJFillsPattern(v: string)
    ensures MaskCNPJ(v) == Fill(CnpjPattern, Digits(v))
    ensures Fits(MaskCNPJ(v), CnpjPattern)
  {
    var n := |Digits(v)|;
    if n <= 2 {
      CnpjFilledUpTo2(v);
    } else if n <= 5 {
      CnpjFilledUpTo5(v);
    } else if n <= 8 {
      CnpjFilledUpTo8(v);
    } else if n <= 12 {
      CnpjFilledUpTo12(v);
    } else {
      CnpjGroups();
      CnpjFillUpTo14(Digits(v));
    }
    FillFits(CnpjPattern, Digits(v));
  }

  lemma {:induction false} CnpjFilledUpTo2(v: string)
    requires |Digits(v)| <= 2
    ensures MaskCNPJ(v) == Fill(CnpjPattern, Digits(v))
  {
    var d := Digits(v);
    CnpjGroups();
    assert Fill(Cnpj1, d) == d by { FillLastGroup(Cnpj1, d); }
    FillStop(Cnpj1, ".###", d);
    FillStop(Cnpj2, ".###", d);
    FillStop(Cnpj3, "/####", d);
    FillStop(Cnpj4, "-##", d);
  }

  lemma {:induction false} CnpjFilledUpTo5(v: string)
    requires 2 < |Digits(v)| <= 5
    ensures MaskCNPJ(v) == Fill(CnpjPattern, Digits(v))
  {
    var d := Digits(v);
    CnpjGroups();
    CnpjFillUpTo5(d);
    FillStop(Cnpj2, ".###", d);
    FillStop(Cnpj3, "/####", d);
    FillStop(Cnpj4, "-##", d);
  }

  lemma {:induction false} CnpjFilledUpTo8(v: string)
    requires 5 < |Digits(v)| <= 8
    ensures MaskCNPJ(v) == Fill(CnpjPattern, Digits(v))
  {
    var d := Digits(v);
    CnpjGroups();
    CnpjFillUpTo8(d);
    FillStop(Cnpj3, "/####", d);
    FillStop(Cnpj4, "-##", d);
  }

  lemma {:induction false} CnpjFilledUpTo12(v: string)
    requires 8 < |Digits(v)| <= 12
    ensures MaskCNPJ(v) == Fill(CnpjPattern, Digits(v))
  {
    var d := Digits(v);
    CnpjGroups();
    CnpjFillUpTo12(d);
    FillStop(Cnpj4, "-##", d);
  }

  /** Fourteen or more digits give the full, 18-character `DD.DDD.DDD/DDDD-DD`. */
  lemma {:induction false} MaskCNPJComplete(v: string)
    requires |Digits(v)| >= 14
    ensures |MaskCNPJ(v)| == 18 == |CnpjPattern|
    ensures Fits(MaskCNPJ(v), CnpjPattern)
  {
    MaskCNPJStructure(v);
    MaskCNPJFillsPattern(v);
  }

  /** Fourteen digits fill the whole pattern. */
  lemma {:induction false} MaskCNPJExampleFull()
    ensures MaskCNPJ("12345678901234") == "12.345.678/9012-34"
  {
    var d := "12345678901234";
    assert d[..2] + "." + d[2..5] + "." + d[5..8] + "/" + d[8..12] + "-" + d[12..Min(14, |d|)]
        == "12.345.678/9012-34" by {
      assert d[..2] == "12" && d[2..5] == "345" && d[5..8] == "678";
      assert d[8..12] == "9012" && d[12..14] == "34";
    }
    assert Digits(d) == d by { DigitsOfDigits(d); }
  }

  /** A value typed part-way gets the separators reached so far. */
  /** The digits of a partly typed value with stray characters. */
  lemma {:induction false} DigitsOfPartial()
    ensures Digits("12.3a") == "123"
  {
    var v := "12.3a";
    assert v == "12" + "." + "3" + "a";
    DigitsConcat("12" + "." + "3", "a");
    DigitsConcat("12" + ".", "3");
    DigitsConcat("12", ".");
    DigitsOfDigits("12");
    DigitsOfDigits("3");
  }

  lemma {:induction false} MaskCNPJExamplePartial()
    ensures MaskCNPJ("12.3a") == "12.3"
  {
    DigitsOfPartial();
    var d := "123";
    assert d[..2] + "." + d[2..] == "12.3" by {
      assert d[..2] == "12" && d[2..] == "3";
    }
  }

  /** The same three digits typed without separators. */
  lemma {:induction false} MaskCNPJExampleThreeDigits()
    ensures MaskCNPJ("123") == "12.3"
  {
    var d := "123";
    assert Digits(d) == d by { DigitsOfDigits(d); }
    assert d[..2] + "." + d[2..] == "12.3" by {
      assert d[..2] == "12" && d[2..] == "3";
    }
  }

  // ---------------------------------------------------------------------
  // CPF
  // ---------------------------------------------------------------------

  /** How many separators the CPF mask writes for `n` digits. */
  function CpfSeparatorCount(n: nat): nat
  {
    if n <= 3 then 0 else if n <= 6 then 1 else if n <= 9 then 2 else 3
  }

  /** The masked text holds the first (at most 11) digits of the input and,
      between them, a prefix of the separators `.`, `.`, `-` whose length the
      digit count fixes. */
  lemma {:induction false} MaskCPFStructure(v: string)
    ensures Digits(MaskCPF(v)) == Digits(v)[..Min(11, |Digits(v)|)]
    ensures NonDigits(MaskCPF(v)) == "..-"[..CpfSeparatorCount(|Digits(v)|)]
    ensures |MaskCPF(v)| == Min(11, |Digits(v)|) + CpfSeparatorCount(|Digits(v)|)
  {
    var n := |Digits(v)|;
    if n <= 3 {
      DigitRun(Digits(v));
    } else if n <= 6 {
      CpfUpTo6(v);
    } else if n <= 9 {
      CpfUpTo9(v);
    } else {
      CpfUpTo11(v);
    }
  }

  lemma {:induction false} CpfUpTo6(v: string)
    requires 3 < |Digits(v)| <= 6
    ensures Digits(MaskCPF(v)) == Digits(v) && NonDigits(MaskCPF(v)) == "."
  {
    var d := Digits(v);
    Join2(d[..3], '.', d[3..]);
    assert d[..3] + d[3..] == d;
  }

  lemma {:induction false} CpfUpTo9(v: string)
    requires 6 < |Digits(v)| <= 9
    ensures Digits(MaskCPF(v)) == Digits(v) && NonDigits(MaskCPF(v)) == ".."
  {
    var d := Digits(v);
    Join3(d[..3], '.', d[3..6], '.', d[6..]);
    assert d[..3] + d[3..6] + d[6..] == d;
  }

  lemma {:induction false} CpfUpTo11(v: string)
    requires 9 < |Digits(v)|
    ensures Digits(MaskCPF(v)) == Digits(v)[..Min(11, |Digits(v)|)]
    ensures NonDigits(MaskCPF(v)) == "..-"
  {
    var d := Digits(v);
    var m := Min(11, |d|);
    Join4(d[..3], '.', d[3..6], '.', d[6..9], '-', d[9..m]);
    assert d[..3] + d[3..6] + d[6..9] + d[9..m] == d[..m];
  }

  /** Three digits or fewer come back as they are. */
  lemma {:induction false} MaskCPFShortUnchanged(v: string)
    ensures |Digits(v)| <= 3 ==> MaskCPF(v) == Digits(v)
    ensures AllDigits(v) && |v| <= 3 ==> MaskCPF(v) == v
  {
    if AllDigits(v) {
      DigitsOfDigits(v);
    }
  }

  /** The mask holds only digits and the separators `.` and `-`, and is
      never longer than the full pattern. */
  lemma {:induction false} MaskCPFChars(v: string)
    ensures forall i :: 0 <= i < |MaskCPF(v)| ==> IsMaskChar(MaskCPF(v)[i])
    ensures |MaskCPF(v)| <= 14
  {
    var r := MaskCPF(v);
    MaskCPFStructure(v);
    var seps := "..-"[..CpfSeparatorCount(|Digits(v)|)];
    assert forall c :: c in seps ==> c == '.' || c == '-';
    forall i | 0 <= i < |r|
      ensures IsMaskChar(r[i])
    {
      if !IsDigit(r[i]) {
        FilterContains(r, IsNonDigit, i);
      }
    }
  }

  /** Only the digits of the input matter. */
  lemma {:induction false} MaskCPFOnlyDigitsMatter(v: string, w: string)
    ensures MaskCPF(Digits(v)) == MaskCPF(v)
    ensures Digits(v) == Digits(w) ==> MaskCPF(v) == MaskCPF(w)
  {
    DigitsOfDigits(Digits(v));
  }

  /** Typing a non-digit anywhere leaves the mask unchanged. */
  lemma {:induction false} MaskCPFIgnoresNonDigit(a: string, c: char, b: string)
    requires !IsDigit(c)
    ensures MaskCPF(a + [c] + b) == MaskCPF(a + b)
  {
    JoinAt(a, c, b);
    DigitsConcat(a, b);
  }

  /** Masking an already masked CPF changes nothing. */
  lemma {:induction false} MaskCPFIdempotent(v: string)
    ensures MaskCPF(MaskCPF(v)) == MaskCPF(v)
  {
    var d := Digits(v);
    MaskCPFStructure(v);
    MaskCPFFillsPattern(v);
    MaskCPFFillsPattern(MaskCPF(v));
    CpfGroups();
    HoleCountGroup(Cpf3, "-##");
    FillTruncates(CpfPattern, d);
  }

  // The CPF pattern group by group: `###`, `.###`, `.###`, `-##`.
  const Cpf1 := "###"
  const Cpf2 := Cpf1 + ".###"
  const Cpf3 := Cpf2 + ".###"

  lemma {:induction false} CpfGroups()
    ensures CpfPattern == Cpf3 + "-##"
    ensures HoleCount(Cpf1) == 3 && HoleCount(Cpf2) == 6 && HoleCount(Cpf3) == 9
  {
    HoleCountGroup(Cpf1, ".###");
    HoleCountGroup(Cpf2, ".###");
  }

  lemma {:induction false} CpfFillUpTo6(d: string)
    requires 3 < |d|
    ensures Fill(Cpf2, d) == d[..3] + "." + d[3..Min(6, |d|)]
  {
    CpfGroups();
    assert Fill(Cpf1, d) == d[..3] by { FillLastGroup(Cpf1, d); }
    FillStep(Cpf1, ".###", d);
  }

  lemma {:induction false} CpfFillUpTo9(d: string)
    requires 6 < |d|
    ensures Fill(Cpf3, d) == d[..3] + "." + d[3..6] + "." + d[6..Min(9, |d|)]
  {
    CpfGroups();
    CpfFillUpTo6(d);
    FillStep(Cpf2, ".###", d);
  }

  lemma {:induction false} CpfFillUpTo11(d: string)
    requires 9 < |d|
    ensures Fill(CpfPattern, d) == d[..3] + "." + d[3..6] + "." + d[6..9] + "-" + d[9..Min(11, |d|)]
  {
    CpfGroups();
    CpfFillUpTo9(d);
    FillStep(Cpf3, "-##", d);
  }

  /** The mask is the pattern `###.###.###-##` filled with the input's digits. */
  lemma {:induction false} MaskCPFFillsPattern(v: string)
    ensures MaskCPF(v) == Fill(CpfPattern, Digits(v))
    ensures Fits(MaskCPF(v), CpfPattern)
  {
    var d := Digits(v);
    var n := |d|;
    CpfGroups();
    if n <= 3 {
      assert Fill(Cpf1, d) == d by { FillLastGroup(Cpf1, d); }
      FillStop(Cpf1, ".###", d);
      FillStop(Cpf2, ".###", d);
      FillStop(Cpf3, "-##", d);
    } else if n <= 6 {
      CpfFillUpTo6(d);
      FillStop(Cpf2, ".###", d);
      FillStop(Cpf3, "-##", d);
    } else if n <= 9 {
      CpfFillUpTo9(d);
      FillStop(Cpf3, "-##", d);
    } else {
      CpfFillUpTo11(d);
    }
    FillFits(CpfPattern, d);
  }

  /** Eleven or more digits give `DDD.DDD.DDD-DD`; exactly ten give `DDD.DDD.DDD-D`. */
  lemma {:induction false} MaskCPFComplete(v: string)
    ensures |Digits(v)| >= 11 ==> |MaskCPF(v)| == 14 == |CpfPattern|
    ensures |Digits(v)| == 10 ==> |MaskCPF(v)| == 13
    ensures Fits(MaskCPF(v), CpfPattern)
  {
    MaskCPFStructure(v);
    MaskCPFFillsPattern(v);
  }

  /** Eleven digits fill the whole pattern. */
  lemma {:induction false} MaskCPFExampleFull()
    ensures MaskCPF("12345678901") == "123.456.789-01"
  {
    var d := "12345678901";
    assert d[..3] + "." + d[3..6] + "." + d[6..9] + "-" + d[9..Min(11, |d|)]
        == "123.456.789-01" by {
      assert d[..3] == "123" && d[3..6] == "456" && d[6..9] == "789" && d[9..11] == "01";
    }
    assert Digits(d) == d by { DigitsOfDigits(d); }
  }

  /** Ten digits leave the last group one digit short. */
  lemma {:induction false} MaskCPFExampleTenDigits()
    ensures MaskCPF("1234567890") == "123.456.789-0"
  {
    var d := "1234567890";
    assert d[..3] + "." + d[3..6] + "." + d[6..9] + "-" + d[9..Min(11, |d|)]
        == "123.456.789-0" by {
      assert d[..3] == "123" && d[3..6] == "456" && d[6..9] == "789" && d[9..10] == "0";
    }
    assert Digits(d) == d by { DigitsOfDigits(d); }
  }
}
