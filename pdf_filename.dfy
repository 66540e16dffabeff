/** The download name of the quote: the company name is reduced to a slug by
    `replace(/[^\w\s]/gi, '').trim().replace(/\s+/g, '_').toLowerCase()`
    and wrapped as `orcamento_<slug>.pdf`. */
module PdfFilename {
  import opened Sequences

  /** `\w` of a JavaScript regular expression without the `u` flag; the `i`
      flag adds nothing to this class. */
  predicate IsWordChar(c: char)
  {
    ('A' <= c <= 'Z') || ('a' <= c <= 'z') || ('0' <= c <= '9') || c == '_'
  }

  /** `\s` of a JavaScript regular expression, which is also the set that
      `String.prototype.trim` removes: the ECMAScript WhiteSpace and
      LineTerminator code points. */
  predicate IsSpace(c: char)
  {
    c == '\t' || c == '\n' || c == '\U{000B}' || c == '\U{000C}' || c == '\r' || c == ' '
    || c == '\U{00A0}' || c == '\U{1680}' || ('\U{2000}' <= c <= '\U{200A}')
    || c == '\U{2028}' || c == '\U{2029}' || c == '\U{202F}' || c == '\U{205F}'
    || c == '\U{3000}' || c == '\U{FEFF}'
  }

  /** The characters `[^\w\s]` does not match. */
  predicate IsKept(c: char)
  {
    IsWordChar(c) || IsSpace(c)
  }

  /** The characters a slug is made of. */
  predicate IsSlugChar(c: char)
  {
    ('a' <= c <= 'z') || ('0' <= c <= '9') || c == '_'
  }

  predicate AllSpace(s: string)
  {
    forall i :: 0 <= i < |s| ==> IsSpace(s[i])
  }

  predicate NoSpace(s: string)
  {
    forall i :: 0 <= i < |s| ==> !IsSpace(s[i])
  }

  predicate AllSlugChars(s: string)
  {
    forall i :: 0 <= i < |s| ==> IsSlugChar(s[i])
  }

  /** `replace(/[^\w\s]/gi, '')`. */
  function StripPunct(s: string): (r: string)
    ensures forall i :: 0 <= i < |r| ==> IsKept(r[i])
  {
    Filter(s, IsKept)
  }

  /** Leading whitespace removed: what is left is a suffix of `s` that is
      empty or starts with a non-space, and everything dropped is space. */
  function TrimStart(s: string): (r: string)
    ensures |r| <= |s| && r == s[|s| - |r|..]
    ensures AllSpace(s[..|s| - |r|])
    ensures r == [] || !IsSpace(r[0])
  {
    if s != [] && IsSpace(s[0]) then TrimStart(s[1..]) else s
  }

  /** Trailing whitespace removed: what is left is a prefix of `s` that is
      empty or ends with a non-space, and everything dropped is space. */
  function TrimEnd(s: string): (r: string)
    ensures |r| <= |s| && r == s[..|r|]
    ensures AllSpace(s[|r|..])
    ensures r == [] || !IsSpace(r[|r| - 1])
  {
    if s != [] && IsSpace(s[|s| - 1]) then TrimEnd(s[..|s| - 1]) else s
  }

  /** `String.prototype.trim`. */
  function Trim(s: string): (r: string)
    ensures r == [] || (!IsSpace(r[0]) && !IsSpace(r[|r| - 1]))
  {
    TrimEnd(TrimStart(s))
  }

  /** `replace(/\s+/g, '_')`: every maximal run of whitespace becomes one
      underscore. The result has no whitespace, and is empty exactly when `s`
      is. */
  function Collapse(s: string): (r: string)
    ensures NoSpace(r)
    ensures |r| <= |s|
    ensures r == [] <==> s == []
    decreases |s|
  {
    if s == [] then []
    else if IsSpace(s[0]) then ['_'] + Collapse(TrimStart(s[1..]))
    else [s[0]] + Collapse(s[1..])
  }

  /** Collapsing only replaces whitespace: whatever holds of every character
      of `s` holds of every character of `Collapse(s)` other than `_`. */
  lemma {:induction false} CollapseKeeps(s: string, p: char -> bool)
    requires forall i :: 0 <= i < |s| ==> p(s[i])
    ensures forall i :: 0 <= i < |Collapse(s)| ==> Collapse(s)[i] == '_' || p(Collapse(s)[i])
    decreases |s|
  {
    if s != [] {
      if IsSpace(s[0]) {
        var z := TrimStart(s[1..]);
        forall j | 0 <= j < |z|
          ensures p(z[j])
        {
          assert z[j] == s[1..][|s| - 1 - |z| + j];
        }
        CollapseKeeps(z, p);
        assert Collapse(s) == ['_'] + Collapse(z);
      } else {
        CollapseKeeps(s[1..], p);
        assert Collapse(s) == [s[0]] + Collapse(s[1..]);
      }
    }
  }

  /** `toLowerCase` on one character; only ASCII letters reach it. */
  function LowerChar(c: char): char
  {
    if 'A' <= c <= 'Z' then (c as int - 'A' as int + 'a' as int) as char else c
  }

  /** `toLowerCase`. */
  function Lower(s: string): string
  {
    seq(|s|, i requires 0 <= i < |s| => LowerChar(s[i]))
  }

  /** The slug of a company name (pdfGenerator.ts line 152). */
  function Slug(name: string): (r: string)
    ensures AllSlugChars(r)
  {
    SlugChars(StripPunct(name));
    Lower(Collapse(Trim(StripPunct(name))))
  }

  /** Trimming, collapsing and lower-casing text made only of word characters
      and whitespace leaves only slug characters. */
  lemma {:induction false} SlugChars(x: string)
    requires forall i :: 0 <= i < |x| ==> IsKept(x[i])
    ensures AllSlugChars(Lower(Collapse(Trim(x))))
  {
    TrimKeeps(x, IsKept);
    CollapseWordChars(Trim(x));
  }

  /** Trimming only removes characters: whatever holds of every character
      of `x` holds of every character of `Trim(x)`. */
  lemma {:induction false} TrimKeeps(x: string, p: char -> bool)
    requires forall i :: 0 <= i < |x| ==> p(x[i])
    ensures forall i :: 0 <= i < |Trim(x)| ==> p(Trim(x)[i])
  {
    TrimStartKeeps(x, p);
    TrimEndKeeps(TrimStart(x), p);
  }

  lemma {:induction false} TrimStartKeeps(x: string, p: char -> bool)
    requires forall i :: 0 <= i < |x| ==> p(x[i])
    ensures forall i :: 0 <= i < |TrimStart(x)| ==> p(TrimStart(x)[i])
  {
    var y := TrimStart(x);
    SliceKeeps(x, |x| - |y|, |x|, p);
    assert y == x[|x| - |y|..|x|];
  }

  lemma {:induction false} TrimEndKeeps(y: string, p: char -> bool)
    requires forall i :: 0 <= i < |y| ==> p(y[i])
    ensures forall i :: 0 <= i < |TrimEnd(y)| ==> p(TrimEnd(y)[i])
  {
    var t := TrimEnd(y);
    SliceKeeps(y, 0, |t|, p);
    assert t == y[0..|t|];
  }

  /** Collapsing text of word characters and whitespace leaves word
      characters and underscores, which lower-case to slug characters. */
  lemma {:induction false} CollapseWordChars(t: string)
    requires forall i :: 0 <= i < |t| ==> IsKept(t[i])
    ensures AllSlugChars(Lower(Collapse(t)))
  {
    var c := Collapse(t);
    CollapseKeeps(t, IsKept);
    forall i | 0 <= i < |c|
      ensures c[i] == '_' || IsWordChar(c[i])
    {
      assert c[i] == '_' || IsKept(c[i]);
      assert !IsSpace(c[i]);
    }
  }

  /** The file name the quote is saved under (line 153). */
  function Filename(name: string): string
  {
    "orcamento_" + Slug(name) + ".pdf"
  }

  /** The file name is the fixed prefix, the slug and the extension, and
      between prefix and extension there are only slug characters. */
  lemma {:induction false} FilenameShape(name: string)
    ensures var r := Filename(name);
      |r| >= 14 && r[..10] == "orcamento_" && r[|r| - 4..] == ".pdf"
      && r[10..|r| - 4] == Slug(name) && AllSlugChars(r[10..|r| - 4])
  {
    var r := Filename(name);
    assert r[10..|r| - 4] == Slug(name);
  }
  // ---------------------------------------------------------------------
  // Facts about the steps
  // ---------------------------------------------------------------------

  predicate AllWordChars(s: string)
  {
    forall i :: 0 <= i < |s| ==> IsWordChar(s[i])
  }

  lemma {:induction false} StripPunctConcat(a: string, b: string)
    ensures StripPunct(a + b) == StripPunct(a) + StripPunct(b)
  {
    FilterConcat(a, b, IsKept);
  }

  lemma {:induction false} StripPunctKeepsAll(s: string)
    requires forall i :: 0 <= i < |s| ==> IsKept(s[i])
    ensures StripPunct(s) == s
  {
    FilterKeepsAll(s, IsKept);
  }

  /** Whitespace in front of `s` is all that `TrimStart` removes first. */
  lemma {:induction false} TrimStartSpaces(w: string, s: string)
    requires AllSpace(w)
    ensures TrimStart(w + s) == TrimStart(s)
  {
    if w != [] {
      assert (w + s)[1..] == w[1..] + s;
      TrimStartSpaces(w[1..], s);
    } else {
      assert w + s == s;
    }
  }

  /** Whitespace after `s` is all that `TrimEnd` removes first. */
  lemma {:induction false} TrimEndSpaces(s: string, w: string)
    requires AllSpace(w)
    ensures TrimEnd(s + w) == TrimEnd(s)
  {
    if w != [] {
      var n := |s + w|;
      assert (s + w)[..n - 1] == s + w[..|w| - 1];
      TrimEndSpaces(s, w[..|w| - 1]);
    } else {
      assert s + w == s;
    }
  }

  /** Trailing whitespace does not change the trimmed text. */
  lemma {:induction false} TrimTrailingSpaces(x: string, w: string)
    requires AllSpace(w)
    ensures Trim(x + w) == Trim(x)
  {
    if x == [] {
      assert x + w == w + [];
      TrimStartSpaces(w, []);
    } else if IsSpace(x[0]) {
      assert (x + w)[1..] == x[1..] + w;
      TrimTrailingSpaces(x[1..], w);
    } else {
      TrimEndSpaces(x, w);
    }
  }

  /** A text trims to nothing exactly when it is all whitespace. */
  lemma {:induction false} TrimEmptyIff(x: string)
    ensures Trim(x) == [] <==> AllSpace(x)
  {
    var y := TrimStart(x);
    if y != [] {
      assert x[|x| - |y|] == y[0];
    }
  }

  /** Text without whitespace passes `Collapse` unchanged. */
  lemma {:induction false} CollapsePrefix(a: string, rest: string)
    requires NoSpace(a)
    ensures Collapse(a + rest) == a + Collapse(rest)
  {
    if a != [] {
      assert (a + rest)[0] == a[0];
      assert (a + rest)[1..] == a[1..] + rest;
      CollapsePrefix(a[1..], rest);
    } else {
      assert a + rest == rest;
    }
  }

  /** A maximal whitespace run at the front becomes one underscore, and the
      rest is collapsed on its own. With `CollapsePrefix` this fixes
      `Collapse` on every text: runs of non-space characters are copied and
      each maximal whitespace run, wherever it stands, turns into one `_`. */
  lemma {:induction false} CollapseRun(ws: string, b: string)
    requires ws != [] && AllSpace(ws)
    requires b == [] || !IsSpace(b[0])
    ensures Collapse(ws + b) == "_" + Collapse(b)
  {
    assert (ws + b)[0] == ws[0];
    assert (ws + b)[1..] == ws[1..] + b;
    TrimStartSpaces(ws[1..], b);
  }

  lemma {:induction false} CollapseNoSpace(a: string)
    requires NoSpace(a)
    ensures Collapse(a) == a
  {
    CollapsePrefix(a, []);
    assert a + [] == a;
  }

  lemma {:induction false} LowerConcat(a: string, b: string)
    ensures Lower(a + b) == Lower(a) + Lower(b)
  {
  }

  lemma {:induction false} LowerSlugChars(s: string)
    requires AllSlugChars(s)
    ensures Lower(s) == s
  {
  }

  // ---------------------------------------------------------------------
  // Properties of the slug
  // ---------------------------------------------------------------------

  /** A name made only of word characters becomes its own lower-case
      form (ASCII letters have exactly one case mapping). */
  lemma {:induction false} SlugOfWord(word: string)
    requires AllWordChars(word)
    ensures Slug(word) == Lower(word)
  {
    StripPunctKeepsAll(word);
    assert Trim(word) == word by {
      assert word == [] || !IsSpace(word[0]);
      assert word == [] || !IsSpace(word[|word| - 1]);
    }
    CollapseNoSpace(word);
  }

  /** Slugs are fixed points: slugging a slug changes nothing. */
  lemma {:induction false} SlugOfSlug(s: string)
    requires AllSlugChars(s)
    ensures Slug(s) == s
  {
    SlugOfWord(s);
    LowerSlugChars(s);
  }

  lemma {:induction false} SlugIdempotent(name: string)
    ensures Slug(Slug(name)) == Slug(name)
  {
    SlugOfSlug(Slug(name));
  }

  /** A character that is neither a word character nor whitespace has no
      effect on the slug, wherever it stands. */
  lemma {:induction false} SlugIgnoresPunct(a: string, c: char, b: string)
    requires !IsKept(c)
    ensures Slug(a + [c] + b) == Slug(a + b)
  {
    StripPunctConcat(a + [c], b);
    StripPunctConcat(a, [c]);
    StripPunctConcat(a, b);
    assert StripPunct([c]) == [];
    assert StripPunct(a) + [] == StripPunct(a);
  }

  /** Whitespace around the name has no effect on the slug. */
  lemma {:induction false} SlugIgnoresOuterSpace(w1: string, s: string, w2: string)
    requires AllSpace(w1) && AllSpace(w2)
    ensures Slug(w1 + s + w2) == Slug(s)
  {
    StripPunctKeepsAll(w1);
    StripPunctKeepsAll(w2);
    StripPunctConcat(w1 + s, w2);
    StripPunctConcat(w1, s);
    var x := StripPunct(s);
    assert Trim(w1 + x + w2) == Trim(x) by {
      assert w1 + x + w2 == w1 + (x + w2);
      TrimStartSpaces(w1, x + w2);
      TrimTrailingSpaces(x, w2);
    }
  }

  /** Text that neither starts nor ends with whitespace is already trimmed. */
  lemma {:induction false} TrimUnchanged(s: string)
    requires s == [] || (!IsSpace(s[0]) && !IsSpace(s[|s| - 1]))
    ensures Trim(s) == s
  {
  }

  /** A whitespace run between two space-free texts becomes one underscore. */
  lemma {:induction false} CollapseJoin(a: string, ws: string, b: string)
    requires NoSpace(a) && NoSpace(b) && ws != [] && AllSpace(ws)
    ensures Collapse(a + ws + b) == a + "_" + b
  {
    assert a + ws + b == a + (ws + b);
    CollapsePrefix(a, ws + b);
    assert Collapse(ws + b) == "_" + b by {
      assert (ws + b)[1..] == ws[1..] + b;
      TrimStartSpaces(ws[1..], b);
      CollapseNoSpace(b);
    }
  }

  lemma {:induction false} WordCharsHaveNoSpace(a: string)
    requires AllWordChars(a)
    ensures NoSpace(a)
  {
  }

  lemma {:induction false} LowerJoin(a: string, b: string)
    ensures Lower(a + "_" + b) == Lower(a) + "_" + Lower(b)
  {
    LowerConcat(a + "_", b);
    LowerConcat(a, "_");
    assert Lower("_") == "_";
  }

  /** Two words with any run of whitespace between them are joined by a
      single underscore. */
  lemma {:induction false} SlugJoin(a: string, ws: string, b: string)
    requires a != [] && b != [] && ws != []
    requires AllWordChars(a) && AllWordChars(b) && AllSpace(ws)
    ensures Slug(a + ws + b) == Lower(a) + "_" + Lower(b)
  {
    var s := a + ws + b;
    assert StripPunct(s) == s by {
      StripPunctKeepsAll(s);
    }
    assert Trim(s) == s by {
      assert s[0] == a[0] && s[|s| - 1] == b[|b| - 1];
      TrimUnchanged(s);
    }
    WordCharsHaveNoSpace(a);
    WordCharsHaveNoSpace(b);
    CollapseJoin(a, ws, b);
    LowerJoin(a, b);
  }

  /** A word, a whitespace run, then any further words and runs: the first
      word is lower-cased and joined to the slug of the rest by one
      underscore. Applied word by word this gives the slug of a name of any
      number of words, such as `a_b_c` for `a b c`. */
  lemma {:induction false} SlugJoinRest(a: string, ws: string, b: string)
    requires a != [] && AllWordChars(a) && ws != [] && AllSpace(ws)
    requires forall i :: 0 <= i < |b| ==> IsKept(b[i])
    requires b != [] && !IsSpace(b[0]) && !IsSpace(b[|b| - 1])
    ensures Slug(a + ws + b) == Lower(a) + "_" + Slug(b)
  {
    var s := a + ws + b;
    assert StripPunct(s) == s by {
      assert forall i :: 0 <= i < |s| ==> IsKept(s[i]) by {
        forall i | 0 <= i < |s|
          ensures IsKept(s[i])
        {
          if i >= |a| + |ws| {
            assert s[i] == b[i - |a| - |ws|];
          }
        }
      }
      StripPunctKeepsAll(s);
    }
    assert StripPunct(b) == b by {
      StripPunctKeepsAll(b);
    }
    assert Trim(s) == s by {
      assert s[0] == a[0] && s[|s| - 1] == b[|b| - 1];
      TrimUnchanged(s);
    }
    TrimUnchanged(b);
    WordCharsHaveNoSpace(a);
    CollapseWordRun(a, ws, b);
    LowerJoin(a, Collapse(b));
  }

  lemma {:induction false} CollapseWordRun(a: string, ws: string, b: string)
    requires NoSpace(a) && ws != [] && AllSpace(ws)
    requires b == [] || !IsSpace(b[0])
    ensures Collapse(a + ws + b) == a + "_" + Collapse(b)
  {
    AppendAssoc(a, ws, b);
    CollapsePrefix(a, ws + b);
    CollapseRun(ws, b);
    AppendAssoc(a, "_", Collapse(b));
  }

  lemma {:induction false} EmptySlugFilename(name: string)
    requires Slug(name) == []
    ensures Filename(name) == "orcamento_.pdf"
  {
    WrapEmpty(Slug(name));
  }

  lemma {:induction false} WrapEmpty(m: string)
    requires m == []
    ensures "orcamento_" + m + ".pdf" == "orcamento_.pdf"
  {
    AppendEmpty("orcamento_");
  }

  /** The slug is empty exactly when the name holds no word character; the
      file is then named `orcamento_.pdf`. */
  lemma {:induction false} SlugEmptyIff(name: string)
    ensures Slug(name) == [] <==> forall i :: 0 <= i < |name| ==> !IsWordChar(name[i])
    ensures Slug(name) == [] ==> Filename(name) == "orcamento_.pdf"
  {
    if Slug(name) == [] {
      EmptySlugFilename(name);
    }
    var x := StripPunct(name);
    TrimEmptyIff(x);
    if i :| 0 <= i < |name| && IsWordChar(name[i]) {
      FilterContains(name, IsKept, i);
      var j :| 0 <= j < |x| && x[j] == name[i];
      assert !IsSpace(x[j]);
    } else {
      assert AllSpace(x) by {
        forall j | 0 <= j < |x|
          ensures IsSpace(x[j])
        {
          assert x[j] in name;
        }
      }
    }
  }

  /** How `"Acme & Co."` splits into words, whitespace and punctuation. */
  lemma {:induction false} AcmePieces(name: string)
    requires name == "Acme & Co."
    ensures name == name[..9] + [name[9]] + [] && name[..9] + [] == name[..9]
    ensures name[..9] == name[..5] + [name[5]] + name[6..9]
    ensures name[..5] + name[6..9] == name[..4] + "  " + name[7..9]
    ensures !IsKept(name[9]) && !IsKept(name[5])
    ensures name[..4] != [] && name[7..9] != []
    ensures AllWordChars(name[..4]) && AllWordChars(name[7..9]) && AllSpace("  ")
    ensures Lower(name[..4]) + "_" + Lower(name[7..9]) == "acme_co"
  {
    var a, b := name[..4], name[7..9];
    assert a == "Acme" && b == "Co";
    assert name[..5] == "Acme " && name[6..9] == " Co" && name[..9] == "Acme & Co";
    assert name[5] == '&' && name[9] == '.';
    assert Lower(a) == "acme" by {
      assert |Lower(a)| == 4;
      assert Lower(a)[0] == 'a' && Lower(a)[1] == 'c' && Lower(a)[2] == 'm' && Lower(a)[3] == 'e';
    }
    assert Lower(b) == "co" by {
      assert |Lower(b)| == 2;
      assert Lower(b)[0] == 'c' && Lower(b)[1] == 'o';
    }
  }

  /** A name with punctuation and a space between its words. */
  lemma {:induction false} FilenameExample(name: string)
    requires name == "Acme & Co."
    ensures Filename(name) == "orcamento_acme_co.pdf"
  {
    assert "orcamento_" + "acme_co" + ".pdf" == "orcamento_acme_co.pdf";
    AcmePieces(name);
    var a, ws, b := name[..4], "  ", name[7..9];
    var head, left, right := name[..9], name[..5], name[6..9];
    SlugIgnoresPunct(head, name[9], []);
    SlugIgnoresPunct(left, name[5], right);
    SlugJoin(a, ws, b);
    assert Slug(name) == "acme_co";
  }
}
