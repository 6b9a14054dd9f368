/**
 * What the style rewriter makes of any attribute, said without its own vocabulary: of one
 * declaration by its parts, of several by each of them. Together the laws determine it.
 */
module StyleLaws {
  import opened Strings
  import opened StyleCleaner

  /** The word, which is in lower case, in any mix of cases. */
  predicate AnyCase(m: string, word: string) {
    |m| == |word| && forall k :: 0 <= k < |m| ==>
      m[k] == word[k] || ('a' <= word[k] <= 'z' && m[k] as int + 32 == word[k] as int)
  }

  /** Somewhere in the text: the word, then white space if something is to follow, then that. */
  ghost predicate Has(t: string, word: string, next: string) {
    exists a, m, w, b :: HasAt(t, word, next, a, m, w, b)
  }

  predicate HasAt(t: string, word: string, next: string, a: string, m: string, w: string, b: string) {
    t == a + (m + w + next) + b && AnyCase(m, word) && Blank(w) && (next == "" ==> w == "")
  }

  /** Somewhere in the text: an address that is a data: one, quoted or not. */
  ghost predicate HasDataUrl(t: string) { exists a, m, w, q, d, b :: DataAt(t, a, m, w, q, d, b) }

  predicate DataAt(t: string, a: string, m: string, w: string, q: string, d: string, b: string) {
    && t == a + (m + w + q + d) + b
    && AnyCase(m, "url(") && Blank(w) && (q == "" || q == "'" || q == "\"") && AnyCase(d, "data:")
  }

  /** A declaration that could run something, reach the network or leave its box. */
  ghost predicate Harmful(t: string, property: string) {
    || Has(t, "expression", "(") || Has(t, "behavior", ":") || Has(t, "-moz-binding", "")
    || Has(t, "javascript:", "") || Has(t, "@import", "")
    || (Has(t, "url(", "") && !HasDataUrl(t))
    || AnyCase(property, "position") || AnyCase(property, "z-index")
  }

  // ---------------------------------------------------------------- the patterns

  lemma SameWord(m: string, word: string)
    requires forall k :: 0 <= k < |word| ==> !('A' <= word[k] <= 'Z')
    ensures Same(m, word) <==> AnyCase(m, word)
  {
    if |m| == |word| {
      forall k | 0 <= k < |m|
        ensures Fold(m[k]) == word[k] <==>
            m[k] == word[k] || ('a' <= word[k] <= 'z' && m[k] as int + 32 == word[k] as int)
      {
      }
    }
  }

  ghost predicate Shape(m: string, word: string, next: string) { exists x, w :: ShapeAt(m, word, next, x, w) }

  predicate ShapeAt(m: string, word: string, next: string, x: string, w: string) {
    m == x + w + next && AnyCase(x, word) && Blank(w) && (next == "" ==> w == "")
  }

  lemma FoundIs(t: string, word: string, next: string, r: string -> bool)
    requires forall m: string :: r(m) <==> Shape(m, word, next)
    ensures Found(t, r) <==> Has(t, word, next)
  {
    if Found(t, r) {
      var i: nat, j: nat :| i <= |t| && j <= |t| && Spot(t, r, i, j);
      var x, w :| ShapeAt(t[i..j], word, next, x, w);
      assert t == t[..i] + t[i..j] + t[j..];
      assert HasAt(t, word, next, t[..i], x, w, t[j..]);
    }
    if Has(t, word, next) {
      var a, m, w, b :| HasAt(t, word, next, a, m, w, b);
      var x := m + w + next;
      assert ShapeAt(x, word, next, m, w);
      assert t[|a|..|a| + |x|] == x;
      assert Spot(t, r, |a|, |a| + |x|);
    }
  }

  /** A pattern that is a word, white space and one more character. */
  lemma SpacedShape(m: string, word: string, c: char, n: nat)
    requires n == |word| && forall k :: 0 <= k < |word| ==> !('A' <= word[k] <= 'Z')
    ensures Shape(m, word, [c]) <==> |m| > n && Same(m[..n], word) && Blank(m[n..|m| - 1]) && m[|m| - 1] == c
  {
    if |m| > n {
      SameWord(m[..n], word);
      assert m == m[..n] + m[n..|m| - 1] + [m[|m| - 1]];
      if Same(m[..n], word) && Blank(m[n..|m| - 1]) && m[|m| - 1] == c {
        assert ShapeAt(m, word, [c], m[..n], m[n..|m| - 1]);
      }
    }
    if Shape(m, word, [c]) {
      var x, w :| ShapeAt(m, word, [c], x, w);
      assert m[..n] == x && m[n..|m| - 1] == w;
      SameWord(x, word);
    }
  }

  lemma WordShape(m: string, word: string)
    requires forall k :: 0 <= k < |word| ==> !('A' <= word[k] <= 'Z')
    ensures Shape(m, word, "") <==> Same(m, word)
  {
    SameWord(m, word);
    if AnyCase(m, word) {
      assert m == m + "" + "";
      assert ShapeAt(m, word, "", m, "");
    }
    if Shape(m, word, "") {
      var x, w :| ShapeAt(m, word, "", x, w);
      assert m == x;
    }
  }

  lemma BlockedIs(t: string)
    ensures Blocked(t) <==>
      || Has(t, "expression", "(") || Has(t, "behavior", ":") || Has(t, "-moz-binding", "")
      || Has(t, "javascript:", "") || Has(t, "@import", "")
  {
    hide Found, Has, Shape, Same, Blank;
    forall m: string ensures IsExpression(m) <==> Shape(m, "expression", "(") { SpacedShape(m, "expression", '(', 10); }
    forall m: string ensures IsBehavior(m) <==> Shape(m, "behavior", ":") { SpacedShape(m, "behavior", ':', 8); }
    forall m: string ensures IsMozBinding(m) <==> Shape(m, "-moz-binding", "") { WordShape(m, "-moz-binding"); }
    forall m: string ensures IsJavascript(m) <==> Shape(m, "javascript:", "") { WordShape(m, "javascript:"); }
    forall m: string ensures IsImport(m) <==> Shape(m, "@import", "") { WordShape(m, "@import"); }
    hide IsExpression, IsBehavior, IsMozBinding, IsJavascript, IsImport;
    FoundIs(t, "expression", "(", IsExpression);
    FoundIs(t, "behavior", ":", IsBehavior);
    FoundIs(t, "-moz-binding", "", IsMozBinding);
    FoundIs(t, "javascript:", "", IsJavascript);
    FoundIs(t, "@import", "", IsImport);
  }

  lemma UrlIs(t: string)
    ensures Found(t, IsUrl) <==> Has(t, "url(", "")
  {
    hide Found, Has, Shape, Same;
    forall m: string ensures IsUrl(m) <==> Shape(m, "url(", "") { WordShape(m, "url("); }
    FoundIs(t, "url(", "", IsUrl);
  }

  lemma DataUrlParts(m: string, x: string, w: string, q: string, d: string)
    requires m == x + w + q + d && AnyCase(x, "url(") && Blank(w) && (q == "" || q == "'" || q == "\"")
    requires AnyCase(d, "data:")
    ensures IsDataUrl(m)
  {
    SameWord(x, "url(");
    SameWord(d, "data:");
    assert m[..4] == x && m[|m| - 5..] == d && m[4..|m| - 5] == w + q;
    if q == "" {
      assert w + q == w;
    } else {
      assert (w + q)[..|w + q| - 1] == w;
    }
  }

  lemma DataUrlOpens(m: string) returns (w: string, q: string)
    requires IsDataUrl(m)
    ensures |m| >= 9
    ensures m == m[..4] + w + q + m[|m| - 5..] && AnyCase(m[..4], "url(") && AnyCase(m[|m| - 5..], "data:")
    ensures Blank(w) && (q == "" || q == "'" || q == "\"")
  {
    SameWord(m[..4], "url(");
    SameWord(m[|m| - 5..], "data:");
    var gap := m[4..|m| - 5];
    assert m == m[..4] + gap + m[|m| - 5..];
    if Blank(gap) {
      w, q := gap, "";
      assert gap == gap + "";
    } else {
      w, q := gap[..|gap| - 1], [gap[|gap| - 1]];
      assert gap == w + q;
    }
  }

  lemma DataUrlIs(t: string)
    ensures Found(t, IsDataUrl) <==> HasDataUrl(t)
  {
    hide IsDataUrl, AnyCase, Blank;
    if Found(t, IsDataUrl) {
      var i: nat, j: nat :| i <= |t| && j <= |t| && Spot(t, IsDataUrl, i, j);
      var m := t[i..j];
      var w, q := DataUrlOpens(m);
      assert t == t[..i] + m + t[j..];
      assert DataAt(t, t[..i], m[..4], w, q, m[|m| - 5..], t[j..]);
    }
    if HasDataUrl(t) {
      var a, x, w, q, d, b :| DataAt(t, a, x, w, q, d, b);
      var m := x + w + q + d;
      DataUrlParts(m, x, w, q, d);
      assert t[|a|..|a| + |m|] == m;
      assert Spot(t, IsDataUrl, |a|, |a| + |m|);
    }
  }

  // ------------------------------------------------------------- the laws

  /** A declaration by its parts: property, white space, colon, and what follows, if anything. */
  function Declared(p: string, w: string, f: string, v: string): string {
    p + w + ":" + if v == "" then "" else f + v
  }

  lemma BlankHas(w: string)
    requires Blank(w)
    ensures ':' !in w && ';' !in w
  {
  }

  /** How the parts of a declaration are read. */
  lemma PartsRead(p: string, w: string, f: string, v: string)
    requires p != "" && Trimmed(p) && Trimmed(v) && ':' !in p && Blank(w) && Blank(f)
    ensures var t := Declared(p, w, f, v);
            Trimmed(t) && Find(t, ':') == |p + w| < |t| && Property(t) == p && ValueOf(t) == v
  {
    var t, rest := Declared(p, w, f, v), if v == "" then "" else f + v;
    BlankHas(w);
    assert t == (p + w) + [':'] + rest;
    FindFirst(p + w, ':', rest);
    assert t[..|p + w|] == p + w && t[|p + w| + 1..] == rest;
    TrimUnique("", p, w);
    assert "" + p + w == p + w;
    if v == "" {
      TrimTrimmed("");
    } else {
      TrimUnique(f, v, "");
      assert f + v + "" == f + v;
    }
    assert t[0] == p[0] && t[|t| - 1] == if v == "" then ':' else v[|v| - 1];
  }

  lemma HarmIs(t: string, p: string)
    ensures Blocked(t) || EscapesBox(p) || Loads(t) <==> Harmful(t, p)
  {
    hide Blocked, Has, HasDataUrl, Found, Same, AnyCase;
    BlockedIs(t);
    UrlIs(t);
    DataUrlIs(t);
    SameWord(p, "position");
    SameWord(p, "z-index");
  }

  lemma PassesIs(p: string, w: string, f: string, v: string)
    requires p != "" && Trimmed(p) && Trimmed(v) && ':' !in p && Blank(w) && Blank(f)
    ensures Passes(Declared(p, w, f, v)) <==> !Harmful(Declared(p, w, f, v), p)
  {
    var t := Declared(p, w, f, v);
    PartsRead(p, w, f, v);
    HarmIs(t, p);
    hide Harmful, Blocked, EscapesBox, Loads, Declared, Property, Blank, Trimmed, Find, Trim;
  }

  lemma OneKept(d: string)
    requires ';' !in d
    ensures CleanStyle(d) == if Rewrite(d).Some? then Rewrite(d).value else ""
  {
    SplitNone(d, ';');
    assert [d][1..] == [] && Kept([]) == [];
    assert Kept([d]) == if Rewrite(d).Some? then [Rewrite(d).value] else [];
    hide Kept, Split, Rewrite;
  }

  /** One declaration, whatever white space it is written with: kept tidily, or dropped if harmful. */
  lemma OneDeclaration(lead: string, p: string, w: string, f: string, v: string, tail: string)
    requires p != "" && Trimmed(p) && Trimmed(v) && ':' !in p && ';' !in p && ';' !in v
    requires Blank(lead) && Blank(w) && Blank(f) && Blank(tail)
    ensures CleanStyle(lead + Declared(p, w, f, v) + tail) ==
            if Harmful(Declared(p, w, f, v), p) then "" else p + ": " + v
  {
    var t := Declared(p, w, f, v);
    NoSemicolon(lead, p, w, f, v, tail);
    PartsRead(p, w, f, v);
    PassesIs(p, w, f, v);
    hide Harmful, Passes, CleanStyle, Property, ValueOf, Declared, Find, IsSpace;
    TrimUnique(lead, t, tail);
    hide Trim;
    OneKept(lead + t + tail);
  }

  lemma NoSemicolon(lead: string, p: string, w: string, f: string, v: string, tail: string)
    requires ';' !in p && ';' !in v && Blank(lead) && Blank(w) && Blank(f) && Blank(tail)
    ensures ';' !in lead + Declared(p, w, f, v) + tail
  {
    BlankHas(lead);
    BlankHas(w);
    BlankHas(f);
    BlankHas(tail);
    hide Blank;
  }

  /** What has no property, or no colon at all, is dropped. */
  lemma NoDeclaration(d: string, lead: string, rest: string)
    requires ';' !in d && (':' !in d || (d == lead + ":" + rest && Blank(lead)))
    ensures CleanStyle(d) == ""
  {
    OneKept(d);
    hide CleanStyle;
    if ':' !in d {
      TrimPlain(d, ':');
      assert Find(Trim(d), ':') == |Trim(d)|;
    } else {
      ColonFirst(d, lead, rest);
    }
    hide Blocked, EscapesBox, Loads, Trim;
  }

  lemma ColonFirst(d: string, lead: string, rest: string)
    requires d == lead + ":" + rest && Blank(lead)
    ensures Find(Trim(d), ':') == 0
  {
    var x, y := TrimSplits(":" + rest);
    var t := Trim(":" + rest);
    BlankHas(x);
    BlankHas(y);
    assert (x + t + y)[0] == ':';
    assert t[0] == ':';
    TrimUnique(lead, t, y);
    assert x + t + y == t + y;
    assert lead + t + y == lead + (t + y);
    assert d == lead + (":" + rest);
    hide Trim;
  }

  lemma {:induction false} KeptConcat(a: seq<string>, b: seq<string>)
    ensures Kept(a + b) == Kept(a) + Kept(b)
  {
    hide Rewrite;
    if a == [] {
      assert a + b == b;
    } else {
      assert (a + b)[1..] == a[1..] + b && (a + b)[0] == a[0];
      KeptConcat(a[1..], b);
    }
  }

  /** Several declarations: each is treated as it would be alone, in order, and they are joined by "; ". */
  lemma SeveralDeclarations(d: string, rest: string)
    requires ';' !in d
    ensures CleanStyle(d + ";" + rest) ==
            if CleanStyle(d) == "" then CleanStyle(rest)
            else if CleanStyle(rest) == "" then CleanStyle(d)
            else CleanStyle(d) + "; " + CleanStyle(rest)
  {
    SplitOnce(d, ';', rest);
    assert d + ";" + rest == d + [';'] + rest;
    var ds := Split(rest, ';');
    KeptConcat([d], ds);
    KeptFull([d]);
    KeptFull(ds);
    OneKept(d);
    assert [d][1..] == [] && Kept([]) == [];
    var k := Kept([d]);
    assert k == if Rewrite(d).Some? then [Rewrite(d).value] else [];
    assert Rewrite(d).Some? ==> k[0] != "";
    var more := Kept(ds);
    hide Kept, Split, Rewrite;
    if k == [] {
      assert k + more == more;
    } else if more == [] {
      assert k + more == k;
    } else {
      assert (k + more)[1..] == more && (k + more)[0] == k[0];
      JoinFull(more);
    }
  }
}
