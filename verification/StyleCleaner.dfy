/**
 * The style-declaration rewriter at string level: what one pass leaves for the next,
 * exactly when one pass is enough, and what holds of every declaration after two.
 */
module StyleCleaner {
  import opened Basics
  import opened Strings

  // -------------------------------------------------- the regular expressions

  predicate IsExpression(m: string) {
    |m| > 10 && Same(m[..10], "expression") && Blank(m[10..|m| - 1]) && m[|m| - 1] == '('
  }

  predicate IsBehavior(m: string) {
    |m| > 8 && Same(m[..8], "behavior") && Blank(m[8..|m| - 1]) && m[|m| - 1] == ':'
  }

  predicate IsMozBinding(m: string) { Same(m, "-moz-binding") }

  predicate IsJavascript(m: string) { Same(m, "javascript:") }

  predicate IsImport(m: string) { Same(m, "@import") }

  predicate IsUrl(m: string) { Same(m, "url(") }

  predicate IsQuote(c: char) { c == '\'' || c == '"' }

  predicate IsDataUrl(m: string) {
    && |m| >= 9 && Same(m[..4], "url(") && Same(m[|m| - 5..], "data:")
    && var gap := m[4..|m| - 5];
       Blank(gap) || (gap != "" && IsQuote(gap[|gap| - 1]) && Blank(gap[..|gap| - 1]))
  }

  predicate Blocked(t: string) {
    || Found(t, IsExpression) || Found(t, IsBehavior) || Found(t, IsMozBinding)
    || Found(t, IsJavascript) || Found(t, IsImport)
  }

  /** A url() that would reach the network. */
  predicate Loads(t: string) { Found(t, IsUrl) && !Found(t, IsDataUrl) }

  predicate EscapesBox(property: string) { Same(property, "position") || Same(property, "z-index") }

  // --------------------------------------------------------------- the cleaner

  function Property(t: string): string { Trim(t[..Find(t, ':')]) }

  function ValueOf(t: string): string
    requires Find(t, ':') < |t|
  {
    Trim(t[Find(t, ':') + 1..])
  }

  /** A trimmed declaration passes all the filters. */
  predicate Passes(t: string) {
    && 0 < Find(t, ':') < |t|
    && !Blocked(t) && !EscapesBox(Property(t)) && !Loads(t)
  }

  /** What one declaration is rewritten to, if it is kept. */
  function Rewrite(d: string): Option<string> {
    var t := Trim(d);
    if Passes(t) then Some(Property(t) + ": " + ValueOf(t)) else None
  }

  function Kept(ds: seq<string>): seq<string> {
    if ds == [] then []
    else (if Rewrite(ds[0]).Some? then [Rewrite(ds[0]).value] else []) + Kept(ds[1..])
  }

  function CleanStyle(value: string): string { Join(Kept(Split(value, ';')), "; ") }

  lemma KeptFrom(ds: seq<string>, i: nat)
    requires i < |ds|
    ensures Kept(ds[i..]) == (if Rewrite(ds[i]).Some? then [Rewrite(ds[i]).value] else []) + Kept(ds[i + 1..])
  {
    assert ds[i..][1..] == ds[i + 1..];
    hide Rewrite;
  }

  /** The rewriter's loop over the declarations, collecting what is kept. */
  method CleanStyleLoop(value: string) returns (style: string)
    ensures style == CleanStyle(value)
  {
    hide Split, Find, Trim, Blocked, Loads, EscapesBox, Join, Kept;
    if value == "" { EmptyStyle(); return ""; }
    var declarations := Split(value, ';');
    var kept: seq<string> := [];
    var i := 0;
    assert declarations[0..] == declarations && kept + Kept(declarations) == Kept(declarations);
    while i < |declarations|
      invariant i <= |declarations|
      invariant kept + Kept(declarations[i..]) == Kept(declarations)
    {
      KeptFrom(declarations, i);
      ghost var before := kept;
      var d := declarations[i];
      var text := Trim(d);
      i := i + 1;
      if text == "" { assert Rewrite(d).None?; Extend(before, [], Kept(declarations[i..])); continue; }
      var colon := Find(text, ':');
      if colon == 0 || colon == |text| {
        assert Rewrite(d).None?;
        Extend(before, [], Kept(declarations[i..]));
        continue;
      }
      var property := Trim(text[..colon]);
      if Blocked(text) || EscapesBox(property) || Loads(text) {
        assert Rewrite(d).None?;
        Extend(before, [], Kept(declarations[i..]));
        continue;
      }
      kept := kept + [property + ": " + Trim(text[colon + 1..])];
      Extend(before, [Rewrite(d).value], Kept(declarations[i..]));
    }
    assert declarations[i..] == [] && kept + [] == kept;
    KeptNone();
    return Join(kept, "; ");
  }

  lemma Extend(a: seq<string>, b: seq<string>, c: seq<string>)
    ensures a + (b + c) == (a + b) + c && a + [] == a
  {
  }

  lemma KeptNone()
    ensures Kept([]) == []
  {
  }

  lemma EmptyStyle()
    ensures CleanStyle("") == ""
  {
    SplitNone("", ';');
    assert Trim("") == "" && Rewrite("").None?;
    assert [""][1..] == [];
    assert Kept([""]) == [] + Kept([]);
    hide Rewrite, Split;
  }

  // ------------------------------------------------- what the patterns are like

  lemma FreeLanguages()
    ensures ColonFree(IsExpression) && Solid(IsExpression) && ColonFree(IsMozBinding) && Solid(IsMozBinding)
    ensures ColonFree(IsImport) && Solid(IsImport) && ColonFree(IsUrl) && Solid(IsUrl)
  {
    forall m: string
      ensures IsExpression(m) ==> m != "" && ':' !in m && Trimmed(m)
    {
      if IsExpression(m) { ExpressionIs(m); }
    }
    hide IsExpression;
    forall m: string
      ensures IsMozBinding(m) ==> m != "" && ':' !in m && Trimmed(m)
    {
      if IsMozBinding(m) { WordIs(m, "-moz-binding"); }
    }
    hide IsMozBinding;
    forall m: string
      ensures IsImport(m) ==> m != "" && ':' !in m && Trimmed(m)
    {
      if IsImport(m) { WordIs(m, "@import"); }
    }
    hide IsImport;
    forall m: string ensures IsUrl(m) ==> m != "" && ':' !in m && Trimmed(m) { if IsUrl(m) { WordIs(m, "url("); } }
    hide IsUrl, Trimmed;
  }

  lemma LastLanguages()
    ensures ColonLast(IsBehavior) && Solid(IsBehavior) && ColonLast(IsJavascript) && Solid(IsJavascript)
    ensures ColonLast(IsDataUrl) && Solid(IsDataUrl)
  {
    forall m: string ensures IsBehavior(m) ==> m != "" && m[|m| - 1] == ':' && ':' !in m[..|m| - 1] && Trimmed(m) {
      if IsBehavior(m) { BehaviorIs(m); }
    }
    hide IsBehavior;
    forall m: string ensures IsJavascript(m) ==> m != "" && m[|m| - 1] == ':' && ':' !in m[..|m| - 1] && Trimmed(m) {
      if IsJavascript(m) { JavascriptIs(m); }
    }
    hide IsJavascript;
    forall m: string ensures IsDataUrl(m) ==> m != "" && m[|m| - 1] == ':' && ':' !in m[..|m| - 1] && Trimmed(m) {
      if IsDataUrl(m) { DataUrlIs(m); }
    }
    hide IsDataUrl, Trimmed;
  }

  /** Matching a word in any case says what each character folds to. */
  lemma WordIs(m: string, word: string)
    requires Same(m, word) && word != "" && ':' !in word
    requires !IsSpace(word[0]) && !IsSpace(word[|word| - 1])
    ensures m != "" && ':' !in m && Trimmed(m)
  {
    forall k | 0 <= k < |m| ensures m[k] != ':' {
      assert word[k] in word;
      assert Fold(m[k]) == word[k];
    }
    assert forall c: char :: IsSpace(c) ==> Fold(c) == c;
  }

  lemma ExpressionIs(m: string)
    requires IsExpression(m)
    ensures ':' !in m && Trimmed(m)
  {
    WordIs(m[..10], "expression");
    assert m == m[..10] + m[10..|m| - 1] + [m[|m| - 1]];
  }

  lemma BehaviorIs(m: string)
    requires IsBehavior(m)
    ensures m[|m| - 1] == ':' && ':' !in m[..|m| - 1] && Trimmed(m)
  {
    WordIs(m[..8], "behavior");
    assert m[..|m| - 1] == m[..8] + m[8..|m| - 1];
  }

  lemma JavascriptIs(m: string)
    requires IsJavascript(m)
    ensures m != "" && m[|m| - 1] == ':' && ':' !in m[..|m| - 1] && Trimmed(m)
  {
    assert Same(m[..10], "javascript") by {
      forall k | 0 <= k < 10 ensures Fold(m[..10][k]) == "javascript"[k] {
        assert "javascript:"[k] == "javascript"[k];
      }
    }
    WordIs(m[..10], "javascript");
    assert Fold(m[10]) == ':';
  }

  lemma DataUrlIs(m: string)
    requires IsDataUrl(m)
    ensures m[|m| - 1] == ':' && ':' !in m[..|m| - 1] && Trimmed(m)
  {
    var n := |m|;
    WordIs(m[..4], "url(");
    var d := m[n - 5..];
    assert Fold(d[4]) == ':' && d[4] == m[n - 1];
    assert Same(d[..4], "data") by {
      forall k | 0 <= k < 4 ensures Fold(d[..4][k]) == "data"[k] {
        assert "data:"[k] == "data"[k] && Fold(d[k]) == "data:"[k];
      }
    }
    WordIs(d[..4], "data");
    var gap := m[4..n - 5];
    assert ':' !in gap;
    assert m[..n - 1] == m[..4] + gap + d[..4];
  }

  // ------------------------------------------------- one declaration, rewritten

  /** A declaration taken apart: property, colon, value, and the white space between. */
  ghost predicate Anatomy(t: string, p: string, w: string, front: string, v: string, back: string) {
    && t == (p + w) + ":" + (front + v + back)
    && p != "" && Trimmed(p) && Trimmed(v) && ':' !in p + w
    && Blank(w) && Blank(front) && Blank(back)
  }

  lemma BlankFront(lead: string, rest: string)
    requires Blank(lead)
    ensures lead != "" ==> IsSpace((lead + rest)[0])
  {
  }

  lemma BlankBack(rest: string, tail: string)
    requires Blank(tail)
    ensures tail != "" ==> IsSpace((rest + tail)[|rest + tail| - 1])
  {
  }

  /** The part before the colon, of a trimmed declaration. */
  lemma TakeHead(head: string) returns (w: string)
    requires head != "" && !IsSpace(head[0])
    ensures head == Trim(head) + w && Blank(w) && Trim(head) != "" && Trimmed(Trim(head))
  {
    var lead: string;
    lead, w := TrimSplits(head);
    var p := Trim(head);
    hide Trim, IsSpace, Blank;
    assert head == lead + (p + w);
    BlankFront(lead, p + w);
    assert head == p + w;
    assert w + "" == w;
    BlankFront(w, "");
  }

  lemma TakeApart(t: string) returns (w: string, front: string, back: string)
    requires Trimmed(t) && 0 < Find(t, ':') < |t|
    ensures Anatomy(t, Property(t), w, front, ValueOf(t), back)
  {
    var c := Find(t, ':');
    assert t[..c][0] == t[0];
    w := TakeHead(t[..c]);
    front, back := TrimSplits(t[c + 1..]);
    assert t == t[..c] + ":" + t[c + 1..];
    hide Trim, IsSpace, Blank, Find;
  }

  /** What a property and a value are put together as, and read back as. */
  lemma ReadBack(p: string, v: string)
    requires p != "" && Trimmed(p) && Trimmed(v) && ':' !in p
    ensures var t := Trim(p + ": " + v); var lead := if v == "" then "" else " ";
            Anatomy(t, p, "", lead, v, "") && Find(t, ':') == |p| && Property(t) == p && ValueOf(t) == v
  {
    var k := p + ": " + v;
    var lead := if v == "" then "" else " ";
    var t := p + ":" + (lead + v);
    assert Trim(k) == t by {
      assert t[0] == p[0] && t[|t| - 1] == if v == "" then ':' else v[|v| - 1];
      var tail := if v == "" then " " else "";
      assert k == "" + t + tail;
      TrimUnique("", t, tail);
    }
    FindFirst(p, ':', lead + v);
    assert t == p + [':'] + (lead + v);
    assert t[..|p|] == p && t[|p| + 1..] == lead + v;
    TrimTrimmed(p);
    TrimUnique(lead, v, "");
    assert lead + v + "" == lead + v && p + "" == p;
  }

  lemma FreeMoves(t: string, t': string, p: string, w: string, f: string, b: string, w': string, f': string, b': string,
                  v: string, r: string -> bool)
    requires Anatomy(t, p, w, f, v, b) && Anatomy(t', p, w', f', v, b') && ColonFree(r) && Solid(r)
    ensures Found(t', r) ==> Found(t, r)
  {
    hide ColonFree, Solid, Found, Blank, Trimmed;
    if Found(t', r) {
      FoundOneSide(p + w', f' + v + b', r);
      if Found(p + w', r) {
        assert "" + p + w' == p + w' && Blank("") by { EmptyBlank(); }
        FoundTrimmed("", p, w', r);
        FoundWithin("", p, w + ":" + (f + v + b), r);
        assert "" + p + (w + ":" + (f + v + b)) == t;
      } else {
        ValueMoves(t, p, w, f, v, b, f', b', r);
      }
    }
  }

  lemma EmptyBlank()
    ensures Blank("")
  {
  }

  /** A match within the value is a match in any arrangement of the declaration. */
  lemma ValueMoves(t: string, p: string, w: string, f: string, v: string, b: string, f': string, b': string,
                   r: string -> bool)
    requires Anatomy(t, p, w, f, v, b) && Blank(f') && Blank(b') && Solid(r) && Found(f' + v + b', r)
    ensures Found(t, r)
  {
    hide Solid, Found, Blank, Trimmed;
    FoundTrimmed(f', v, b', r);
    FoundWithin((p + w) + ":" + f, v, b, r);
    assert (p + w) + ":" + f + v + b == t;
  }

  predicate EndsInScript(p: string) { |p| >= 10 && Same(p[|p| - 10..], "javascript") }

  /** behavior may be followed by white space, so moving the colon does not hide it. */
  lemma BehaviorMoves(t: string, t': string, p: string, w: string, f: string, b: string, f': string, b': string,
                      v: string)
    requires Anatomy(t, p, w, f, v, b) && Anatomy(t', p, "", f', v, b')
    ensures Found(t', IsBehavior) ==> Found(t, IsBehavior)
  {
    LastLanguages();
    hide ColonLast, Solid, Found;
    if Found(t', IsBehavior) {
      assert p + "" == p;
      var i := FoundAtColon(p, f' + v + b', IsBehavior);
      if Found(f' + v + b', IsBehavior) {
        ValueMoves(t, p, w, f, v, b, f', b', IsBehavior);
      } else {
        BehaviorStretches(p[i..], w);
        Whole(p[i..] + w + ":", IsBehavior);
        FoundWithin(p[..i], p[i..] + w + ":", f + v + b, IsBehavior);
        assert p[..i] + (p[i..] + w + ":") + (f + v + b) == t;
      }
    }
  }

  lemma BehaviorStretches(q: string, w: string)
    requires IsBehavior(q + ":") && Blank(w)
    ensures IsBehavior(q + w + ":")
  {
    var m, m' := q + ":", q + w + ":";
    assert m'[..8] == m[..8];
    assert m'[8..|m'| - 1] == m[8..|m| - 1] + w;
  }

  lemma Whole(m: string, r: string -> bool)
    requires r(m)
    ensures Found(m, r)
  {
    assert m[0..|m|] == m;
    assert Spot(m, r, 0, |m|);
  }

  /** A script scheme appears in the rewritten declaration just when the property ends in its name. */
  lemma ScriptMoves(t: string, t': string, p: string, w: string, f: string, b: string, f': string, b': string,
                    v: string)
    requires Anatomy(t, p, w, f, v, b) && Anatomy(t', p, "", f', v, b') && !Found(t, IsJavascript)
    ensures Found(t', IsJavascript) <==> EndsInScript(p)
  {
    LastLanguages();
    hide ColonLast, Solid, Found;
    assert p + "" == p;
    if Found(t', IsJavascript) {
      var i := FoundAtColon(p, f' + v + b', IsJavascript);
      if Found(f' + v + b', IsJavascript) { ValueMoves(t, p, w, f, v, b, f', b', IsJavascript); }
      else { ScriptEnds(p, i); }
    }
    if EndsInScript(p) {
      ScriptShows(p);
      Whole(p[|p| - 10..] + ":", IsJavascript);
      FoundWithin(p[..|p| - 10], p[|p| - 10..] + ":", f' + v + b', IsJavascript);
      assert p[..|p| - 10] + (p[|p| - 10..] + ":") + (f' + v + b') == t';
    }
  }

  lemma ScriptEnds(p: string, i: nat)
    requires i <= |p| && IsJavascript(p[i..] + ":")
    ensures EndsInScript(p)
  {
    var m := p[i..] + ":";
    assert |p| - 10 == i;
    forall k | 0 <= k < 10 ensures Fold(p[i..][k]) == "javascript"[k] {
      assert m[k] == p[i..][k] && "javascript:"[k] == "javascript"[k];
    }
  }

  lemma ScriptShows(p: string)
    requires EndsInScript(p)
    ensures IsJavascript(p[|p| - 10..] + ":")
  {
    var q := p[|p| - 10..];
    forall k | 0 <= k < 11 ensures Fold((q + ":")[k]) == "javascript:"[k] {
      if k < 10 { assert "javascript:"[k] == "javascript"[k]; }
    }
  }

  /** A data: address stays one. */
  lemma DataMoves(t: string, t': string, p: string, w: string, f: string, b: string, f': string, b': string, v: string)
    requires Anatomy(t, p, w, f, v, b) && Anatomy(t', p, "", f', v, b')
    ensures Found(t, IsDataUrl) ==> Found(t', IsDataUrl)
  {
    LastLanguages();
    hide ColonLast, Solid, Found;
    if Found(t, IsDataUrl) {
      var i := FoundAtColon(p + w, f + v + b, IsDataUrl);
      if Found(f + v + b, IsDataUrl) {
        ValueMoves(t', p, "", f', v, b', f, b, IsDataUrl);
      } else {
        DataAtColon(p + w, i);
        BlankBack(p, w);
        assert p + w == p;
        Whole(p[i..] + ":", IsDataUrl);
        FoundWithin(p[..i], p[i..] + ":", f' + v + b', IsDataUrl);
        assert p[..i] + (p[i..] + ":") + (f' + v + b') == t';
      }
    }
  }

  lemma DataAtColon(a: string, i: nat)
    requires i <= |a| && IsDataUrl(a[i..] + ":")
    ensures a != "" && !IsSpace(a[|a| - 1])
  {
    var m := a[i..] + ":";
    var d := m[|m| - 5..];
    assert Fold(d[3]) == 'a' && d[3] == a[|a| - 1];
  }

  /** The rewritten declaration is kept as it is, unless its property ends in a script scheme. */
  lemma RewriteAgain(d: string)
    requires Rewrite(d).Some?
    ensures var p, k := Property(Trim(d)), Rewrite(d).value;
            Property(Trim(k)) == p && Rewrite(k) == if EndsInScript(p) then None else Some(k)
  {
    var x, y := TrimSplits(d);
    var t := Trim(d);
    var w, f, b := TakeApart(t);
    var p, v := Property(t), ValueOf(t);
    assert ':' !in p by { assert forall c :: c in p ==> c in p + w; }
    var k := p + ": " + v;
    ReadBack(p, v);
    var t' := Trim(k);
    var f' := if v == "" then "" else " ";
    hide Blocked, Loads, Anatomy, Property, ValueOf, EndsInScript, Trim, Find, EscapesBox;
    FiltersAgree(t, t', p, w, f, b, f', v);
  }

  /** Moving the white space about the colon changes what the filters see in one way only. */
  lemma FiltersAgree(t: string, t': string, p: string, w: string, f: string, b: string, f': string, v: string)
    requires Anatomy(t, p, w, f, v, b) && Anatomy(t', p, "", f', v, "") && !Blocked(t) && !Loads(t)
    ensures Blocked(t') <==> EndsInScript(p)
    ensures !Loads(t')
  {
    hide Found, Anatomy, EndsInScript, ColonFree, Solid;
    FreeLanguages();
    FreeMoves(t, t', p, w, f, b, "", f', "", v, IsExpression);
    FreeMoves(t, t', p, w, f, b, "", f', "", v, IsMozBinding);
    FreeMoves(t, t', p, w, f, b, "", f', "", v, IsImport);
    FreeMoves(t, t', p, w, f, b, "", f', "", v, IsUrl);
    BehaviorMoves(t, t', p, w, f, b, f', "", v);
    ScriptMoves(t, t', p, w, f, b, f', "", v);
    DataMoves(t, t', p, w, f, b, f', "", v);
  }

  // ------------------------------------------------------ the whole attribute

  /** Some declaration that would be kept has a property ending in the name of the script scheme. */
  predicate SneakyScript(value: string) {
    exists k :: 0 <= k < |Split(value, ';')| && Sneaky(Split(value, ';')[k])
  }

  /** A declaration that would be kept, whose property ends in the name of the script scheme. */
  predicate Sneaky(d: string) { Passes(Trim(d)) && EndsInScript(Property(Trim(d))) }

  predicate Clean(ks: seq<string>) { forall k :: 0 <= k < |ks| ==> Rewrite(ks[k]) == Some(ks[k]) }

  predicate Plain(ks: seq<string>) { forall k :: 0 <= k < |ks| ==> ';' !in ks[k] }

  lemma TrimPlain(d: string, c: char)
    requires c !in d
    ensures c !in Trim(d)
  {
    var x, y := TrimSplits(d);
    assert forall k :: 0 <= k < |Trim(d)| ==> Trim(d)[k] == d[|x| + k] && d[|x| + k] in d;
  }

  lemma RewritePlain(d: string)
    requires ';' !in d && Rewrite(d).Some?
    ensures ';' !in Rewrite(d).value
  {
    TrimPlain(d, ';');
    var t := Trim(d);
    var c := Find(t, ':');
    assert ';' !in t[..c] && ';' !in t[c + 1..] by {
      assert forall x :: x in t[..c] ==> x in t;
      assert forall x :: x in t[c + 1..] ==> x in t;
    }
    TrimPlain(t[..c], ';');
    TrimPlain(t[c + 1..], ';');
    hide Passes, Trim, Find;
  }

  lemma {:induction false} KeptPlain(ds: seq<string>)
    requires Plain(ds)
    ensures Plain(Kept(ds))
  {
    if ds != [] {
      KeptPlain(ds[1..]);
      if Rewrite(ds[0]).Some? { RewritePlain(ds[0]); }
      hide Rewrite;
    }
  }

  lemma LeadingSpace(d: string)
    ensures Rewrite(" " + d) == Rewrite(d)
  {
    var x, y := TrimSplits(d);
    TrimUnique(" " + x, Trim(d), y);
    assert " " + x + Trim(d) + y == " " + d;
    hide Passes, Trim, Property, ValueOf;
  }

  lemma {:induction false} KeptSpaced(ks: seq<string>)
    ensures Kept(Spaced(ks)) == Kept(ks)
  {
    if ks != [] {
      LeadingSpace(ks[0]);
      KeptSpaced(ks[1..]);
      assert Spaced(ks)[1..] == Spaced(ks[1..]);
      hide Rewrite;
    }
  }

  /** Splitting what was joined gives the declarations back, up to white space. */
  lemma KeptAgain(ks: seq<string>)
    requires Plain(ks)
    ensures Kept(Split(Join(ks, "; "), ';')) == Kept(ks)
  {
    if ks == [] {
      SplitNone("", ';');
      assert Trim("") == "";
      assert Rewrite("").None?;
      assert [""][1..] == [];
    } else {
      SplitJoined(ks);
      KeptSpaced(ks[1..]);
      var ds := [ks[0]] + Spaced(ks[1..]);
      assert ds[1..] == Spaced(ks[1..]);
      hide Rewrite, Split, Join;
    }
  }

  /** A second look at one declaration. */
  lemma LookAgain(d: string)
    ensures Sneaky(d) ==> Rewrite(d).Some? && Rewrite(Rewrite(d).value).None?
    ensures !Sneaky(d) && Rewrite(d).Some? ==> Rewrite(Rewrite(d).value) == Rewrite(d)
  {
    if Rewrite(d).Some? { RewriteAgain(d); }
  }

  /** A second look at what was kept keeps it as it is, less the sneaky ones. */
  lemma {:induction false} SecondLook(ds: seq<string>)
    ensures Clean(Kept(Kept(ds))) && |Kept(Kept(ds))| <= |Kept(ds)|
    ensures (forall k :: 0 <= k < |ds| ==> !Sneaky(ds[k])) ==> Kept(Kept(ds)) == Kept(ds)
    ensures (exists k :: 0 <= k < |ds| && Sneaky(ds[k])) ==> |Kept(Kept(ds))| < |Kept(ds)|
  {
    hide Rewrite, Sneaky;
    if ds == [] {
      assert Kept([]) == [];
    } else {
      var d, rest := ds[0], ds[1..];
      SecondLook(rest);
      LookAgain(d);
      var again := Kept(Kept(rest));
      assert forall k :: 0 <= k < |rest| ==> rest[k] == ds[k + 1];
      assert forall k :: 1 <= k < |ds| ==> ds[k] == rest[k - 1];
      if Rewrite(d).Some? {
        assert Kept(ds) == [Rewrite(d).value] + Kept(rest) && Kept(ds)[1..] == Kept(rest);
        assert Kept(Kept(ds)) == if Sneaky(d) then [] + again else [Rewrite(d).value] + again;
      } else {
        assert Kept(ds) == [] + Kept(rest) == Kept(rest);
      }
      assert [] + again == again;
      hide Kept;
    }
  }

  lemma {:induction false} CleanStays(ks: seq<string>)
    requires Clean(ks)
    ensures Kept(ks) == ks
  {
    if ks != [] {
      CleanStays(ks[1..]);
      assert ks == [ks[0]] + ks[1..];
      hide Rewrite;
    }
  }

  /** Each pass looks at the declarations the pass before it kept. */
  lemma Passes2(value: string)
    ensures CleanStyle(CleanStyle(value)) == Join(Kept(Kept(Split(value, ';'))), "; ")
    ensures Plain(Kept(Split(value, ';'))) && Plain(Kept(Kept(Split(value, ';'))))
  {
    SplitFree(value, ';');
    KeptPlain(Split(value, ';'));
    KeptAgain(Kept(Split(value, ';')));
    KeptPlain(Kept(Split(value, ';')));
    hide Kept, Split, Join;
  }

  /** The fixpoint is reached after two passes, on every string. */
  lemma TwoPassesSuffice(value: string)
    ensures CleanStyle(CleanStyle(CleanStyle(value))) == CleanStyle(CleanStyle(value))
  {
    Passes2(value);
    SecondLook(Split(value, ';'));
    var ks := Kept(Kept(Split(value, ';')));
    CleanStays(ks);
    KeptAgain(ks);
    hide Kept, Split, Join, Clean, Plain;
  }

  /** Joining lists of different lengths of declarations gives different attributes. */
  lemma JoinTells(a: seq<string>, b: seq<string>)
    requires Plain(a) && Plain(b) && |a| < |b| && forall k :: 0 <= k < |b| ==> b[k] != ""
    ensures Join(a, "; ") != Join(b, "; ")
  {
    SplitJoined(b);
    SpacedSize(b[1..]);
    if a == [] {
      SplitNone("", ';');
      JoinFull(b);
    } else {
      SplitJoined(a);
      SpacedSize(a[1..]);
    }
    hide Split, Join, Spaced;
  }

  lemma JoinFull(b: seq<string>)
    requires b != [] && b[0] != ""
    ensures Join(b, "; ") != ""
  {
  }

  lemma {:induction false} SpacedSize(ks: seq<string>)
    ensures |Spaced(ks)| == |ks|
  {
    if ks != [] { SpacedSize(ks[1..]); }
  }

  lemma {:induction false} KeptFull(ds: seq<string>)
    ensures forall k :: 0 <= k < |Kept(ds)| ==> Kept(ds)[k] != ""
  {
    if ds != [] {
      KeptFull(ds[1..]);
      assert Rewrite(ds[0]).Some? ==> Rewrite(ds[0]).value != "";
      hide Rewrite;
    }
  }

  /** One pass is enough exactly when no declaration is sneaky. */
  lemma OnePassSuffices(value: string)
    ensures CleanStyle(CleanStyle(value)) == CleanStyle(value) <==> !SneakyScript(value)
  {
    Passes2(value);
    var ds := Split(value, ';');
    SecondLook(ds);
    KeptFull(ds);
    if SneakyScript(value) { JoinTells(Kept(Kept(ds)), Kept(ds)); }
    hide Kept, Split, Join, Clean, Plain, Sneaky;
  }

  /** A concrete attribute that one pass lets through and the second drops. */
  lemma OnePassIsNotEnough()
    ensures SneakyScript("javascript : x")
  {
    hide Blocked, Loads, EscapesBox, IsSpace, Trim, Find, Split;
    var d := "javascript : x";
    assert ';' !in d && Trimmed(d) && Trimmed("javascript") && Blank(" ") by { ExampleShape(); }
    SplitNone(d, ';');
    TrimTrimmed(d);
    FindFirst("javascript ", ':', " x");
    assert "javascript " + [':'] + " x" == d && d[..11] == "javascript ";
    TrimUnique("", "javascript", " ");
    assert "" + "javascript" + " " == "javascript ";
    assert Property(d) == "javascript";
    NothingFound(d);
    assert "javascript"[0..] == "javascript" && EndsInScript("javascript");
    assert !EscapesBox("javascript") by { NotABox(); }
    assert Sneaky(d);
    assert Split(d, ';')[0] == d;
  }

  lemma ExampleShape()
    ensures ';' !in "javascript : x" && Trimmed("javascript : x") && Trimmed("javascript") && Blank(" ") && Blank("")
  {
  }

  lemma NotABox()
    ensures !EscapesBox("javascript")
  {
  }

  /** What every declaration of a twice-cleaned attribute is like. */
  lemma TwiceCleanIsSafe(value: string, k: nat)
    requires k < |Split(CleanStyle(CleanStyle(value)), ';')| && CleanStyle(CleanStyle(value)) != ""
    ensures Passes(Trim(Split(CleanStyle(CleanStyle(value)), ';')[k]))
  {
    Passes2(value);
    SecondLook(Split(value, ';'));
    var ks := Kept(Kept(Split(value, ';')));
    assert ks != [] by { assert Join([], "; ") == ""; }
    SplitJoined(ks);
    var parts := Split(Join(ks, "; "), ';');
    SpacedAt(ks[1..]);
    SpacedSize(ks[1..]);
    assert parts[k] == if k == 0 then ks[0] else " " + ks[k];
    assert Rewrite(ks[k]) == Some(ks[k]);
    LeadingSpace(ks[k]);
    hide Kept, Split, Join, Clean, Plain, Passes;
    assert Rewrite(parts[k]).Some?;
  }

  lemma {:induction false} SpacedAt(ks: seq<string>)
    ensures |Spaced(ks)| == |ks| && forall k :: 0 <= k < |ks| ==> Spaced(ks)[k] == " " + ks[k]
  {
    if ks != [] { SpacedAt(ks[1..]); }
  }

  predicate Lacks(t: string, c: char) { forall k :: 0 <= k < |t| ==> Fold(t[k]) != c }

  ghost predicate Begins(r: string -> bool, c: char) { forall m: string :: r(m) ==> m != "" && Fold(m[0]) == c }

  lemma SpotBegins(t: string, r: string -> bool, c: char, i: nat, j: nat)
    requires Begins(r, c) && i <= |t| && j <= |t| && Spot(t, r, i, j)
    ensures i < |t| && Fold(t[i]) == c
  {
    assert t[i..j] != "" && t[i..j][0] == t[i];
  }

  /** Without its first character a pattern cannot match. */
  lemma NotFound(t: string, r: string -> bool, c: char)
    requires Begins(r, c) && Lacks(t, c)
    ensures !Found(t, r)
  {
    hide Begins;
    forall i: nat, j: nat | i <= |t| && j <= |t| ensures !Spot(t, r, i, j) {
      if Spot(t, r, i, j) {
        SpotBegins(t, r, c, i, j);
        assert false;
      }
    }
  }

  lemma NothingFound(t: string)
    requires t == "javascript : x"
    ensures !Blocked(t) && !Loads(t)
  {
    hide IsExpression, IsBehavior, IsMozBinding, IsImport, IsUrl, IsJavascript, Begins, Lacks, Found;
    Letters(t);
    FirstLetters();
    NotFound(t, IsExpression, 'e');
    NotFound(t, IsBehavior, 'b');
    NotFound(t, IsMozBinding, '-');
    NotFound(t, IsImport, '@');
    NotFound(t, IsUrl, 'u');
    NoScript(t);
  }

  lemma NoScript(t: string)
    requires t == "javascript : x"
    ensures !Found(t, IsJavascript)
  {
    hide IsJavascript;
    Letters(t);
    assert t[10] == ' ';
    forall i: nat, j: nat | i <= |t| && j <= |t| ensures !Spot(t, IsJavascript, i, j) {
      if Spot(t, IsJavascript, i, j) { ScriptAt(t, i, j); assert false; }
    }
  }

  lemma Letters(t: string)
    requires t == "javascript : x"
    ensures Lacks(t, 'e') && Lacks(t, 'b') && Lacks(t, '-') && Lacks(t, '@') && Lacks(t, 'u')
    ensures |t| == 14 && forall k :: 0 <= k < |t| && k != 11 ==> Fold(t[k]) != ':'
  {
    assert t == ['j', 'a', 'v', 'a', 's', 'c', 'r', 'i', 'p', 't', ' ', ':', ' ', 'x'];
    forall k | 0 <= k < |t| ensures Fold(t[k]) !in {'e', 'b', '-', '@', 'u'} && (k != 11 ==> Fold(t[k]) != ':') { }
  }

  lemma FirstLetters()
    ensures Begins(IsExpression, 'e') && Begins(IsBehavior, 'b') && Begins(IsMozBinding, '-') && Begins(IsImport, '@')
    ensures Begins(IsUrl, 'u')
  {
    assert "expression"[0] == 'e' && "behavior"[0] == 'b' && "-moz-binding"[0] == '-' && "@import"[0] == '@'
           && "url("[0] == 'u';
    forall m: string | IsExpression(m) ensures m != "" && Fold(m[0]) == 'e' { assert m[..10][0] == m[0]; }
    forall m: string | IsBehavior(m) ensures m != "" && Fold(m[0]) == 'b' { assert m[..8][0] == m[0]; }
  }

  lemma ScriptAt(t: string, i: nat, j: nat)
    requires Spot(t, IsJavascript, i, j)
    ensures i + 10 < |t| && Fold(t[i + 9]) == 't' && Fold(t[i + 10]) == ':'
  {
    var m := t[i..j];
    assert m[9] == t[i + 9] && m[10] == t[i + 10];
    assert "javascript:"[9] == 't' && "javascript:"[10] == ':';
  }

  /** An address begins at `i`, and it is a data: one. */
  predicate UrlAt(t: string, i: nat) { i + 4 <= |t| && IsUrl(t[i..i + 4]) }

  ghost predicate DataUrlAt(t: string, i: nat) { exists j: nat :: Spot(t, IsDataUrl, i, j) }

  /**
   * What the rewriter's comment promises, and when it keeps it: a kept declaration with one
   * address has a data: one.
   */
  lemma OneAddressIsData(t: string)
    requires Passes(t) && forall i: nat, j: nat :: UrlAt(t, i) && UrlAt(t, j) ==> i == j
    ensures forall i: nat :: UrlAt(t, i) ==> DataUrlAt(t, i)
  {
    hide Blocked, EscapesBox, Find, Property;
    forall i: nat | UrlAt(t, i) ensures DataUrlAt(t, i) {
      assert Spot(t, IsUrl, i, i + 4);
      assert Found(t, IsUrl);
      var k: nat, j: nat :| Spot(t, IsDataUrl, k, j);
      DataUrlIsUrl(t, k, j);
    }
  }

  lemma DataUrlIsUrl(t: string, i: nat, j: nat)
    requires Spot(t, IsDataUrl, i, j)
    ensures UrlAt(t, i)
  {
    assert t[i..j][..4] == t[i..i + 4];
  }

  /**
   * And when it does not: behind one data: address anything rides along, another address
   * included, that is not blocked for a reason of its own.
   */
  lemma TailRidesAlong(t: string, tail: string)
    requires Passes(t) && Found(t, IsDataUrl) && !Blocked(t + tail)
    ensures Passes(t + tail)
    ensures forall i: nat :: UrlAt(tail, i) ==> UrlAt(t + tail, |t| + i)
  {
    hide Blocked, EscapesBox, IsUrl, IsDataUrl, Trim;
    FoundWithin("", t, tail, IsDataUrl);
    assert "" + t + tail == t + tail;
    var c := Find(t, ':');
    FindFirst(t[..c], ':', t[c + 1..] + tail);
    assert t == t[..c] + [':'] + t[c + 1..];
    assert t + tail == t[..c] + [':'] + (t[c + 1..] + tail);
    assert (t + tail)[..c] == t[..c];
    forall i: nat | UrlAt(tail, i) ensures UrlAt(t + tail, |t| + i) {
      assert (t + tail)[|t| + i..|t| + i + 4] == tail[i..i + 4];
    }
    hide Find, Found;
  }

  const HEAD: string := "x: url(data:)"
  const TAIL: string := " url(y)"

  /** An instance: a declaration is kept for its data: address although another one is not. */
  lemma OneDataUrlIsEnough()
    ensures Passes(HEAD + TAIL) && Found(TAIL, IsUrl) && !Found(TAIL, IsDataUrl)
  {
    hide IsExpression, IsBehavior, IsMozBinding, IsImport, IsJavascript, Begins, Lacks, IsUrl, IsDataUrl, Trim, Found,
         Find, EscapesBox, Trimmed;
    var t := HEAD + TAIL;
    MixedLetters();
    FirstLetters();
    ScriptBegins();
    NotFound(t, IsExpression, 'e');
    NotFound(t, IsBehavior, 'b');
    NotFound(t, IsMozBinding, '-');
    NotFound(t, IsImport, '@');
    NotFound(t, IsJavascript, 'j');
    MixedHead();
    MixedTail();
    FoundWithin("", HEAD, TAIL, IsDataUrl);
    assert "" + HEAD + TAIL == t;
    MixedProperty();
  }

  lemma MixedProperty()
    ensures Find(HEAD + TAIL, ':') == 1 && !EscapesBox(Property(HEAD + TAIL))
  {
    hide Trim, Find;
    var rest := " url(data:)" + TAIL;
    FindFirst("x", ':', rest);
    assert "x" + [':'] + rest == HEAD + TAIL;
    assert (HEAD + TAIL)[..1] == "x";
    TrimTrimmed("x");
  }

  lemma ScriptBegins()
    ensures Begins(IsJavascript, 'j')
  {
    assert "javascript:"[0] == 'j';
  }

  lemma LacksBoth(a: string, b: string, c: char)
    requires Lacks(a, c) && Lacks(b, c)
    ensures Lacks(a + b, c)
  {
  }

  lemma MixedLetters()
    ensures var t := HEAD + TAIL; Lacks(t, 'e') && Lacks(t, 'b') && Lacks(t, '-') && Lacks(t, '@') && Lacks(t, 'j')
  {
    HeadLetters();
    TailLetters();
    hide Lacks;
    LacksBoth(HEAD, TAIL, 'e');
    LacksBoth(HEAD, TAIL, 'b');
    LacksBoth(HEAD, TAIL, '-');
    LacksBoth(HEAD, TAIL, '@');
    LacksBoth(HEAD, TAIL, 'j');
  }

  lemma HeadLetters()
    ensures Lacks(HEAD, 'e') && Lacks(HEAD, 'b') && Lacks(HEAD, '-') && Lacks(HEAD, '@') && Lacks(HEAD, 'j')
  {
    assert HEAD == ['x', ':', ' ', 'u', 'r', 'l', '(', 'd', 'a', 't', 'a', ':', ')'];
  }

  lemma TailLetters()
    ensures Lacks(TAIL, 'e') && Lacks(TAIL, 'b') && Lacks(TAIL, '-') && Lacks(TAIL, '@') && Lacks(TAIL, 'j')
  {
    assert TAIL == [' ', 'u', 'r', 'l', '(', 'y', ')'];
  }

  lemma MixedHead()
    ensures Found(HEAD, IsDataUrl)
  {
    var d := "url(data:";
    assert d[..4] == "url(" && d[4..] == "data:" && d[4..4] == "";
    assert IsDataUrl(d);
    hide IsDataUrl;
    Whole(d, IsDataUrl);
    FoundWithin("x: ", d, ")", IsDataUrl);
    assert "x: " + d + ")" == HEAD;
  }

  lemma MixedTail()
    ensures Found(TAIL, IsUrl) && !Found(TAIL, IsDataUrl)
  {
    var u := "url(";
    assert IsUrl(u);
    Whole(u, IsUrl);
    FoundWithin(" ", u, "y)", IsUrl);
    assert " " + u + "y)" == TAIL;
    forall i: nat, j: nat | i <= |TAIL| && j <= |TAIL| ensures !Spot(TAIL, IsDataUrl, i, j) { }
  }
}
