/** The string operations of the browser that the sanitizer is written with. */
module Strings {

  /** White space as trim() and \s understand it. */
  predicate IsSpace(c: char) {
    || '\U{9}' <= c <= '\U{D}' || c == ' ' || c == '\U{A0}' || c == '\U{1680}' || '\U{2000}' <= c <= '\U{200A}'
    || c == '\U{2028}' || c == '\U{2029}' || c == '\U{202F}' || c == '\U{205F}' || c == '\U{3000}' || c == '\U{FEFF}'
  }

  predicate Blank(s: string) { forall k :: 0 <= k < |s| ==> IsSpace(s[k]) }

  predicate Trimmed(s: string) { s == "" || (!IsSpace(s[0]) && !IsSpace(s[|s| - 1])) }

  function TrimStart(s: string): string {
    if s != "" && IsSpace(s[0]) then TrimStart(s[1..]) else s
  }

  function TrimEnd(s: string): string {
    if s != "" && IsSpace(s[|s| - 1]) then TrimEnd(s[..|s| - 1]) else s
  }

  function Trim(s: string): string { TrimEnd(TrimStart(s)) }

  lemma {:induction false} StartSplits(s: string) returns (w: string)
    ensures s == w + TrimStart(s) && Blank(w) && (TrimStart(s) == "" || !IsSpace(TrimStart(s)[0]))
  {
    if s != "" && IsSpace(s[0]) {
      var rest := StartSplits(s[1..]);
      w := [s[0]] + rest;
      assert s == [s[0]] + s[1..];
      assert s == w + TrimStart(s);
    } else {
      w := "";
    }
  }

  lemma {:induction false} EndSplits(s: string) returns (w: string)
    ensures s == TrimEnd(s) + w && Blank(w) && (TrimEnd(s) == "" || !IsSpace(TrimEnd(s)[|TrimEnd(s)| - 1]))
  {
    if s != "" && IsSpace(s[|s| - 1]) {
      var rest := EndSplits(s[..|s| - 1]);
      w := rest + [s[|s| - 1]];
      assert s == s[..|s| - 1] + [s[|s| - 1]];
      assert s == TrimEnd(s) + w;
    } else {
      w := "";
    }
  }

  /** trim() takes white space off both ends and nothing else. */
  lemma TrimSplits(s: string) returns (front: string, back: string)
    ensures s == front + Trim(s) + back && Blank(front) && Blank(back) && Trimmed(Trim(s))
  {
    front := StartSplits(s);
    back := EndSplits(TrimStart(s));
    var t := Trim(s);
    assert TrimStart(s) == t + back;
    assert t != "" ==> t[0] == TrimStart(s)[0];
  }

  lemma {:induction false} StartSkips(w: string, t: string)
    requires Blank(w) && (t == "" || !IsSpace(t[0]))
    ensures TrimStart(w + t) == t
  {
    if w == "" {
      assert w + t == t;
    } else {
      assert (w + t)[1..] == w[1..] + t;
      StartSkips(w[1..], t);
    }
  }

  lemma {:induction false} EndSkips(t: string, w: string)
    requires Blank(w) && (t == "" || !IsSpace(t[|t| - 1]))
    ensures TrimEnd(t + w) == t
  {
    if w == "" {
      assert t + w == t;
    } else {
      assert (t + w)[..|t + w| - 1] == t + w[..|w| - 1];
      EndSkips(t, w[..|w| - 1]);
    }
  }

  /** Whatever white space surrounds a trimmed string, trim() gives that string back. */
  lemma TrimUnique(front: string, t: string, back: string)
    requires Blank(front) && Blank(back) && Trimmed(t)
    ensures Trim(front + t + back) == t
  {
    assert front + t + back == front + (t + back);
    if t == "" {
      var w := front + back;
      assert front + t + back == w && w == w + "";
      StartSkips(w, "");
    } else {
      StartSkips(front, t + back);
      EndSkips(t, back);
    }
  }

  lemma TrimTrimmed(t: string)
    requires Trimmed(t)
    ensures Trim(t) == t
  {
    TrimUnique("", t, "");
    assert "" + t + "" == t;
  }

  // ------------------------------------------------------------ split and join

  /** The position of the first `c`, or the length if there is none. */
  function Find(s: string, c: char): (i: nat)
    ensures i <= |s| && c !in s[..i] && (i < |s| ==> s[i] == c)
  {
    if s == "" || s[0] == c then 0
    else
      var i := 1 + Find(s[1..], c);
      assert s[..i] == [s[0]] + s[1..][..i - 1];
      i
  }

  lemma FindFirst(a: string, c: char, b: string)
    requires c !in a
    ensures Find(a + [c] + b, c) == |a|
  {
    var s := a + [c] + b;
    var i := Find(s, c);
    assert s[|a|] == c;
    assert forall k :: 0 <= k < |a| ==> s[k] == a[k] && a[k] in a;
    assert forall k :: 0 <= k < i ==> s[k] == s[..i][k] && s[k] in s[..i];
  }

  function Split(s: string, c: char): (parts: seq<string>)
    ensures parts != []
    decreases |s|
  {
    var i := Find(s, c);
    if i == |s| then [s] else [s[..i]] + Split(s[i + 1..], c)
  }

  function Join(parts: seq<string>, sep: string): string {
    if parts == [] then ""
    else if |parts| == 1 then parts[0]
    else parts[0] + sep + Join(parts[1..], sep)
  }

  lemma {:induction false} SplitFree(s: string, c: char)
    ensures forall k :: 0 <= k < |Split(s, c)| ==> c !in Split(s, c)[k]
    decreases |s|
  {
    var i := Find(s, c);
    if i < |s| {
      SplitFree(s[i + 1..], c);
    } else {
      assert s[..i] == s;
    }
  }

  lemma SplitOnce(a: string, c: char, b: string)
    requires c !in a
    ensures Split(a + [c] + b, c) == [a] + Split(b, c)
  {
    var s := a + [c] + b;
    FindFirst(a, c, b);
    assert s[..|a|] == a && s[|a| + 1..] == b;
  }

  lemma SplitNone(a: string, c: char)
    requires c !in a
    ensures Split(a, c) == [a]
  {
    assert forall k :: 0 <= k < |a| ==> a[k] in a;
  }

  /** Splitting the parts joined by "; " gives them back, all but the first after a space. */
  function Spaced(parts: seq<string>): seq<string> {
    if parts == [] then [] else [" " + parts[0]] + Spaced(parts[1..])
  }

  lemma {:induction false} SplitJoined(parts: seq<string>)
    requires parts != [] && forall k :: 0 <= k < |parts| ==> ';' !in parts[k]
    ensures Split(Join(parts, "; "), ';') == [parts[0]] + Spaced(parts[1..])
    ensures Split(" " + Join(parts, "; "), ';') == Spaced(parts)
    decreases |parts|
  {
    hide Split, Find;
    var p, rest := parts[0], parts[1..];
    if rest == [] {
      assert parts == [p];
      SplitNone(p, ';');
      SplitNone(" " + p, ';');
    } else {
      SplitJoined(rest);
      var tail := " " + Join(rest, "; ");
      assert Join(parts, "; ") == p + "; " + Join(rest, "; ");
      assert Spaced(parts) == [" " + p] + Spaced(rest);
      hide Join, Spaced;
      assert "; " == [';'] + " ";
      assert p + "; " + Join(rest, "; ") == p + [';'] + tail;
      SplitOnce(p, ';', tail);
      assert " " + (p + "; " + Join(rest, "; ")) == (" " + p) + [';'] + tail;
      SplitOnce(" " + p, ';', tail);
    }
  }

  // ----------------------------------------------------------------- patterns

  /** Case folding of /i: only ASCII letters have another case that matches them. */
  function Fold(c: char): char {
    if 'A' <= c <= 'Z' then c - 'A' + 'a' else c
  }

  /** `m` is `word`, which is in lower case, in any case. */
  predicate Same(m: string, word: string) {
    |m| == |word| && forall k :: 0 <= k < |m| ==> Fold(m[k]) == word[k]
  }

  /** A regular expression, given as the set of strings it matches, matches somewhere in `t`. */
  predicate Found(t: string, r: string -> bool) {
    exists i: nat, j: nat | i <= |t| && j <= |t| :: Spot(t, r, i, j)
  }

  predicate Spot(t: string, r: string -> bool, i: nat, j: nat) { i <= j <= |t| && r(t[i..j]) }

  lemma FoundWithin(x: string, t: string, y: string, r: string -> bool)
    requires Found(t, r)
    ensures Found(x + t + y, r)
  {
    var i: nat, j: nat :| i <= |t| && j <= |t| && Spot(t, r, i, j);
    assert (x + t + y)[|x| + i..|x| + j] == t[i..j];
    assert Spot(x + t + y, r, |x| + i, |x| + j);
  }

  /** Its matches begin and end with something other than white space. */
  ghost predicate Solid(r: string -> bool) { forall m: string :: r(m) ==> m != "" && Trimmed(m) }

  lemma FoundTrimmed(front: string, t: string, back: string, r: string -> bool)
    requires Found(front + t + back, r) && Blank(front) && Blank(back) && Solid(r)
    ensures Found(t, r)
  {
    var s := front + t + back;
    var i: nat, j: nat :| i <= |s| && j <= |s| && Spot(s, r, i, j);
    var m := s[i..j];
    assert m[0] == s[i] && m[|m| - 1] == s[j - 1];
    assert forall k :: 0 <= k < |front| ==> s[k] == front[k];
    assert forall k :: |front| + |t| <= k < |s| ==> s[k] == back[k - |front| - |t|];
    assert |front| <= i && j <= |front| + |t|;
    assert t[i - |front|..j - |front|] == m;
    assert Spot(t, r, i - |front|, j - |front|);
  }

  /** Its matches contain no colon. */
  ghost predicate ColonFree(r: string -> bool) { forall m: string :: r(m) ==> ':' !in m }

  /** Its matches contain a colon only as their last character. */
  ghost predicate ColonLast(r: string -> bool) {
    forall m: string :: r(m) ==> m != "" && m[|m| - 1] == ':' && ':' !in m[..|m| - 1]
  }

  lemma FoundOneSide(a: string, b: string, r: string -> bool)
    requires Found(a + ":" + b, r) && ColonFree(r)
    ensures Found(a, r) || Found(b, r)
  {
    var s := a + ":" + b;
    var i: nat, j: nat :| i <= |s| && j <= |s| && Spot(s, r, i, j);
    var m := s[i..j];
    if j <= |a| {
      assert a[i..j] == m;
      assert Spot(a, r, i, j);
    } else {
      assert s[|a|] == ':';
      assert forall k :: 0 <= k < |m| ==> m[k] == s[i + k] && m[k] in m;
      assert i > |a|;
      assert b[i - |a| - 1..j - |a| - 1] == m;
      assert Spot(b, r, i - |a| - 1, j - |a| - 1);
    }
  }

  /** A match that ends in a colon either ends in this one or lies beyond it. */
  lemma FoundAtColon(a: string, b: string, r: string -> bool) returns (i: nat)
    requires Found(a + ":" + b, r) && ColonLast(r) && ':' !in a
    ensures Found(b, r) || (i <= |a| && r(a[i..] + ":"))
  {
    var s := a + ":" + b;
    var k: nat, j: nat :| k <= |s| && j <= |s| && Spot(s, r, k, j);
    var m := s[k..j];
    i := k;
    assert s[|a|] == ':' && s[j - 1] == m[|m| - 1] == ':';
    assert forall x :: 0 <= x < |a| ==> s[x] == a[x] && a[x] in a;
    if k > |a| {
      assert b[k - |a| - 1..j - |a| - 1] == m;
      assert Spot(b, r, k - |a| - 1, j - |a| - 1);
    } else {
      forall y | k <= y < j - 1 ensures s[y] != ':' {
        assert m[..|m| - 1][y - k] == s[y];
      }
      assert j - 1 == |a|;
      assert m == a[k..] + ":";
    }
  }
}
