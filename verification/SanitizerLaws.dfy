/**
 * What cleaning makes of every attribute, said by name and without the sanitizer's own
 * vocabulary, both ways: what stays and what goes.
 */
module SanitizerLaws {
  import opened Basics
  import opened Strings
  import opened StyleCleaner
  import opened StyleLaws
  import opened Sanitizer

  // -------------------------------------------------------------------- links

  /** The address leads, once normalised, to this one, and its scheme is one of the four. */
  predicate LeadsTo(parse: UrlParser, h: string, u: string) {
    && h != "" && u != ""
    && var url := parse(Trim(h));
    && url.Some? && url.value.href == u
    && var scheme := url.value.protocol;
       scheme == "http:" || scheme == "https:" || scheme == "mailto:" || scheme == "tel:"
  }

  lemma SafeUrlIs(parse: UrlParser, value: Option<string>, u: string)
    ensures SafeUrl(parse, value) == Some(u) <==> value.Some? && LeadsTo(parse, value.value, u)
  {
    hide Trim;
  }

  /** The attributes of a link after the loop, and what is then done with them. */
  lemma LinkParts(parse: UrlParser, remote: bool, attrs: seq<Attr>)
    ensures var s := Sift("a", attrs); var href := SafeUrl(parse, Get(attrs, "href"));
      && Get(s, "target").None? && Get(s, "rel").None? && Get(s, "href") == Get(attrs, "href")
      && CleanAttrs(parse, remote, "a", attrs) ==
         if href.Some? then Changed(s, "href", href.value) + [TARGET] + [REL] else Without(s, "href")
  {
    ImgAllows();
    SiftForeign("a", attrs, "target");
    SiftForeign("a", attrs, "rel");
    SiftGet("a", attrs, "href");
    hide Sift, Allows, Get, SafeUrl;
    LinkIs(parse, Sift("a", attrs));
    hide LinkAttrs;
  }

  /**
   * A link keeps its address, normalised, exactly if it parses to one of the four schemes; then,
   * and only then, it opens in a tab of its own.
   */
  lemma LinksAre(parse: UrlParser, remote: bool, attrs: seq<Attr>, u: string)
    ensures var now := CleanAttrs(parse, remote, "a", attrs); var was := Get(attrs, "href");
      && (Get(now, "href") == Some(u) <==> was.Some? && LeadsTo(parse, was.value, u))
      && Get(now, "target") == (if Get(now, "href").Some? then Some("_blank") else None)
      && Get(now, "rel") == (if Get(now, "href").Some? then Some("noopener noreferrer") else None)
  {
    var s, href := Sift("a", attrs), SafeUrl(parse, Get(attrs, "href"));
    LinkParts(parse, remote, attrs);
    SafeUrlIs(parse, Get(attrs, "href"), u);
    hide Sift, Changed, Without, SafeUrl, LeadsTo, CleanAttrs;
    if href.Some? {
      ChangedGet(s, "href", href.value, "href");
      ChangedGet(s, "href", href.value, "target");
      ChangedGet(s, "href", href.value, "rel");
      LinkEnd(Changed(s, "href", href.value));
      SafeUrlIs(parse, Get(attrs, "href"), href.value);
    } else {
      WithoutGet(s, "href", "href");
      WithoutGet(s, "href", "target");
      WithoutGet(s, "href", "rel");
    }
  }

  // ------------------------------------------------------------------- images

  /** An embedded image: data:image/ in any case, a type, then a semicolon or a comma. */
  ghost predicate ImageData(v: string) { exists p, t, rest :: ImageParts(Trim(v), p, t, rest) }

  predicate ImageParts(v: string, p: string, t: string, rest: string) {
    && v == p + t + rest && AnyCase(p, "data:image/") && t != "" && MimeType(t)
    && rest != "" && (rest[0] == ';' || rest[0] == ',')
  }

  predicate MimeType(t: string) { forall k :: 0 <= k < |t| ==> MimeChar(t[k]) }

  predicate MimeChar(c: char) {
    'a' <= c <= 'z' || 'A' <= c <= 'Z' || '0' <= c <= '9' || c == '.' || c == '+' || c == '-'
  }

  lemma TypeIs(t: string)
    ensures AllTypeChars(t) <==> MimeType(t)
  {
    forall c: char ensures IsTypeChar(c) <==> MimeChar(c) { }
  }

  lemma DataImageIs(v: string)
    ensures IsDataImage(v) <==> ImageData(v)
  {
    var s := Trim(v);
    hide Trim, MimeType, AllTypeChars, Same, AnyCase;
    if IsDataImage(v) {
      var k :| 12 <= k < |s| && (s[k] == ';' || s[k] == ',') && AllTypeChars(s[11..k]);
      SameWord(s[..11], "data:image/");
      TypeIs(s[11..k]);
      assert s == s[..11] + s[11..k] + s[k..];
      assert ImageParts(s, s[..11], s[11..k], s[k..]);
    }
    if ImageData(v) {
      var p, t, rest :| ImageParts(s, p, t, rest);
      SameWord(p, "data:image/");
      TypeIs(t);
      AnyCaseSize(p, "data:image/");
      assert s[..11] == p && s[11..11 + |t|] == t && s[11 + |t|] == rest[0];
    }
  }

  lemma AnyCaseSize(m: string, word: string)
    requires AnyCase(m, word)
    ensures |m| == |word|
  {
  }

  /** An address that could be fetched. */
  predicate HttpAddress(parse: UrlParser, v: string) {
    parse(Trim(v)).Some? && (parse(Trim(v)).value.protocol == "http:" || parse(Trim(v)).value.protocol == "https:")
  }

  predicate Number(v: string) { v != "" && forall k :: 0 <= k < |v| ==> '0' <= v[k] <= '9' }

  lemma ImageGet(parse: UrlParser, remote: bool, attrs: seq<Attr>, name: string)
    ensures var bad := (v: string) => !SourceOk(parse, remote, v);
      Get(ImageAttrs(parse, remote, attrs), name) ==
        if name == "src" then Get(DropIf(attrs, "src", bad), "src")
        else if name == "width" || name == "height" then Get(DropIf(attrs, name, BadSize), name)
        else Get(attrs, name)
  {
    var bad := (v: string) => !SourceOk(parse, remote, v);
    ImageIsDrops(parse, remote, attrs);
    var a := DropIf(attrs, "src", bad);
    var b := DropIf(a, "width", BadSize);
    var other := if name == "src" then "width" else "src";
    DropOther(attrs, "src", bad, name);
    DropOther(a, "width", BadSize, name);
    DropOther(b, "height", BadSize, name);
    DropSame(attrs, a, "width");
    DropSame(b, a, "height");
    DropSame(a, attrs, "height");
    hide DropIf, Get, SourceOk, ImageAttrs, Trim, Digits;
  }

  lemma DropOther(attrs: seq<Attr>, name: string, bad: string -> bool, other: string)
    ensures other != name ==> Get(DropIf(attrs, name, bad), other) == Get(attrs, other)
  {
    if other != name { DropGet(attrs, name, bad, other); }
    hide DropIf, Get;
  }

  /** What is dropped of one name depends on the attribute of that name alone. */
  lemma DropSame(a: seq<Attr>, b: seq<Attr>, name: string)
    ensures Get(a, name) == Get(b, name) ==> Get(DropIf(a, name, BadSize), name) == Get(DropIf(b, name, BadSize), name)
  {
    var other := name + "x";
    DropGet(a, name, BadSize, other);
    DropGet(b, name, BadSize, other);
    hide DropIf, Get, Digits, Trim;
  }

  /**
   * An image keeps its source exactly if that is embedded, or may be fetched; its sizes exactly
   * if they are numbers.
   */
  lemma ImagesAre(parse: UrlParser, remote: bool, attrs: seq<Attr>, v: string)
    ensures var now := CleanAttrs(parse, remote, "img", attrs);
      && (Get(now, "src") == Some(v) <==>
          Get(attrs, "src") == Some(v) && (ImageData(v) || (remote && HttpAddress(parse, v))))
      && (Get(now, "width") == Some(v) <==> Get(attrs, "width") == Some(v) && Number(Trim(v)))
      && (Get(now, "height") == Some(v) <==> Get(attrs, "height") == Some(v) && Number(Trim(v)))
  {
    ImgAllows();
    DataImageIs(v);
    var s := Sift("img", attrs);
    SourceLeft(parse, remote, attrs);
    SiftGet("img", attrs, "width");
    SiftGet("img", attrs, "height");
    ImageGet(parse, remote, s, "width");
    ImageGet(parse, remote, s, "height");
    DropGet(s, "width", BadSize, "src");
    DropGet(s, "height", BadSize, "src");
    hide Sift, DropIf, ImageAttrs, Get, Allows, IsDataImage, ImageData, Trim;
  }

  // --------------------------------------------------- every other attribute

  predicate Distinct(attrs: seq<Attr>) { forall i, j :: 0 <= i < j < |attrs| ==> attrs[i].name != attrs[j].name }

  lemma {:induction false} GetNone(attrs: seq<Attr>, name: string)
    ensures Get(attrs, name).None? <==> forall k :: 0 <= k < |attrs| ==> attrs[k].name != name
  {
    if attrs != [] {
      GetNone(attrs[1..], name);
      assert forall k :: 0 <= k < |attrs[1..]| ==> attrs[1..][k] == attrs[k + 1];
      assert forall k :: 1 <= k < |attrs| ==> attrs[k] == attrs[1..][k - 1];
    }
  }

  lemma {:induction false} SiftStyle(tag: string, attrs: seq<Attr>)
    requires Distinct(attrs)
    ensures Get(Sift(tag, attrs), "style") ==
            var was := Get(attrs, "style");
            if was.Some? && CleanStyle(was.value) != "" then Some(CleanStyle(was.value)) else None
  {
    hide CleanStyle;
    if attrs != [] {
      var a, rest := attrs[0], attrs[1..];
      SiftStyle(tag, rest);
      GetConcat(Sift1(tag, a), Sift(tag, rest), "style");
      GetNone(rest, "style");
      assert forall k :: 0 <= k < |rest| ==> rest[k] == attrs[k + 1];
      SiftOneStyle(tag, a);
      hide Sift, Sift1, Get;
      assert Get(attrs, "style") == if a.name == "style" then Some(a.value) else Get(rest, "style") by {
        GetHead(attrs);
      }
      assert Sift(tag, attrs) == Sift1(tag, a) + Sift(tag, rest) by { SiftHead(tag, attrs); }
    }
  }

  lemma GetHead(attrs: seq<Attr>)
    requires attrs != []
    ensures Get(attrs, "style") == if attrs[0].name == "style" then Some(attrs[0].value) else Get(attrs[1..], "style")
  {
  }

  lemma SiftHead(tag: string, attrs: seq<Attr>)
    requires attrs != []
    ensures Sift(tag, attrs) == Sift1(tag, attrs[0]) + Sift(tag, attrs[1..])
  {
    hide Sift1;
  }

  lemma SiftOneStyle(tag: string, a: Attr)
    ensures Get(Sift1(tag, a), "style") ==
            if a.name == "style" && CleanStyle(a.value) != "" then Some(CleanStyle(a.value)) else None
  {
    hide CleanStyle;
    if Sift1(tag, a) != [] {
      assert Sift1(tag, a) == [Sift1(tag, a)[0]];
      GetOne(Sift1(tag, a)[0], "style");
    }
  }

  /**
   * Every other attribute: a style stays as the rewriter leaves it, if it leaves anything; what is
   * allowed on the element stays as it is; and nothing else stays.
   */
  lemma OthersAre(parse: UrlParser, remote: bool, tag: string, attrs: seq<Attr>, name: string)
    requires Distinct(attrs)
    requires tag == "a" ==> name != "href" && name != "target" && name != "rel"
    requires tag == "img" ==> name != "src" && name != "width" && name != "height"
    ensures Get(CleanAttrs(parse, remote, tag, attrs), name) ==
            var was := Get(attrs, name);
            if name == "style" then if was.Some? && CleanStyle(was.value) != "" then Some(CleanStyle(was.value))
              else None
            else if Allows(tag, name) then was
            else None
  {
    var s := Sift(tag, attrs);
    if name == "style" {
      SiftStyle(tag, attrs);
    } else if Allows(tag, name) {
      SiftGet(tag, attrs, name);
    } else {
      SiftForeign(tag, attrs, name);
    }
    hide CleanStyle, Allows, Distinct;
    if tag == "a" {
      var href := SafeUrl(parse, Get(attrs, "href"));
      LinkParts(parse, remote, attrs);
      hide Sift, CleanAttrs, Changed, Without, Get, SafeUrl;
      if href.Some? {
        ChangedGet(s, "href", href.value, name);
        GetConcat(Changed(s, "href", href.value), [TARGET], name);
        GetConcat(Changed(s, "href", href.value) + [TARGET], [REL], name);
        GetOne(TARGET, name);
        GetOne(REL, name);
      } else {
        WithoutGet(s, "href", name);
      }
    } else if tag == "img" {
      ImageGet(parse, remote, s, name);
      hide Sift, Get, ImageAttrs;
    }
  }

  // -------------------------------------------------------------------- order

  function Names(attrs: seq<Attr>): seq<string> { seq(|attrs|, k requires 0 <= k < |attrs| => attrs[k].name) }

  lemma NamesConcat(a: seq<Attr>, b: seq<Attr>)
    ensures Names(a + b) == Names(a) + Names(b)
  {
  }

  lemma {:induction false} SubseqFront<T>(front: seq<T>, a: seq<T>, b: seq<T>)
    requires IsSubseq(a, b)
    ensures IsSubseq(front + a, front + b) && IsSubseq(a, front + b)
    decreases |b|
  {
    if b == [] {
      assert front + a == front && front + b == front;
      SubseqSame(front);
    } else {
      var b' := b[..|b| - 1];
      assert (front + b)[..|front + b| - 1] == front + b';
      if a == [] {
        SubseqFront(front, a, b');
      } else if a[|a| - 1] == b[|b| - 1] && IsSubseq(a[..|a| - 1], b') {
        SubseqFront(front, a[..|a| - 1], b');
        assert (front + a)[..|front + a| - 1] == front + a[..|a| - 1];
      } else {
        SubseqFront(front, a, b');
      }
    }
  }

  lemma {:induction false} SubseqSame<T>(a: seq<T>)
    ensures IsSubseq(a, a)
  {
    if a != [] { SubseqSame(a[..|a| - 1]); }
  }

  lemma {:induction false} SubseqTrans<T>(a: seq<T>, b: seq<T>, c: seq<T>)
    requires IsSubseq(a, b) && IsSubseq(b, c)
    ensures IsSubseq(a, c)
    decreases |c|
  {
    if a != [] {
      var a', b', c' := a[..|a| - 1], b[..|b| - 1], c[..|c| - 1];
      if b[|b| - 1] == c[|c| - 1] && IsSubseq(b', c') {
        if a[|a| - 1] == b[|b| - 1] && IsSubseq(a', b') {
          SubseqTrans(a', b', c');
        } else {
          SubseqTrans(a, b', c');
        }
      } else {
        SubseqTrans(a, b, c');
      }
    }
  }

  lemma {:induction false} SiftNames(tag: string, attrs: seq<Attr>)
    ensures IsSubseq(Names(Sift(tag, attrs)), Names(attrs))
  {
    hide CleanStyle, Allows;
    if attrs != [] {
      var head, rest := Sift1(tag, attrs[0]), attrs[1..];
      SiftNames(tag, rest);
      NamesConcat(head, Sift(tag, rest));
      NamesConcat([attrs[0]], rest);
      assert attrs == [attrs[0]] + rest;
      SubseqFront(Names([attrs[0]]), Names(Sift(tag, rest)), Names(rest));
      assert Names(head) == Names([attrs[0]]) || Names(head) == [];
      assert [] + Names(Sift(tag, rest)) == Names(Sift(tag, rest));
      hide Names, IsSubseq, Sift1;
    }
  }

  lemma {:induction false} WithoutNames(attrs: seq<Attr>, name: string)
    ensures IsSubseq(Names(Without(attrs, name)), Names(attrs))
  {
    if attrs != [] {
      var head, rest := if attrs[0].name == name then [] else [attrs[0]], attrs[1..];
      WithoutNames(rest, name);
      NamesConcat(head, Without(rest, name));
      NamesConcat([attrs[0]], rest);
      assert attrs == [attrs[0]] + rest;
      SubseqFront(Names([attrs[0]]), Names(Without(rest, name)), Names(rest));
      assert Names(head) == Names([attrs[0]]) || Names(head) == [];
      assert [] + Names(Without(rest, name)) == Names(Without(rest, name));
      hide Names, IsSubseq;
    }
  }

  lemma {:induction false} ChangedNames(attrs: seq<Attr>, name: string, value: string)
    ensures Names(Changed(attrs, name, value)) == Names(attrs)
  {
    if attrs != [] {
      ChangedNames(attrs[1..], name, value);
      var c := Changed(attrs, name, value);
      NamesConcat([c[0]], c[1..]);
      NamesConcat([attrs[0]], attrs[1..]);
      assert c[1..] == Changed(attrs[1..], name, value);
      assert c == [c[0]] + c[1..] && attrs == [attrs[0]] + attrs[1..];
    }
  }

  lemma DropNames(attrs: seq<Attr>, name: string, bad: string -> bool)
    ensures IsSubseq(Names(DropIf(attrs, name, bad)), Names(attrs))
  {
    WithoutNames(attrs, name);
    SubseqSame(Names(attrs));
    hide Names, Without, Get, IsSubseq;
  }

  lemma ImageNames(parse: UrlParser, remote: bool, attrs: seq<Attr>)
    ensures IsSubseq(Names(ImageAttrs(parse, remote, attrs)), Names(attrs))
  {
    hide DropIf, Names, IsSubseq, ImageAttrs;
    var bad := (v: string) => !SourceOk(parse, remote, v);
    ImageIsDrops(parse, remote, attrs);
    var a := DropIf(attrs, "src", bad);
    var b := DropIf(a, "width", BadSize);
    var c := DropIf(b, "height", BadSize);
    DropNames(attrs, "src", bad);
    DropNames(a, "width", BadSize);
    DropNames(b, "height", BadSize);
    SubseqTrans(Names(b), Names(a), Names(attrs));
    SubseqTrans(Names(c), Names(b), Names(attrs));
  }

  /** What stays keeps its place; a link's target and relation come last. */
  lemma AttributesInOrder(parse: UrlParser, remote: bool, tag: string, attrs: seq<Attr>) returns (kept: seq<Attr>)
    ensures IsSubseq(Names(kept), Names(attrs))
    ensures CleanAttrs(parse, remote, tag, attrs) ==
            kept + if tag == "a" && SafeUrl(parse, Get(attrs, "href")).Some? then [TARGET, REL] else []
  {
    var s := Sift(tag, attrs);
    SiftNames(tag, attrs);
    kept := s;
    if tag == "a" {
      LinkParts(parse, remote, attrs);
      var href := SafeUrl(parse, Get(attrs, "href"));
      hide Sift, CleanAttrs, Names, IsSubseq, SafeUrl, Get, Changed, Without;
      if href.Some? {
        kept := Changed(s, "href", href.value);
        ChangedNames(s, "href", href.value);
        assert kept + [TARGET] + [REL] == kept + [TARGET, REL];
      } else {
        kept := Without(s, "href");
        WithoutNames(s, "href");
        SubseqTrans(Names(kept), Names(s), Names(attrs));
        assert kept + [] == kept;
      }
    } else if tag == "img" {
      hide Sift, Names, IsSubseq, ImageAttrs;
      kept := ImageAttrs(parse, remote, s);
      ImageNames(parse, remote, s);
      SubseqTrans(Names(kept), Names(s), Names(attrs));
      assert kept + [] == kept;
    } else {
      assert kept + [] == kept;
    }
  }

  // ------------------------------------------------------------ nothing runs

  /** No element that runs, loads or submits anything, no event handler, no class or id. */
  predicate Inert(n: Node) {
    n.Element? ==>
      && n.tag !in {"script", "style", "iframe", "frame", "object", "embed", "link", "meta", "base", "template"}
      && n.tag !in {"form", "input", "button", "select", "textarea", "svg", "math", "video", "audio", "canvas"}
      && (forall k :: 0 <= k < |n.attrs| ==> InertName(n.attrs[k].name))
      && forall k :: 0 <= k < |n.kids| ==> Inert(n.kids[k])
  }

  predicate InertName(name: string) {
    !("on" <= name) && name != "class" && name != "id" && name != "srcset" && name != "srcdoc" && name != "action"
  }

  lemma AllowedNames(tag: string, name: string)
    requires Allows(tag, name)
    ensures InertName(name)
  {
    assert name != "" && name[0] != 'o';
  }

  lemma DroppedTags(tag: string)
    requires tag !in DROP_SUBTREE
    ensures tag !in {"script", "style", "iframe", "frame", "object", "embed", "link", "meta", "base", "template"}
    ensures tag !in {"form", "input", "button", "select", "textarea", "svg", "math", "video", "audio", "canvas"}
  {
  }

  lemma SafeAreInert(tag: string, attrs: seq<Attr>)
    requires AllSafe(tag, attrs)
    ensures forall k :: 0 <= k < |attrs| ==> InertName(attrs[k].name)
  {
    hide Allows, InertName;
    forall k | 0 <= k < |attrs| ensures InertName(attrs[k].name) {
      assert SafeAttr(tag, attrs[k]);
      LinkNames();
      if attrs[k] != TARGET && attrs[k] != REL { AllowedNames(tag, attrs[k].name); }
    }
  }

  lemma LinkNames()
    ensures InertName(TARGET.name) && InertName(REL.name)
  {
    assert TARGET.name[0] == 't' && REL.name[0] == 'r';
  }

  lemma {:induction false} SafeIsInert(parse: UrlParser, remote: bool, n: Node)
    requires SafeNode(parse, remote, n)
    ensures Inert(n)
  {
    if n.Element? {
      DroppedTags(n.tag);
      hide SafeLink, SafeImage;
      SafeAreInert(n.tag, n.attrs);
      hide AllSafe, InertName;
      forall k | 0 <= k < |n.kids| ensures Inert(n.kids[k]) { SafeIsInert(parse, remote, n.kids[k]); }
    }
  }

  /** Whatever is cleaned, nothing in the result can run, load or restyle the page. */
  lemma NothingRuns(parse: UrlParser, remote: bool, ns: seq<Node>, k: nat)
    requires Stable(parse) && k < |CleanAll(parse, remote, ns)|
    ensures Inert(CleanAll(parse, remote, ns)[k])
  {
    CleanIsSafe(parse, remote, ns);
    hide CleanAll, SafeNode, Stable;
    SafeIsInert(parse, remote, CleanAll(parse, remote, ns)[k]);
  }
}
