/**
 * The allowlist sanitizer as a function on trees. URL parsing is a parameter; attribute
 * names are distinct and in lower case, as the HTML parser leaves them.
 */
module Sanitizer {
  import opened Basics
  import opened Strings
  import opened StyleCleaner

  const ALLOWED_TAGS: set<string> := {
    "p", "br", "div", "span", "hr", "center", "font",
    "article", "section", "header", "footer", "main", "aside", "nav",
    "b", "strong", "i", "em", "u", "s", "strike", "del", "ins", "mark",
    "small", "sub", "sup", "abbr", "cite", "q", "time", "var",
    "h1", "h2", "h3", "h4", "h5", "h6",
    "ul", "ol", "li", "dl", "dt", "dd",
    "blockquote", "pre", "code", "kbd", "samp",
    "table", "thead", "tbody", "tfoot", "tr", "td", "th", "caption", "colgroup", "col",
    "a", "img", "figure", "figcaption"
  }

  const DROP_SUBTREE: set<string> := {
    "script", "style", "iframe", "frame", "frameset", "object", "embed", "applet",
    "link", "meta", "base", "title", "noscript", "template",
    "form", "input", "button", "select", "option", "optgroup", "textarea", "label",
    "fieldset", "legend", "svg", "math", "video", "audio", "source", "track",
    "canvas", "map", "area", "dialog", "slot", "portal"
  }

  const GLOBAL_ATTRS: set<string> := {"style", "title", "dir", "lang", "align", "valign"}

  const SAFE_LINK_SCHEMES: set<string> := {"http:", "https:", "mailto:", "tel:"}

  function TagAttrs(tag: string): set<string> {
    if tag == "a" then {"href"}
    else if tag == "img" then {"src", "alt", "width", "height"}
    else if tag == "td" then {"colspan", "rowspan", "headers"}
    else if tag == "th" then {"colspan", "rowspan", "scope"}
    else if tag == "col" || tag == "colgroup" then {"span"}
    else if tag == "ol" then {"start", "type", "reversed"}
    else if tag == "li" then {"value"}
    else if tag == "table" then {"border", "cellpadding", "cellspacing", "width"}
    else if tag == "time" then {"datetime"}
    else if tag == "q" || tag == "blockquote" then {"cite"}
    else if tag == "font" then {"color", "face", "size"}
    else {}
  }

  predicate Allows(tag: string, name: string) { name in GLOBAL_ATTRS || name in TagAttrs(tag) }

  datatype Attr = Attr(name: string, value: string)

  /** `Other` is any node that is neither text nor an element, such as a comment. */
  datatype Node = Text(data: string) | Other | Element(tag: string, attrs: seq<Attr>, kids: seq<Node>)

  datatype Url = Url(protocol: string, href: string)

  /** new URL(s): the parsed address, or nothing where the constructor throws. */
  type UrlParser = string -> Option<Url>

  /** The one thing asked of URL parsing: a normalised address parses to itself. */
  ghost predicate Stable(parse: UrlParser) {
    forall s: string :: parse(s).Some? ==> parse(Trim(parse(s).value.href)) == parse(s)
  }

  // -------------------------------------------------------------- attributes

  function Get(attrs: seq<Attr>, name: string): Option<string> {
    if attrs == [] then None
    else if attrs[0].name == name then Some(attrs[0].value)
    else Get(attrs[1..], name)
  }

  function Without(attrs: seq<Attr>, name: string): seq<Attr> {
    if attrs == [] then []
    else (if attrs[0].name == name then [] else [attrs[0]]) + Without(attrs[1..], name)
  }

  function Changed(attrs: seq<Attr>, name: string, value: string): seq<Attr> {
    if attrs == [] then []
    else [if attrs[0].name == name then Attr(name, value) else attrs[0]] + Changed(attrs[1..], name, value)
  }

  /** setAttribute: in place if there is one of that name, else at the end. */
  function With(attrs: seq<Attr>, name: string, value: string): seq<Attr> {
    if Get(attrs, name).Some? then Changed(attrs, name, value) else attrs + [Attr(name, value)]
  }

  /** What the loop over the attributes makes of one of them. */
  function Sift1(tag: string, a: Attr): seq<Attr> {
    if !Allows(tag, a.name) then []
    else if a.name == "style" then
      if CleanStyle(a.value) != "" then [Attr("style", CleanStyle(a.value))] else []
    else [a]
  }

  function Sift(tag: string, attrs: seq<Attr>): seq<Attr> {
    if attrs == [] then [] else Sift1(tag, attrs[0]) + Sift(tag, attrs[1..])
  }

  function SafeUrl(parse: UrlParser, value: Option<string>): Option<string> {
    if value.None? || value.value == "" then None
    else
      var url := parse(Trim(value.value));
      if url.Some? && url.value.protocol in SAFE_LINK_SCHEMES && url.value.href != "" then Some(url.value.href)
        else None
  }

  function LinkAttrs(parse: UrlParser, attrs: seq<Attr>): seq<Attr> {
    var href := SafeUrl(parse, Get(attrs, "href"));
    if href.None? then Without(attrs, "href")
    else With(With(With(attrs, "href", href.value), "target", "_blank"), "rel", "noopener noreferrer")
  }

  predicate IsHttpUrl(parse: UrlParser, value: string) {
    var url := parse(Trim(value));
    url.Some? && (url.value.protocol == "http:" || url.value.protocol == "https:")
  }

  predicate IsTypeChar(c: char) { 'a' <= Fold(c) <= 'z' || '0' <= c <= '9' || c == '.' || c == '+' || c == '-' }

  /** A data: image: a type of at least one character, then ; or , . */
  predicate IsDataImage(value: string) {
    var t := Trim(value);
    && |t| > 12 && Same(t[..11], "data:image/")
    && exists k | 12 <= k < |t| :: (t[k] == ';' || t[k] == ',') && AllTypeChars(t[11..k])
  }

  predicate AllTypeChars(s: string) { forall k :: 0 <= k < |s| ==> IsTypeChar(s[k]) }

  predicate Digits(s: string) { s != "" && forall k :: 0 <= k < |s| ==> '0' <= s[k] <= '9' }

  predicate SourceOk(parse: UrlParser, remote: bool, src: string) {
    IsDataImage(src) || (remote && IsHttpUrl(parse, src))
  }

  function DropBadSource(parse: UrlParser, remote: bool, attrs: seq<Attr>): seq<Attr> {
    var src := Get(attrs, "src");
    if src.Some? && SourceOk(parse, remote, src.value) then attrs else Without(attrs, "src")
  }

  function DropBadSize(attrs: seq<Attr>, dimension: string): seq<Attr> {
    var value := Get(attrs, dimension);
    if value.Some? && !Digits(Trim(value.value)) then Without(attrs, dimension) else attrs
  }

  function ImageAttrs(parse: UrlParser, remote: bool, attrs: seq<Attr>): seq<Attr> {
    DropBadSize(DropBadSize(DropBadSource(parse, remote, attrs), "width"), "height")
  }

  function CleanAttrs(parse: UrlParser, remote: bool, tag: string, attrs: seq<Attr>): seq<Attr> {
    var sifted := Sift(tag, attrs);
    if tag == "a" then LinkAttrs(parse, sifted)
    else if tag == "img" then ImageAttrs(parse, remote, sifted)
    else sifted
  }

  // -------------------------------------------------------------------- trees

  predicate Missing(attrs: seq<Attr>) { Get(attrs, "src") == None || Get(attrs, "src") == Some("") }

  /** What a node is replaced by: nothing, itself cleaned, or its children. */
  function CleanNode(parse: UrlParser, remote: bool, n: Node): seq<Node>
    decreases n, 0
  {
    match n
    case Text(_) => [n]
    case Other => []
    case Element(tag, attrs, kids) =>
      if tag in DROP_SUBTREE then []
      else
        var kept := CleanAll(parse, remote, kids);
        if tag !in ALLOWED_TAGS then kept
        else
          var attrs' := CleanAttrs(parse, remote, tag, attrs);
          if tag == "img" && Missing(attrs') then [] else [Element(tag, attrs', kept)]
  }

  function CleanAll(parse: UrlParser, remote: bool, ns: seq<Node>): seq<Node>
    decreases ns, 1
  {
    if ns == [] then [] else CleanNode(parse, remote, ns[0]) + CleanAll(parse, remote, ns[1..])
  }

  lemma {:induction false} CleanConcat(parse: UrlParser, remote: bool, a: seq<Node>, b: seq<Node>)
    ensures CleanAll(parse, remote, a + b) == CleanAll(parse, remote, a) + CleanAll(parse, remote, b)
  {
    hide CleanNode;
    if a == [] {
      assert a + b == b;
      assert CleanAll(parse, remote, a) == [];
    } else {
      var head := CleanNode(parse, remote, a[0]);
      CleanConcat(parse, remote, a[1..], b);
      assert (a + b)[1..] == a[1..] + b && (a + b)[0] == a[0];
      assert CleanAll(parse, remote, a + b) == head + CleanAll(parse, remote, a[1..] + b);
      assert CleanAll(parse, remote, a) == head + CleanAll(parse, remote, a[1..]);
      hide CleanAll;
      assert head + (CleanAll(parse, remote, a[1..]) + CleanAll(parse, remote, b)) ==
             (head + CleanAll(parse, remote, a[1..])) + CleanAll(parse, remote, b);
    }
  }

  // -------------------------------------------------- attributes, pass after pass

  lemma {:induction false} SiftConcat(tag: string, a: seq<Attr>, b: seq<Attr>)
    ensures Sift(tag, a + b) == Sift(tag, a) + Sift(tag, b)
  {
    hide Sift1;
    if a == [] {
      assert a + b == b;
    } else {
      assert (a + b)[1..] == a[1..] + b && (a + b)[0] == a[0];
      SiftConcat(tag, a[1..], b);
      assert Sift(tag, a + b) == Sift1(tag, a[0]) + Sift(tag, a[1..] + b);
      assert Sift(tag, a) == Sift1(tag, a[0]) + Sift(tag, a[1..]);
      hide Sift, Sift1;
    }
  }

  lemma {:induction false} GetConcat(a: seq<Attr>, b: seq<Attr>, name: string)
    ensures Get(a + b, name) == if Get(a, name).Some? then Get(a, name) else Get(b, name)
  {
    if a == [] {
      assert a + b == b;
    } else {
      assert (a + b)[1..] == a[1..] + b;
      GetConcat(a[1..], b, name);
    }
  }

  lemma {:induction false} SiftTwice(tag: string, attrs: seq<Attr>)
    ensures Sift(tag, Sift(tag, Sift(tag, attrs))) == Sift(tag, Sift(tag, attrs))
  {
    if attrs != [] {
      var a := attrs[0];
      SiftTwice(tag, attrs[1..]);
      var rest := Sift(tag, attrs[1..]);
      SiftConcat(tag, Sift1(tag, a), rest);
      SiftConcat(tag, Sift(tag, Sift1(tag, a)), Sift(tag, rest));
      SiftOne(tag, a);
      hide Sift, Sift1;
    } else {
      assert Sift(tag, []) == [];
    }
  }

  lemma SiftOne(tag: string, a: Attr)
    ensures Sift(tag, Sift(tag, Sift1(tag, a))) == Sift(tag, Sift1(tag, a))
  {
    TwoPassesSuffice(a.value);
    TwoPassesSuffice("");
    SiftSingle(tag, a);
    if Sift1(tag, a) != [] {
      SiftSingle(tag, Sift1(tag, a)[0]);
      assert Sift1(tag, a) == [Sift1(tag, a)[0]];
      var b := Sift1(tag, a)[0];
      if Sift1(tag, b) != [] {
        SiftSingle(tag, Sift1(tag, b)[0]);
        assert Sift1(tag, b) == [Sift1(tag, b)[0]];
      }
    }
    assert Sift(tag, []) == [];
    hide CleanStyle, Allows, Sift;
  }

  lemma SiftSingle(tag: string, a: Attr)
    ensures Sift(tag, [a]) == Sift1(tag, a)
  {
    assert [a][1..] == [] && Sift(tag, []) == [];
    assert Sift1(tag, a) + [] == Sift1(tag, a);
    hide Sift1;
  }

  /** Sifting leaves an allowed attribute other than style where it is. */
  lemma {:induction false} SiftGet(tag: string, attrs: seq<Attr>, name: string)
    requires Allows(tag, name) && name != "style"
    ensures Get(Sift(tag, attrs), name) == Get(attrs, name)
  {
    if attrs != [] {
      SiftGet(tag, attrs[1..], name);
      GetConcat(Sift1(tag, attrs[0]), Sift(tag, attrs[1..]), name);
      hide CleanStyle, Allows;
    }
  }

  lemma {:induction false} SiftWithout(tag: string, attrs: seq<Attr>, name: string)
    requires Allows(tag, name) && name != "style"
    ensures Sift(tag, Without(attrs, name)) == Without(Sift(tag, attrs), name)
  {
    if attrs != [] {
      var a := attrs[0];
      SiftWithout(tag, attrs[1..], name);
      var head := if a.name == name then [] else [a];
      SiftConcat(tag, head, Without(attrs[1..], name));
      WithoutConcat(Sift1(tag, a), Sift(tag, attrs[1..]), name);
      SiftSingle(tag, a);
      WithoutOne(tag, a, name);
      assert Sift(tag, []) == [];
      hide Sift, Sift1;
    }
  }

  lemma WithoutOne(tag: string, a: Attr, name: string)
    requires Allows(tag, name) && name != "style"
    ensures Without(Sift1(tag, a), name) == if a.name == name then [] else Sift1(tag, a)
  {
    hide CleanStyle, Allows;
  }

  lemma {:induction false} WithoutConcat(a: seq<Attr>, b: seq<Attr>, name: string)
    ensures Without(a + b, name) == Without(a, name) + Without(b, name)
  {
    if a == [] {
      assert a + b == b;
    } else {
      assert (a + b)[1..] == a[1..] + b;
      WithoutConcat(a[1..], b, name);
    }
  }

  lemma {:induction false} WithoutGet(attrs: seq<Attr>, name: string, other: string)
    ensures Get(Without(attrs, name), other) == if other == name then None else Get(attrs, other)
  {
    if attrs != [] {
      WithoutGet(attrs[1..], name, other);
      GetConcat(if attrs[0].name == name then [] else [attrs[0]], Without(attrs[1..], name), other);
    }
  }

  lemma {:induction false} WithoutSwap(attrs: seq<Attr>, name: string, other: string)
    ensures Without(Without(attrs, name), other) == Without(Without(attrs, other), name)
  {
    if attrs != [] {
      var a, rest := attrs[0], attrs[1..];
      WithoutSwap(rest, name, other);
      WithoutConcat(if a.name == name then [] else [a], Without(rest, name), other);
      WithoutConcat(if a.name == other then [] else [a], Without(rest, other), name);
    }
  }

  lemma {:induction false} WithoutNone(attrs: seq<Attr>, name: string)
    requires Get(attrs, name).None?
    ensures Without(attrs, name) == attrs
  {
    if attrs != [] {
      WithoutNone(attrs[1..], name);
      assert attrs == [attrs[0]] + attrs[1..];
    }
  }

  // ------------------------------------------------------------------ images

  /** Dropping an attribute for its value, whatever the condition on the value. */
  function DropIf(attrs: seq<Attr>, name: string, bad: string -> bool): seq<Attr> {
    var v := Get(attrs, name);
    if v.Some? && bad(v.value) then Without(attrs, name) else attrs
  }

  predicate BadSize(value: string) { !Digits(Trim(value)) }

  lemma ImageIsDrops(parse: UrlParser, remote: bool, attrs: seq<Attr>)
    ensures ImageAttrs(parse, remote, attrs) ==
            DropIf(DropIf(DropIf(attrs, "src", v => !SourceOk(parse, remote, v)), "width", BadSize), "height", BadSize)
  {
    if Get(attrs, "src").None? { WithoutNone(attrs, "src"); }
    hide SourceOk, Digits, Without, Get;
  }

  lemma DropGet(attrs: seq<Attr>, name: string, bad: string -> bool, other: string)
    requires other != name
    ensures Get(DropIf(attrs, name, bad), other) == Get(attrs, other)
    ensures Get(DropIf(attrs, name, bad), name) ==
            if Get(attrs, name).Some? && bad(Get(attrs, name).value) then None else Get(attrs, name)
  {
    WithoutGet(attrs, name, other);
    WithoutGet(attrs, name, name);
    hide Get, Without;
  }

  /** Dropping twice, the second time for more reasons, is dropping once for those. */
  lemma DropTwice(attrs: seq<Attr>, name: string, less: string -> bool, more: string -> bool)
    requires forall v: string :: less(v) ==> more(v)
    ensures DropIf(DropIf(attrs, name, less), name, more) == DropIf(attrs, name, more)
  {
    WithoutGet(attrs, name, name);
    hide Get, Without;
  }

  lemma DropSwap(attrs: seq<Attr>, a: string, p: string -> bool, b: string, q: string -> bool)
    requires a != b
    ensures DropIf(DropIf(attrs, a, p), b, q) == DropIf(DropIf(attrs, b, q), a, p)
  {
    WithoutGet(attrs, a, b);
    WithoutGet(attrs, b, a);
    WithoutSwap(attrs, a, b);
    hide Get, Without;
  }

  lemma SiftDrops(tag: string, attrs: seq<Attr>, name: string, bad: string -> bool)
    requires Allows(tag, name) && name != "style"
    ensures Sift(tag, DropIf(attrs, name, bad)) == DropIf(Sift(tag, attrs), name, bad)
  {
    SiftGet(tag, attrs, name);
    SiftWithout(tag, attrs, name);
    hide Get, Without, Sift, Allows;
  }

  lemma ImgAllows()
    ensures Allows("img", "src") && Allows("img", "width") && Allows("img", "height") && Allows("a", "href")
    ensures !Allows("a", "target") && !Allows("a", "rel")
  {
  }

  /** Sifting an image's cleaned attributes is cleaning its sifted ones. */
  lemma SiftImage(parse: UrlParser, remote: bool, attrs: seq<Attr>)
    ensures Sift("img", ImageAttrs(parse, remote, attrs)) == ImageAttrs(parse, remote, Sift("img", attrs))
  {
    ImgAllows();
    hide DropIf, Sift, Allows, ImageAttrs;
    var bad := (v: string) => !SourceOk(parse, remote, v);
    ImageIsDrops(parse, remote, attrs);
    ImageIsDrops(parse, remote, Sift("img", attrs));
    var a := DropIf(attrs, "src", bad);
    var b := DropIf(a, "width", BadSize);
    SiftDrops("img", attrs, "src", bad);
    SiftDrops("img", a, "width", BadSize);
    SiftDrops("img", b, "height", BadSize);
  }

  /** The strict pass after the permissive one is the strict pass. */
  lemma ImageAbsorbs(parse: UrlParser, remote: bool, attrs: seq<Attr>)
    ensures ImageAttrs(parse, false, ImageAttrs(parse, remote, attrs)) == ImageAttrs(parse, false, attrs)
  {
    hide DropIf, ImageAttrs;
    var less := (v: string) => !SourceOk(parse, remote, v);
    var more := (v: string) => !SourceOk(parse, false, v);
    assert forall v: string :: less(v) ==> more(v);
    ImageIsDrops(parse, remote, attrs);
    ImageIsDrops(parse, false, ImageAttrs(parse, remote, attrs));
    ImageIsDrops(parse, false, attrs);
    var s := DropIf(attrs, "src", less);
    var w := DropIf(s, "width", BadSize);
    // src again, width again, height again: bring equal names together.
    DropSwap(w, "height", BadSize, "src", more);
    DropSwap(s, "width", BadSize, "src", more);
    DropTwice(attrs, "src", less, more);
    var t := DropIf(attrs, "src", more);
    var u := DropIf(t, "width", BadSize);
    DropSwap(u, "height", BadSize, "width", BadSize);
    DropTwice(t, "width", BadSize, BadSize);
    DropTwice(u, "height", BadSize, BadSize);
  }

  // ------------------------------------------------------------------- links

  lemma {:induction false} ChangedGet(attrs: seq<Attr>, name: string, value: string, other: string)
    ensures Get(Changed(attrs, name, value), other) ==
            if other == name && Get(attrs, name).Some? then Some(value) else Get(attrs, other)
  {
    if attrs != [] {
      ChangedGet(attrs[1..], name, value, other);
      var c := Changed(attrs, name, value);
      assert c[1..] == Changed(attrs[1..], name, value);
    }
  }

  lemma {:induction false} SiftChanged(tag: string, attrs: seq<Attr>, name: string, value: string)
    requires Allows(tag, name) && name != "style"
    ensures Sift(tag, Changed(attrs, name, value)) == Changed(Sift(tag, attrs), name, value)
  {
    if attrs != [] {
      var a := attrs[0];
      var b := if a.name == name then Attr(name, value) else a;
      SiftChanged(tag, attrs[1..], name, value);
      SiftConcat(tag, [b], Changed(attrs[1..], name, value));
      SiftSingle(tag, b);
      ChangedConcat(Sift1(tag, a), Sift(tag, attrs[1..]), name, value);
      ChangedOne(tag, a, name, value);
      hide Sift, Sift1;
    } else {
      assert Sift(tag, []) == [];
    }
  }

  lemma ChangedOne(tag: string, a: Attr, name: string, value: string)
    requires Allows(tag, name) && name != "style"
    ensures Changed(Sift1(tag, a), name, value) == Sift1(tag, if a.name == name then Attr(name, value) else a)
  {
    hide CleanStyle, Allows;
    if Sift1(tag, a) != [] {
      var b := Sift1(tag, a)[0];
      assert Sift1(tag, a) == [b] && [b][1..] == [];
      assert Changed([b], name, value) == [if b.name == name then Attr(name, value) else b] + Changed([], name, value);
    }
  }

  lemma {:induction false} ChangedConcat(a: seq<Attr>, b: seq<Attr>, name: string, value: string)
    ensures Changed(a + b, name, value) == Changed(a, name, value) + Changed(b, name, value)
  {
    if a == [] {
      assert a + b == b;
    } else {
      assert (a + b)[1..] == a[1..] + b;
      ChangedConcat(a[1..], b, name, value);
    }
  }

  lemma {:induction false} ChangedTwice(attrs: seq<Attr>, name: string, value: string)
    ensures Changed(Changed(attrs, name, value), name, value) == Changed(attrs, name, value)
  {
    if attrs != [] {
      ChangedTwice(attrs[1..], name, value);
      assert Changed(attrs, name, value)[1..] == Changed(attrs[1..], name, value);
    }
  }

  lemma {:induction false} SiftForeign(tag: string, attrs: seq<Attr>, name: string)
    requires !Allows(tag, name)
    ensures Get(Sift(tag, attrs), name).None?
  {
    if attrs != [] {
      SiftForeign(tag, attrs[1..], name);
      GetConcat(Sift1(tag, attrs[0]), Sift(tag, attrs[1..]), name);
      hide CleanStyle, Allows;
    }
  }

  const TARGET := Attr("target", "_blank")
  const REL := Attr("rel", "noopener noreferrer")

  /** A sifted link keeps its address where it was, and ends in its target and relation. */
  lemma LinkIs(parse: UrlParser, attrs: seq<Attr>)
    requires Get(attrs, "target").None? && Get(attrs, "rel").None?
    ensures var href := SafeUrl(parse, Get(attrs, "href"));
            LinkAttrs(parse, attrs) == if href.Some? then Changed(attrs, "href", href.value) + [TARGET] + [REL]
              else Without(attrs, "href")
  {
    var href := SafeUrl(parse, Get(attrs, "href"));
    if href.Some? {
      var g := Changed(attrs, "href", href.value);
      ChangedGet(attrs, "href", href.value, "target");
      ChangedGet(attrs, "href", href.value, "rel");
      GetConcat(g, [TARGET], "rel");
      assert [TARGET][1..] == [] && Get([TARGET], "rel").None?;
      hide Get, Changed;
    }
  }

  lemma SafeUrlAgain(parse: UrlParser, value: Option<string>)
    requires Stable(parse) && SafeUrl(parse, value).Some?
    ensures SafeUrl(parse, SafeUrl(parse, value)) == SafeUrl(parse, value)
  {
    hide Trim;
  }

  /** Cleaning a link whose address was already cleaned. */
  lemma LinkAbsorbs(parse: UrlParser, x: seq<Attr>)
    requires Stable(parse)
    ensures var f := Sift("a", x); LinkAttrs(parse, Sift("a", LinkAttrs(parse, f))) == LinkAttrs(parse, Sift("a", f))
  {
    ImgAllows();
    var f := Sift("a", x);
    var g := Sift("a", f);
    hide Get, Sift, Sift1, Allows, SafeUrl, Stable, LinkAttrs, Changed, Without;
    SiftForeign("a", x, "target");
    SiftForeign("a", x, "rel");
    SiftForeign("a", f, "target");
    SiftForeign("a", f, "rel");
    LinkIs(parse, f);
    LinkIs(parse, g);
    SiftGet("a", f, "href");
    var href := SafeUrl(parse, Get(f, "href"));
    var again := Sift("a", LinkAttrs(parse, f));
    SiftForeign("a", LinkAttrs(parse, f), "target");
    SiftForeign("a", LinkAttrs(parse, f), "rel");
    LinkIs(parse, again);
    if href.Some? {
      var h := href.value;
      SiftLinkEnd(Changed(f, "href", h));
      SiftChanged("a", f, "href", h);
      HasHref(parse, f);
      ChangedGet(g, "href", h, "href");
      SafeUrlAgain(parse, Get(f, "href"));
      ChangedTwice(g, "href", h);
    } else {
      SiftWithout("a", f, "href");
      WithoutGet(g, "href", "href");
      NoHref(parse);
      WithoutNone(Without(g, "href"), "href");
    }
  }

  lemma HasHref(parse: UrlParser, attrs: seq<Attr>)
    requires SafeUrl(parse, Get(attrs, "href")).Some?
    ensures Get(attrs, "href").Some?
  {
  }

  lemma NoHref(parse: UrlParser)
    ensures SafeUrl(parse, None).None?
  {
  }

  lemma SiftLinkEnd(attrs: seq<Attr>)
    ensures Sift("a", attrs + [TARGET] + [REL]) == Sift("a", attrs)
  {
    SiftConcat("a", attrs + [TARGET], [REL]);
    SiftConcat("a", attrs, [TARGET]);
    SiftSingle("a", TARGET);
    SiftSingle("a", REL);
    ImgAllows();
    assert Sift1("a", TARGET) == [] && Sift1("a", REL) == [];
    hide Sift, Sift1;
  }

  /** What follows the loop over the attributes. */
  function Finish(parse: UrlParser, remote: bool, tag: string, sifted: seq<Attr>): seq<Attr> {
    if tag == "a" then LinkAttrs(parse, sifted)
    else if tag == "img" then ImageAttrs(parse, remote, sifted)
    else sifted
  }

  /** A strict pass after any pass comes to sifting twice and finishing strictly. */
  lemma AttrsAbsorb(parse: UrlParser, remote: bool, tag: string, attrs: seq<Attr>)
    requires Stable(parse)
    ensures CleanAttrs(parse, false, tag, CleanAttrs(parse, remote, tag, attrs)) ==
        Finish(parse, false, tag, Sift(tag, Sift(tag, attrs)))
  {
    var s := Sift(tag, attrs);
    hide Sift, LinkAttrs, ImageAttrs, Stable;
    if tag == "a" {
      LinkAbsorbs(parse, attrs);
    } else if tag == "img" {
      SiftImage(parse, remote, s);
      ImageAbsorbs(parse, remote, Sift(tag, s));
    }
  }

  lemma AttrsSettle(parse: UrlParser, tag: string, attrs: seq<Attr>)
    requires Stable(parse)
    ensures var twice := CleanAttrs(parse, false, tag, CleanAttrs(parse, false, tag, attrs));
            CleanAttrs(parse, false, tag, twice) == twice
  {
    var once := CleanAttrs(parse, false, tag, attrs);
    AttrsAbsorb(parse, false, tag, attrs);
    SiftTwice(tag, attrs);
    var s2 := Sift(tag, Sift(tag, attrs));
    hide Sift, LinkAttrs, ImageAttrs, Stable;
    // The finished attributes, sifted and finished again.
    if tag == "a" {
      LinkAbsorbs(parse, Sift(tag, attrs));
    } else if tag == "img" {
      SiftImage(parse, false, s2);
      ImageAbsorbs(parse, false, Sift(tag, s2));
    }
  }

  /** The source an image is left with. */
  lemma SourceLeft(parse: UrlParser, remote: bool, attrs: seq<Attr>)
    ensures Get(CleanAttrs(parse, remote, "img", attrs), "src") ==
            if Get(attrs, "src").Some? && SourceOk(parse, remote, Get(attrs, "src").value) then Get(attrs, "src")
              else None
  {
    ImgAllows();
    var s := Sift("img", attrs);
    SiftGet("img", attrs, "src");
    hide Sift, DropIf, ImageAttrs, Get, Allows;
    var bad := (v: string) => !SourceOk(parse, remote, v);
    ImageIsDrops(parse, remote, s);
    var a := DropIf(s, "src", bad);
    DropGet(s, "src", bad, "width");
    DropGet(a, "width", BadSize, "src");
    DropGet(DropIf(a, "width", BadSize), "height", BadSize, "src");
  }

  // ------------------------------------------------------- trees, pass after pass

  lemma CleanOne(parse: UrlParser, remote: bool, n: Node)
    ensures CleanAll(parse, remote, [n]) == CleanNode(parse, remote, n)
  {
    assert [n][1..] == [] && CleanAll(parse, remote, []) == [];
    assert CleanNode(parse, remote, n) + [] == CleanNode(parse, remote, n);
    hide CleanNode;
  }

  function Strict(parse: UrlParser, ns: seq<Node>): seq<Node> { CleanAll(parse, false, ns) }

  /**
   * The strict pass forgets which pass came before it: cleaning after the permissive pass,
   * which lets remote images through, is cleaning twice, attributes and order included.
   */
  lemma {:induction false} Absorbs(parse: UrlParser, remote: bool, ns: seq<Node>)
    requires Stable(parse)
    ensures Strict(parse, CleanAll(parse, remote, ns)) == Strict(parse, Strict(parse, ns))
    decreases ns, 1
  {
    if ns == [] {
      assert CleanAll(parse, remote, ns) == Strict(parse, ns);
    } else {
      Absorbs1(parse, remote, ns[0]);
      Absorbs(parse, remote, ns[1..]);
      CleanConcat(parse, false, CleanNode(parse, remote, ns[0]), CleanAll(parse, remote, ns[1..]));
      CleanConcat(parse, false, CleanNode(parse, false, ns[0]), Strict(parse, ns[1..]));
      assert CleanAll(parse, remote, ns) == CleanNode(parse, remote, ns[0]) + CleanAll(parse, remote, ns[1..]);
      assert Strict(parse, ns) == CleanNode(parse, false, ns[0]) + Strict(parse, ns[1..]);
      hide CleanNode, CleanAll, Stable;
    }
  }

  lemma {:induction false} Absorbs1(parse: UrlParser, remote: bool, n: Node)
    requires Stable(parse)
    ensures Strict(parse, CleanNode(parse, remote, n)) == Strict(parse, CleanNode(parse, false, n))
    decreases n, 0
  {
    if n.Element? && n.tag !in DROP_SUBTREE {
      Absorbs(parse, remote, n.kids);
      if n.tag in ALLOWED_TAGS {
        ElementAbsorbs(parse, remote, n.tag, n.attrs, CleanAll(parse, remote, n.kids), Strict(parse, n.kids));
      }
    }
  }

  /** An allowed element after a pass. */
  function Kept(tag: string, attrs: seq<Attr>, kids: seq<Node>): seq<Node> {
    if tag == "img" && Missing(attrs) then [] else [Element(tag, attrs, kids)]
  }

  lemma StrictKept(parse: UrlParser, tag: string, attrs: seq<Attr>, kids: seq<Node>)
    requires tag in ALLOWED_TAGS && tag !in DROP_SUBTREE
    ensures Strict(parse, Kept(tag, attrs, kids)) ==
            if tag == "img" && Missing(attrs) then []
              else Kept(tag, CleanAttrs(parse, false, tag, attrs), Strict(parse, kids))
  {
    CleanOne(parse, false, Element(tag, attrs, kids));
    assert CleanAll(parse, false, []) == [];
    hide CleanAttrs, Missing;
  }

  lemma ElementAbsorbs(parse: UrlParser, remote: bool, tag: string, attrs: seq<Attr>, kids: seq<Node>, kids': seq<Node>)
    requires Stable(parse) && tag in ALLOWED_TAGS && tag !in DROP_SUBTREE && Strict(parse, kids) == Strict(parse, kids')
    ensures Strict(parse, Kept(tag, CleanAttrs(parse, remote, tag, attrs), kids)) ==
            Strict(parse, Kept(tag, CleanAttrs(parse, false, tag, attrs), kids'))
  {
    hide CleanAll, CleanAttrs, Stable, SourceOk, Get, Kept, Finish;
    var a, b := CleanAttrs(parse, remote, tag, attrs), CleanAttrs(parse, false, tag, attrs);
    AttrsAbsorb(parse, remote, tag, attrs);
    AttrsAbsorb(parse, false, tag, attrs);
    StrictKept(parse, tag, a, kids);
    StrictKept(parse, tag, b, kids');
    if tag == "img" {
      SourceLeft(parse, remote, attrs);
      SourceLeft(parse, false, attrs);
      SourceLeft(parse, false, a);
      SourceMonotone(parse, remote, attrs);
      assert Missing(a) ==> Missing(b);
      assert Missing(b) ==> Missing(CleanAttrs(parse, false, tag, a));
      KeptMissing(tag, CleanAttrs(parse, false, tag, a), Strict(parse, kids));
    }
  }

  lemma KeptMissing(tag: string, attrs: seq<Attr>, kids: seq<Node>)
    ensures tag == "img" && Missing(attrs) ==> Kept(tag, attrs, kids) == []
  {
  }

  lemma SourceMonotone(parse: UrlParser, remote: bool, attrs: seq<Attr>)
    ensures Get(attrs, "src").Some? && SourceOk(parse, false, Get(attrs, "src").value) ==>
        SourceOk(parse, remote, Get(attrs, "src").value)
  {
  }

  /** The fixpoint is reached after two passes, on every tree. */
  lemma {:induction false} Settles(parse: UrlParser, ns: seq<Node>)
    requires Stable(parse)
    ensures Strict(parse, Strict(parse, Strict(parse, ns))) == Strict(parse, Strict(parse, ns))
    decreases ns, 1
  {
    if ns == [] {
      assert Strict(parse, []) == [];
    } else {
      Settles1(parse, ns[0]);
      Settles(parse, ns[1..]);
      var a, b := CleanNode(parse, false, ns[0]), Strict(parse, ns[1..]);
      assert Strict(parse, ns) == a + b;
      CleanConcat(parse, false, a, b);
      CleanConcat(parse, false, Strict(parse, a), Strict(parse, b));
      hide CleanNode, CleanAll, Stable;
    }
  }

  lemma {:induction false} Settles1(parse: UrlParser, n: Node)
    requires Stable(parse)
    ensures var once := CleanNode(parse, false, n); Strict(parse, Strict(parse, once)) == Strict(parse, once)
    decreases n, 0
  {
    if n.Element? && n.tag !in DROP_SUBTREE {
      Settles(parse, n.kids);
      if n.tag in ALLOWED_TAGS {
        ElementSettles(parse, n.tag, n.attrs, Strict(parse, n.kids));
      }
    } else {
      assert n.Text? ==> CleanNode(parse, false, n) == [n];
      CleanOne(parse, false, n);
      assert Strict(parse, []) == [];
    }
  }

  lemma ElementSettles(parse: UrlParser, tag: string, attrs: seq<Attr>, kids: seq<Node>)
    requires Stable(parse) && tag in ALLOWED_TAGS && tag !in DROP_SUBTREE
    requires Strict(parse, Strict(parse, kids)) == Strict(parse, kids)
    ensures var once := Kept(tag, CleanAttrs(parse, false, tag, attrs), kids);
            Strict(parse, Strict(parse, once)) == Strict(parse, once)
  {
    hide CleanAll, CleanAttrs, Stable;
    var a := CleanAttrs(parse, false, tag, attrs);
    var b := CleanAttrs(parse, false, tag, a);
    AttrsSettle(parse, tag, attrs);
    StrictKept(parse, tag, a, kids);
    StrictKept(parse, tag, b, Strict(parse, kids));
    assert Strict(parse, []) == [] by { NothingStays(parse); }
  }

  lemma NothingStays(parse: UrlParser)
    ensures Strict(parse, []) == []
  {
  }

  // ---------------------------------------------------- what a result is like

  /** An attribute a cleaned element may carry. */
  predicate SafeAttr(tag: string, a: Attr) {
    (tag == "a" && (a == TARGET || a == REL)) || (Allows(tag, a.name) && (a.name == "style" ==> a.value != ""))
  }

  predicate AllSafe(tag: string, attrs: seq<Attr>) { forall k :: 0 <= k < |attrs| ==> SafeAttr(tag, attrs[k]) }

  /** A normalised address of one of the four schemes. */
  predicate SafeAddress(parse: UrlParser, h: string) {
    var url := parse(Trim(h));
    && url.Some? && url.value.href == h
    && var scheme := url.value.protocol;
       scheme == "http:" || scheme == "https:" || scheme == "mailto:" || scheme == "tel:"
  }

  lemma SafeUrlIsSafe(parse: UrlParser, value: Option<string>)
    requires Stable(parse) && SafeUrl(parse, value).Some?
    ensures SafeAddress(parse, SafeUrl(parse, value).value)
  {
    hide Trim;
  }

  /** A link leads to a safe address in a tab of its own, or nowhere. */
  predicate SafeLink(parse: UrlParser, attrs: seq<Attr>) {
    var href := Get(attrs, "href");
    if href.Some? then
      SafeAddress(parse, href.value) && Get(attrs, "target") == Some("_blank")
        && Get(attrs, "rel") == Some("noopener noreferrer")
    else Get(attrs, "target").None? && Get(attrs, "rel").None?
  }

  predicate SafeSize(value: Option<string>) { value.Some? ==> Digits(Trim(value.value)) }

  predicate SafeImage(parse: UrlParser, remote: bool, attrs: seq<Attr>) {
    var src := Get(attrs, "src");
    && src.Some? && src.value != "" && SourceOk(parse, remote, src.value)
    && SafeSize(Get(attrs, "width")) && SafeSize(Get(attrs, "height"))
  }

  predicate SafeNode(parse: UrlParser, remote: bool, n: Node) {
    match n
    case Text(_) => true
    case Other => false
    case Element(tag, attrs, kids) =>
      && tag in ALLOWED_TAGS && tag !in DROP_SUBTREE && AllSafe(tag, attrs)
      && (tag == "a" ==> SafeLink(parse, attrs)) && (tag == "img" ==> SafeImage(parse, remote, attrs))
      && forall k :: 0 <= k < |kids| ==> SafeNode(parse, remote, kids[k])
  }

  predicate SafeForest(parse: UrlParser, remote: bool, ns: seq<Node>) {
    forall k :: 0 <= k < |ns| ==> SafeNode(parse, remote, ns[k])
  }

  lemma {:induction false} SiftSafe(tag: string, attrs: seq<Attr>)
    ensures AllSafe(tag, Sift(tag, attrs))
  {
    if attrs != [] {
      SiftSafe(tag, attrs[1..]);
      assert AllSafe(tag, Sift1(tag, attrs[0]));
      hide Allows, CleanStyle;
    }
  }

  lemma {:induction false} WithoutSafe(tag: string, attrs: seq<Attr>, name: string)
    requires AllSafe(tag, attrs)
    ensures AllSafe(tag, Without(attrs, name))
  {
    if attrs != [] {
      WithoutSafe(tag, attrs[1..], name);
      hide SafeAttr;
    }
  }

  lemma {:induction false} ChangedSafe(attrs: seq<Attr>, value: string)
    requires AllSafe("a", attrs)
    ensures AllSafe("a", Changed(attrs, "href", value))
  {
    if attrs != [] {
      ChangedSafe(attrs[1..], value);
      var c := Changed(attrs, "href", value);
      assert c[1..] == Changed(attrs[1..], "href", value);
      assert SafeAttr("a", c[0]) by { assert SafeAttr("a", attrs[0]); ImgAllows(); }
      hide SafeAttr;
    }
  }

  lemma LinkSafe(parse: UrlParser, attrs: seq<Attr>)
    requires Stable(parse)
    ensures AllSafe("a", CleanAttrs(parse, false, "a", attrs)) && SafeLink(parse, CleanAttrs(parse, false, "a", attrs))
  {
    ImgAllows();
    var f := Sift("a", attrs);
    SiftSafe("a", attrs);
    SiftForeign("a", attrs, "target");
    SiftForeign("a", attrs, "rel");
    LinkIs(parse, f);
    var href := SafeUrl(parse, Get(f, "href"));
    hide Sift, Changed, Without, Stable, Allows, LinkAttrs, SafeAddress, SafeUrl;
    if href.Some? {
      SafeUrlIsSafe(parse, Get(f, "href"));
      var g := Changed(f, "href", href.value);
      ChangedSafe(f, href.value);
      ChangedGet(f, "href", href.value, "href");
      ChangedGet(f, "href", href.value, "target");
      ChangedGet(f, "href", href.value, "rel");
      LinkEnd(g);
      assert AllSafe("a", g + [TARGET] + [REL]);
    } else {
      WithoutSafe("a", f, "href");
      WithoutGet(f, "href", "href");
      WithoutGet(f, "href", "target");
      WithoutGet(f, "href", "rel");
    }
  }

  lemma GetOne(a: Attr, name: string)
    ensures Get([a], name) == if a.name == name then Some(a.value) else None
  {
    assert [a][1..] == [] && Get([], name) == None;
  }

  lemma LinkEnd(g: seq<Attr>)
    requires Get(g, "target").None? && Get(g, "rel").None?
    ensures var l := g + [TARGET] + [REL];
            Get(l, "href") == Get(g, "href") && Get(l, "target") == Some("_blank")
              && Get(l, "rel") == Some("noopener noreferrer")
  {
    GetOne(TARGET, "href");
    GetOne(TARGET, "target");
    GetOne(TARGET, "rel");
    GetOne(REL, "href");
    GetOne(REL, "target");
    GetOne(REL, "rel");
    GetConcat(g, [TARGET], "href");
    GetConcat(g, [TARGET], "target");
    GetConcat(g, [TARGET], "rel");
    GetConcat(g + [TARGET], [REL], "href");
    GetConcat(g + [TARGET], [REL], "target");
    GetConcat(g + [TARGET], [REL], "rel");
    hide Get;
  }

  lemma DropSafe(tag: string, attrs: seq<Attr>, name: string, bad: string -> bool)
    requires AllSafe(tag, attrs)
    ensures AllSafe(tag, DropIf(attrs, name, bad))
  {
    WithoutSafe(tag, attrs, name);
  }

  lemma ImageSafe(parse: UrlParser, remote: bool, attrs: seq<Attr>)
    ensures var a := CleanAttrs(parse, remote, "img", attrs);
            AllSafe("img", a) && (!Missing(a) ==> SafeImage(parse, remote, a))
  {
    var s := Sift("img", attrs);
    SiftSafe("img", attrs);
    SourceLeft(parse, remote, attrs);
    hide Sift, DropIf, ImageAttrs, Get, AllSafe, SourceOk;
    var bad := (v: string) => !SourceOk(parse, remote, v);
    ImageIsDrops(parse, remote, s);
    var a := DropIf(s, "src", bad);
    var b := DropIf(a, "width", BadSize);
    DropSafe("img", s, "src", bad);
    DropSafe("img", a, "width", BadSize);
    DropSafe("img", b, "height", BadSize);
    DropGet(a, "width", BadSize, "height");
    DropGet(b, "height", BadSize, "width");
  }

  lemma AttrsSafe(parse: UrlParser, remote: bool, tag: string, attrs: seq<Attr>)
    requires Stable(parse)
    ensures var a := CleanAttrs(parse, remote, tag, attrs);
      && AllSafe(tag, a) && (tag == "a" ==> SafeLink(parse, a))
      && (tag == "img" && !Missing(a) ==> SafeImage(parse, remote, a))
  {
    hide Sift, LinkAttrs, ImageAttrs, Stable, AllSafe, SafeLink, SafeImage, Missing;
    if tag == "a" { LinkSafe(parse, attrs); }
    else if tag == "img" { ImageSafe(parse, remote, attrs); }
    else { SiftSafe(tag, attrs); }
  }

  /**
   * A cleaned tree holds nothing but text and allowed elements; its attributes are allowed
   * ones, its links lead to safe addresses, and every image has a permitted source.
   */
  lemma {:induction false} CleanIsSafe(parse: UrlParser, remote: bool, ns: seq<Node>)
    requires Stable(parse)
    ensures SafeForest(parse, remote, CleanAll(parse, remote, ns))
    decreases ns, 1
  {
    if ns != [] {
      CleanIsSafe1(parse, remote, ns[0]);
      CleanIsSafe(parse, remote, ns[1..]);
      hide CleanNode, SafeNode, Stable;
    }
  }

  lemma {:induction false} CleanIsSafe1(parse: UrlParser, remote: bool, n: Node)
    requires Stable(parse)
    ensures SafeForest(parse, remote, CleanNode(parse, remote, n))
    decreases n, 0
  {
    if n.Element? && n.tag !in DROP_SUBTREE {
      CleanIsSafe(parse, remote, n.kids);
      AttrsSafe(parse, remote, n.tag, n.attrs);
      hide Stable, AllSafe, SafeLink, SafeImage, CleanAttrs, CleanAll;
    }
  }

  // ------------------------------------------- the styles of a tree cleaned twice

  function CleanTimes(n: nat, value: string): string {
    if n == 0 then value else CleanStyle(CleanTimes(n - 1, value))
  }

  /** The value has been through the style rewriter n times. */
  ghost predicate Rewritten(n: nat, value: string) { exists v :: value == CleanTimes(n, v) }

  ghost predicate StylesRewritten(n: nat, attrs: seq<Attr>) {
    forall k :: 0 <= k < |attrs| && attrs[k].name == "style" ==> attrs[k].value != "" && Rewritten(n, attrs[k].value)
  }

  ghost predicate TreeRewritten(n: nat, x: Node) {
    x.Element? ==>
      && (n > 0 ==> StylesRewritten(n, x.attrs))
      && forall k :: 0 <= k < |x.kids| ==> TreeRewritten(n, x.kids[k])
  }

  ghost predicate ForestRewritten(n: nat, xs: seq<Node>) { forall k :: 0 <= k < |xs| ==> TreeRewritten(n, xs[k]) }

  lemma {:induction false} AnyTree(xs: seq<Node>)
    ensures ForestRewritten(0, xs)
    decreases xs, 1
  {
    forall k | 0 <= k < |xs| ensures TreeRewritten(0, xs[k]) {
      if xs[k].Element? { AnyTree(xs[k].kids); }
    }
  }

  lemma RewrittenOnce(n: nat, value: string)
    requires n > 0 ==> Rewritten(n, value)
    ensures Rewritten(n + 1, CleanStyle(value))
  {
    hide CleanStyle;
    if n == 0 {
      assert CleanTimes(0, value) == value && CleanTimes(1, value) == CleanStyle(value);
    } else {
      var v :| value == CleanTimes(n, v);
      assert CleanTimes(n + 1, v) == CleanStyle(value);
    }
  }

  lemma {:induction false} SiftRewrites(n: nat, tag: string, attrs: seq<Attr>)
    requires n > 0 ==> StylesRewritten(n, attrs)
    ensures StylesRewritten(n + 1, Sift(tag, attrs))
  {
    hide Allows, CleanStyle, Rewritten;
    if attrs != [] {
      SiftRewrites(n, tag, attrs[1..]);
      if attrs[0].name == "style" { RewrittenOnce(n, attrs[0].value); }
    }
  }

  lemma {:induction false} WithoutRewritten(n: nat, attrs: seq<Attr>, name: string)
    requires StylesRewritten(n, attrs)
    ensures StylesRewritten(n, Without(attrs, name))
  {
    hide Rewritten;
    if attrs != [] { WithoutRewritten(n, attrs[1..], name); }
  }

  lemma {:induction false} ChangedRewritten(n: nat, attrs: seq<Attr>, name: string, value: string)
    requires StylesRewritten(n, attrs) && name != "style"
    ensures StylesRewritten(n, Changed(attrs, name, value))
  {
    hide Rewritten;
    if attrs != [] {
      ChangedRewritten(n, attrs[1..], name, value);
      var c := Changed(attrs, name, value);
      assert c[1..] == Changed(attrs[1..], name, value);
    }
  }

  lemma WithRewritten(n: nat, attrs: seq<Attr>, name: string, value: string)
    requires StylesRewritten(n, attrs) && name != "style"
    ensures StylesRewritten(n, With(attrs, name, value))
  {
    ChangedRewritten(n, attrs, name, value);
    hide Rewritten, Changed, Get;
  }

  lemma LinkRewritten(parse: UrlParser, n: nat, attrs: seq<Attr>)
    requires StylesRewritten(n, attrs)
    ensures StylesRewritten(n, LinkAttrs(parse, attrs))
  {
    var href := SafeUrl(parse, Get(attrs, "href"));
    hide StylesRewritten, With, Without, SafeUrl, Get;
    if href.None? {
      WithoutRewritten(n, attrs, "href");
    } else {
      WithRewritten(n, attrs, "href", href.value);
      WithRewritten(n, With(attrs, "href", href.value), "target", "_blank");
      WithRewritten(n, With(With(attrs, "href", href.value), "target", "_blank"), "rel", "noopener noreferrer");
    }
  }

  lemma ImageRewritten(parse: UrlParser, remote: bool, n: nat, attrs: seq<Attr>)
    requires StylesRewritten(n, attrs)
    ensures StylesRewritten(n, ImageAttrs(parse, remote, attrs))
  {
    hide StylesRewritten, Without, SourceOk, Digits, Get;
    var a := DropBadSource(parse, remote, attrs);
    var b := DropBadSize(a, "width");
    WithoutRewritten(n, attrs, "src");
    WithoutRewritten(n, a, "width");
    WithoutRewritten(n, b, "height");
  }

  lemma AttrsRewritten(parse: UrlParser, remote: bool, n: nat, tag: string, attrs: seq<Attr>)
    requires n > 0 ==> StylesRewritten(n, attrs)
    ensures StylesRewritten(n + 1, CleanAttrs(parse, remote, tag, attrs))
  {
    hide StylesRewritten, Sift, LinkAttrs, ImageAttrs;
    SiftRewrites(n, tag, attrs);
    if tag == "a" { LinkRewritten(parse, n + 1, Sift(tag, attrs)); }
    else if tag == "img" { ImageRewritten(parse, remote, n + 1, Sift(tag, attrs)); }
  }

  /** Each cleaning of a tree, in either mode, takes every style in it through the rewriter once more. */
  lemma {:induction false} CleanRewrites(parse: UrlParser, remote: bool, n: nat, xs: seq<Node>)
    requires ForestRewritten(n, xs)
    ensures ForestRewritten(n + 1, CleanAll(parse, remote, xs))
    decreases xs, 1
  {
    if xs != [] {
      assert TreeRewritten(n, xs[0]);
      CleanRewrites1(parse, remote, n, xs[0]);
      CleanRewrites(parse, remote, n, xs[1..]);
      hide CleanNode, TreeRewritten;
    }
  }

  lemma {:induction false} CleanRewrites1(parse: UrlParser, remote: bool, n: nat, x: Node)
    requires TreeRewritten(n, x)
    ensures ForestRewritten(n + 1, CleanNode(parse, remote, x))
    decreases x, 0
  {
    if x.Element? && x.tag !in DROP_SUBTREE {
      CleanRewrites(parse, remote, n, x.kids);
      AttrsRewritten(parse, remote, n, x.tag, x.attrs);
      hide StylesRewritten, CleanAttrs, CleanAll;
    }
  }

  /** Every declaration of every style in the tree passes the three filters. */
  predicate SafeStyle(value: string) {
    forall k :: 0 <= k < |Split(value, ';')| ==> Passes(Trim(Split(value, ';')[k]))
  }

  predicate SafeStyles(x: Node) {
    x.Element? ==>
      && (forall k :: 0 <= k < |x.attrs| && x.attrs[k].name == "style" ==> SafeStyle(x.attrs[k].value))
      && forall k :: 0 <= k < |x.kids| ==> SafeStyles(x.kids[k])
  }

  lemma TwiceIsSafe(value: string)
    requires value != "" && Rewritten(2, value)
    ensures SafeStyle(value)
  {
    hide CleanStyle, Split, Passes;
    var v :| value == CleanTimes(2, v);
    assert CleanTimes(0, v) == v && CleanTimes(1, v) == CleanStyle(v) && value == CleanStyle(CleanStyle(v));
    forall k | 0 <= k < |Split(value, ';')| ensures Passes(Trim(Split(value, ';')[k])) { TwiceCleanIsSafe(v, k); }
  }

  lemma {:induction false} TwiceRewritten(x: Node)
    requires TreeRewritten(2, x)
    ensures SafeStyles(x)
  {
    if x.Element? {
      forall k | 0 <= k < |x.attrs| && x.attrs[k].name == "style"
        ensures SafeStyle(x.attrs[k].value)
      {
        TwiceIsSafe(x.attrs[k].value);
      }
      forall k | 0 <= k < |x.kids| ensures SafeStyles(x.kids[k]) { TwiceRewritten(x.kids[k]); }
      hide SafeStyle;
    }
  }

  /**
   * A tree cleaned twice, in whatever modes, holds no declaration that the style filters are
   * meant to drop. (Cleaned once it may: see OnePassIsNotEnough.)
   */
  lemma StylesAreSafe(parse: UrlParser, first: bool, second: bool, xs: seq<Node>, k: nat)
    requires k < |CleanAll(parse, second, CleanAll(parse, first, xs))|
    ensures SafeStyles(CleanAll(parse, second, CleanAll(parse, first, xs))[k])
  {
    AnyTree(xs);
    CleanRewrites(parse, first, 0, xs);
    CleanRewrites(parse, second, 1, CleanAll(parse, first, xs));
    hide CleanAll, TreeRewritten, SafeStyles;
    TwiceRewritten(CleanAll(parse, second, CleanAll(parse, first, xs))[k]);
  }

  // ------------------------------------------------------- what is preserved

  /** A tree read from start to end. */
  datatype Event = Enter(tag: string) | Leave(tag: string) | Words(data: string)

  function Reading(n: Node): seq<Event> {
    match n
    case Text(data) => [Words(data)]
    case Other => []
    case Element(tag, _, kids) => [Enter(tag)] + Readings(kids) + [Leave(tag)]
  }

  function Readings(ns: seq<Node>): seq<Event> {
    if ns == [] then [] else Reading(ns[0]) + Readings(ns[1..])
  }

  /** An image that may stay. */
  predicate HasSource(parse: UrlParser, remote: bool, attrs: seq<Attr>) {
    var src := Get(attrs, "src");
    src.Some? && src.value != "" && SourceOk(parse, remote, src.value)
  }

  /** The reading of what lies outside dropped subtrees and images without a permitted source. */
  function Visible(parse: UrlParser, remote: bool, n: Node): seq<Event> {
    match n
    case Text(data) => [Words(data)]
    case Other => []
    case Element(tag, attrs, kids) =>
      if tag in DROP_SUBTREE || (tag == "img" && "img" in ALLOWED_TAGS && !HasSource(parse, remote, attrs)) then []
      else if tag in ALLOWED_TAGS then [Enter(tag)] + Visibles(parse, remote, kids) + [Leave(tag)]
      else Visibles(parse, remote, kids)
  }

  function Visibles(parse: UrlParser, remote: bool, ns: seq<Node>): seq<Event> {
    if ns == [] then [] else Visible(parse, remote, ns[0]) + Visibles(parse, remote, ns[1..])
  }

  lemma {:induction false} ReadingsConcat(a: seq<Node>, b: seq<Node>)
    ensures Readings(a + b) == Readings(a) + Readings(b)
  {
    if a == [] {
      assert a + b == b;
    } else {
      assert (a + b)[1..] == a[1..] + b && (a + b)[0] == a[0];
      ReadingsConcat(a[1..], b);
      hide Reading;
    }
  }

  lemma ReadingsOne(n: Node)
    ensures Readings([n]) == Reading(n)
  {
    assert [n][1..] == [] && Readings([]) == [];
    assert Reading(n) + [] == Reading(n);
  }

  /**
   * Nothing is lost but what is meant to be: the cleaned tree reads, text and elements in
   * document order, exactly as the original does outside dropped subtrees and images.
   */
  lemma {:induction false} CleanKeepsText(parse: UrlParser, remote: bool, ns: seq<Node>)
    ensures Readings(CleanAll(parse, remote, ns)) == Visibles(parse, remote, ns)
    decreases ns, 1
  {
    if ns != [] {
      CleanKeepsText1(parse, remote, ns[0]);
      CleanKeepsText(parse, remote, ns[1..]);
      ReadingsConcat(CleanNode(parse, remote, ns[0]), CleanAll(parse, remote, ns[1..]));
      assert CleanAll(parse, remote, ns) == CleanNode(parse, remote, ns[0]) + CleanAll(parse, remote, ns[1..]);
      hide CleanNode, Visible, Reading, CleanAll;
    }
  }

  lemma {:induction false} CleanKeepsText1(parse: UrlParser, remote: bool, n: Node)
    ensures Readings(CleanNode(parse, remote, n)) == Visible(parse, remote, n)
    decreases n, 0
  {
    if n.Element? && n.tag !in DROP_SUBTREE {
      CleanKeepsText(parse, remote, n.kids);
      if n.tag in ALLOWED_TAGS {
        ReadingsOne(Element(n.tag, CleanAttrs(parse, remote, n.tag, n.attrs), CleanAll(parse, remote, n.kids)));
        SourceLeft(parse, remote, n.attrs);
        hide CleanAttrs, CleanAll, Get, SourceOk;
      }
    } else {
      assert Readings([]) == [];
      ReadingsOne(n);
    }
  }
}
