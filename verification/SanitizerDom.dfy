/**
 * The sanitizer as it runs: an in-place walk over a document's nodes, which it moves and
 * removes as it goes. Nodes are entries of a store, and refer to each other by key.
 */
module SanitizerDom {
  import opened Basics
  import opened Strings
  import opened StyleCleaner
  import opened Sanitizer

  datatype Cell = TextCell(data: string) | OtherCell | ElementCell(tag: string, attrs: seq<Attr>, kids: seq<nat>)

  /** Which nodes make up a tree: specification only. */
  datatype Loc = Loc(id: nat, kids: seq<Loc>)

  function Ids(ls: seq<Loc>): (ids: seq<nat>)
    ensures |ids| == |ls|
  {
    if ls == [] then [] else [ls[0].id] + Ids(ls[1..])
  }

  function Span(l: Loc): set<nat> { {l.id} + Spans(l.kids) }

  function Spans(ls: seq<Loc>): set<nat> {
    if ls == [] then {} else Span(ls[0]) + Spans(ls[1..])
  }

  /** No node occurs twice. */
  predicate Apart1(l: Loc) { l.id !in Spans(l.kids) && Apart(l.kids) }

  predicate Apart(ls: seq<Loc>) {
    ls == [] || (Apart1(ls[0]) && Apart(ls[1..]) && Span(ls[0]) !! Spans(ls[1..]))
  }

  /** The tree is in the store, under parent p. */
  predicate Holds1(cells: map<nat, Cell>, up: map<nat, nat>, p: nat, l: Loc)
    decreases l, 0
  {
    && l.id in cells && l.id in up && up[l.id] == p
    && if cells[l.id].ElementCell? then cells[l.id].kids == Ids(l.kids) && Holds(cells, up, l.id, l.kids)
       else l.kids == []
  }

  predicate Holds(cells: map<nat, Cell>, up: map<nat, nat>, p: nat, ls: seq<Loc>)
    decreases ls, 1
  {
    ls == [] || (Holds1(cells, up, p, ls[0]) && Holds(cells, up, p, ls[1..]))
  }

  /** The tree as a value. */
  function Value1(cells: map<nat, Cell>, l: Loc): Node {
    if l.id !in cells then Other
    else
      match cells[l.id]
      case TextCell(data) => Text(data)
      case OtherCell => Other
      case ElementCell(tag, attrs, _) => Element(tag, attrs, Values(cells, l.kids))
  }

  function Values(cells: map<nat, Cell>, ls: seq<Loc>): seq<Node> {
    if ls == [] then [] else [Value1(cells, ls[0])] + Values(cells, ls[1..])
  }

  /** Attribute names are distinct on every element, as the DOM keeps them. */
  predicate Distinct(attrs: seq<Attr>) { forall i, j :: 0 <= i < j < |attrs| ==> attrs[i].name != attrs[j].name }

  predicate Named(cells: map<nat, Cell>) {
    forall id :: id in cells && cells[id].ElementCell? ==> Distinct(cells[id].attrs)
  }

  // ------------------------------------------------------------ small lemmas

  /** Two stores agree on some nodes. */
  predicate Agree(cells: map<nat, Cell>, up: map<nat, nat>, cells': map<nat, Cell>, up': map<nat, nat>, on: set<nat>) {
    forall i :: i in on ==>
      && (i in cells <==> i in cells') && (i in cells ==> cells'[i] == cells[i])
      && (i in up <==> i in up') && (i in up ==> up'[i] == up[i])
  }

  lemma {:induction false} Frame(cells: map<nat, Cell>, up: map<nat, nat>, cells': map<nat, Cell>, up': map<nat, nat>,
                                 p: nat, ls: seq<Loc>)
    requires Agree(cells, up, cells', up', Spans(ls))
    ensures Holds(cells, up, p, ls) ==> Holds(cells', up', p, ls)
    ensures Values(cells', ls) == Values(cells, ls)
    decreases ls, 1
  {
    if ls != [] {
      Frame1(cells, up, cells', up', p, ls[0]);
      Frame(cells, up, cells', up', p, ls[1..]);
    }
  }

  lemma {:induction false} Frame1(cells: map<nat, Cell>, up: map<nat, nat>, cells': map<nat, Cell>, up': map<nat, nat>,
                                  p: nat, l: Loc)
    requires Agree(cells, up, cells', up', Span(l))
    ensures Holds1(cells, up, p, l) ==> Holds1(cells', up', p, l)
    ensures Value1(cells', l) == Value1(cells, l)
    decreases l, 0
  {
    assert l.id in Span(l) && Spans(l.kids) <= Span(l);
    Frame(cells, up, cells', up', l.id, l.kids);
  }

  lemma {:induction false} IdsConcat(a: seq<Loc>, b: seq<Loc>)
    ensures Ids(a + b) == Ids(a) + Ids(b)
  {
    if a == [] {
      assert a + b == b;
    } else {
      assert (a + b)[1..] == a[1..] + b;
      IdsConcat(a[1..], b);
    }
  }

  lemma {:induction false} SpansConcat(a: seq<Loc>, b: seq<Loc>)
    ensures Spans(a + b) == Spans(a) + Spans(b)
  {
    if a == [] {
      assert a + b == b;
    } else {
      assert (a + b)[1..] == a[1..] + b;
      SpansConcat(a[1..], b);
      hide Span;
    }
  }

  lemma {:induction false} ApartConcat(a: seq<Loc>, b: seq<Loc>)
    ensures Apart(a + b) <==> Apart(a) && Apart(b) && Spans(a) !! Spans(b)
  {
    if a == [] {
      assert a + b == b;
    } else {
      assert (a + b)[1..] == a[1..] + b && (a + b)[0] == a[0];
      ApartConcat(a[1..], b);
      SpansConcat(a[1..], b);
      hide Span, Apart1;
    }
  }

  lemma {:induction false} HoldsConcat(cells: map<nat, Cell>, up: map<nat, nat>, p: nat, a: seq<Loc>, b: seq<Loc>)
    ensures Holds(cells, up, p, a + b) <==> Holds(cells, up, p, a) && Holds(cells, up, p, b)
  {
    if a == [] {
      assert a + b == b;
    } else {
      assert (a + b)[1..] == a[1..] + b && (a + b)[0] == a[0];
      HoldsConcat(cells, up, p, a[1..], b);
      hide Holds1;
    }
  }

  lemma {:induction false} ValuesConcat(cells: map<nat, Cell>, a: seq<Loc>, b: seq<Loc>)
    ensures Values(cells, a + b) == Values(cells, a) + Values(cells, b)
  {
    if a == [] {
      assert a + b == b;
    } else {
      assert (a + b)[1..] == a[1..] + b && (a + b)[0] == a[0];
      ValuesConcat(cells, a[1..], b);
      hide Value1;
    }
  }

  lemma {:induction false} SingleLoc(cells: map<nat, Cell>, up: map<nat, nat>, p: nat, l: Loc)
    ensures Ids([l]) == [l.id] && Spans([l]) == Span(l)
    ensures Apart([l]) <==> Apart1(l)
    ensures Holds(cells, up, p, [l]) <==> Holds1(cells, up, p, l)
    ensures Values(cells, [l]) == [Value1(cells, l)]
  {
    assert [l][1..] == [] && Ids([]) == [] && Spans([]) == {} && Values(cells, []) == [];
  }

  /** A list of siblings with one of them in the middle, taken apart. */
  lemma {:induction false} Middle(cells: map<nat, Cell>, up: map<nat, nat>, p: nat, a: seq<Loc>, m: seq<Loc>,
                                  b: seq<Loc>)
    ensures Ids(a + m + b) == Ids(a) + Ids(m) + Ids(b)
    ensures Spans(a + m + b) == Spans(a) + Spans(m) + Spans(b)
    ensures Apart(a + m + b) <==>
        Apart(a) && Apart(m) && Apart(b) && Spans(a) !! Spans(m) && Spans(a) !! Spans(b) && Spans(m) !! Spans(b)
    ensures Holds(cells, up, p, a + m + b) <==>
        Holds(cells, up, p, a) && Holds(cells, up, p, m) && Holds(cells, up, p, b)
    ensures Values(cells, a + m + b) == Values(cells, a) + Values(cells, m) + Values(cells, b)
  {
    IdsConcat(a + m, b);
    IdsConcat(a, m);
    SpansConcat(a + m, b);
    SpansConcat(a, m);
    ApartConcat(a + m, b);
    ApartConcat(a, m);
    HoldsConcat(cells, up, p, a + m, b);
    HoldsConcat(cells, up, p, a, m);
    ValuesConcat(cells, a + m, b);
    ValuesConcat(cells, a, m);
    hide Ids, Spans, Apart, Holds, Values;
  }

  /** These trees are p's children, in this order. */
  predicate Under(cells: map<nat, Cell>, up: map<nat, nat>, p: nat, ls: seq<Loc>) {
    && p in cells && cells[p].ElementCell? && cells[p].kids == Ids(ls)
    && Holds(cells, up, p, ls) && Apart(ls) && p !in Spans(ls)
  }

  /** Nothing has changed but p's list of children and some nodes below it. */
  ghost predicate Only(cells: map<nat, Cell>, up: map<nat, nat>, cells': map<nat, Cell>, up': map<nat, nat>, p: nat,
                       below: set<nat>) {
    && (forall i :: i !in below && i != p ==> (i in cells <==> i in cells') && (i in cells ==> cells'[i] == cells[i]))
    && (forall i :: i !in below ==> (i in up <==> i in up') && (i in up ==> up'[i] == up[i]))
    && p in cells && p in cells' && cells[p].ElementCell? && cells'[p].ElementCell?
    && cells'[p] == cells[p].(kids := cells'[p].kids)
  }

  function Minus(kids: seq<nat>, id: nat): seq<nat> {
    if kids == [] then []
    else if kids[0] == id then kids[1..]
    else [kids[0]] + Minus(kids[1..], id)
  }

  function Before(kids: seq<nat>, ref: nat, id: nat): seq<nat> {
    if kids == [] || kids[0] == ref then [id] + kids
    else [kids[0]] + Before(kids[1..], ref, id)
  }

  lemma {:induction false} MinusMiddle(a: seq<nat>, id: nat, b: seq<nat>)
    requires id !in a
    ensures Minus(a + [id] + b, id) == a + b
  {
    var s := a + [id] + b;
    if a == [] {
      assert s[1..] == b;
    } else {
      assert s[1..] == a[1..] + [id] + b;
      MinusMiddle(a[1..], id, b);
    }
  }

  lemma {:induction false} BeforeMiddle(a: seq<nat>, ref: nat, b: seq<nat>, id: nat)
    requires ref !in a
    ensures Before(a + [ref] + b, ref, id) == a + [id] + [ref] + b
  {
    var s := a + [ref] + b;
    if a == [] {
      assert s == [ref] + b;
    } else {
      assert s[1..] == a[1..] + [ref] + b;
      BeforeMiddle(a[1..], ref, b, id);
    }
  }

  lemma {:induction false} IdsInSpans(ls: seq<Loc>)
    ensures forall i :: i in Ids(ls) ==> i in Spans(ls)
  {
    if ls != [] { IdsInSpans(ls[1..]); }
  }

  /** A parent and three runs of its children. */
  predicate Runs(cells: map<nat, Cell>, up: map<nat, nat>, p: nat, a: seq<Loc>, m: seq<Loc>, b: seq<Loc>) {
    && p in cells && cells[p].ElementCell? && cells[p].kids == Ids(a) + Ids(m) + Ids(b)
    && Holds(cells, up, p, a) && Holds(cells, up, p, m) && Holds(cells, up, p, b)
    && Separate(p, a, m, b)
  }

  predicate Separate(p: nat, a: seq<Loc>, m: seq<Loc>, b: seq<Loc>) {
    && Apart(a) && Apart(m) && Apart(b) && Spans(a) !! Spans(m) && Spans(a) !! Spans(b) && Spans(m) !! Spans(b)
    && p !in Spans(a) && p !in Spans(m) && p !in Spans(b)
  }

  lemma {:induction false} UnderRuns(cells: map<nat, Cell>, up: map<nat, nat>, p: nat, a: seq<Loc>, m: seq<Loc>,
                                     b: seq<Loc>)
    ensures Under(cells, up, p, a + m + b) <==> Runs(cells, up, p, a, m, b)
  {
    Middle(cells, up, p, a, m, b);
    hide Ids, Spans, Apart, Holds, Values;
  }

  lemma {:induction false} OnlyAgrees(cells: map<nat, Cell>, up: map<nat, nat>, cells': map<nat, Cell>, up': map<nat,
                                      nat>, p: nat, below: set<nat>, on: set<nat>)
    requires Only(cells, up, cells', up', p, below) && on !! below && p !in on
    ensures Agree(cells, up, cells', up', on)
  {
  }

  /** The runs on either side stay as they are while the middle gives way to another. */
  lemma {:induction false} RunsChange(cells: map<nat, Cell>, up: map<nat, nat>, cells': map<nat, Cell>, up': map<nat,
                                      nat>, p: nat,
                   a: seq<Loc>, m: seq<Loc>, b: seq<Loc>, r: seq<Loc>, below: set<nat>)
    requires Runs(cells, up, p, a, m, b) && Only(cells, up, cells', up', p, below) && below <= Spans(m)
    requires Holds(cells', up', p, r) && Apart(r) && Spans(r) <= Spans(m)
    requires cells'[p].kids == Ids(a) + Ids(r) + Ids(b)
    ensures Runs(cells', up', p, a, r, b) && Values(cells', a) == Values(cells, a)
    ensures Values(cells', b) == Values(cells, b)
  {
    hide Ids, Spans, Apart, Holds, Values;
    OnlyAgrees(cells, up, cells', up', p, below, Spans(a));
    OnlyAgrees(cells, up, cells', up', p, below, Spans(b));
    hide Agree, Only;
    Frame(cells, up, cells', up', p, a);
    Frame(cells, up, cells', up', p, b);
  }

  // ------------------------------------------------------------ moving nodes

  lemma {:induction false} Nothing(cells: map<nat, Cell>, up: map<nat, nat>, p: nat)
    ensures Ids([]) == [] && Spans([]) == {} && Apart([]) && Holds(cells, up, p, []) && Values(cells, []) == []
  {
  }

  lemma {:induction false} SpanParts(l: Loc)
    ensures Span(l) == {l.id} + Spans(l.kids) && l.id in Span(l)
  {
  }

  lemma {:induction false} LocParts(cells: map<nat, Cell>, up: map<nat, nat>, p: nat, e: nat, kids: seq<Loc>)
    ensures Span(Loc(e, kids)) == {e} + Spans(kids)
    ensures Apart1(Loc(e, kids)) <==> e !in Spans(kids) && Apart(kids)
    ensures e in cells && cells[e].ElementCell? ==>
      (Holds1(cells, up, p, Loc(e, kids)) <==>
       e in up && up[e] == p && cells[e].kids == Ids(kids) && Holds(cells, up, e, kids))
    ensures Holds1(cells, up, p, Loc(e, kids)) ==> e in cells && e in up && up[e] == p
  {
  }

  /** What node.remove() does to the children of p. */
  function Detached(cells: map<nat, Cell>, p: nat, id: nat): map<nat, Cell>
    requires p in cells && cells[p].ElementCell?
  {
    cells[p := cells[p].(kids := Minus(cells[p].kids, id))]
  }

  lemma {:induction false} Detaches(cells: map<nat, Cell>, up: map<nat, nat>, p: nat, a: seq<Loc>, l: Loc, b: seq<Loc>)
    requires Runs(cells, up, p, a, [l], b)
    ensures l.id in up && up[l.id] == p
    ensures Runs(Detached(cells, p, l.id), up - {l.id}, p, a, [], b)
    ensures Only(cells, up, Detached(cells, p, l.id), up - {l.id}, p, Span(l))
    ensures Values(Detached(cells, p, l.id), a) == Values(cells, a)
    ensures Values(Detached(cells, p, l.id), b) == Values(cells, b)
  {
    var cells', up' := Detached(cells, p, l.id), up - {l.id};
    hide Ids, Spans, Apart, Holds, Values, Minus, Span, Holds1, Apart1;
    SingleLoc(cells, up, p, l);
    LocParts(cells, up, p, l.id, l.kids);
    IdsInSpans(a);
    MinusMiddle(Ids(a), l.id, Ids(b));
    Nothing(cells', up', p);
    assert Ids(a) + Ids(b) == Ids(a) + Ids([]) + Ids(b);
    assert Only(cells, up, cells', up', p, Span(l));
    hide Only, Separate;
    RunsChange(cells, up, cells', up', p, a, [l], b, [], Span(l));
  }

  /** A tree under a new parent. */
  lemma {:induction false} Reparented(cells: map<nat, Cell>, up: map<nat, nat>, cells': map<nat, Cell>, up': map<nat,
                                      nat>, e: nat, p: nat, l: Loc)
    requires Holds1(cells, up, e, l) && Apart1(l)
    requires l.id in up' && up'[l.id] == p && l.id in cells' && cells'[l.id] == cells[l.id]
    requires Agree(cells, up, cells', up', Spans(l.kids))
    ensures Holds1(cells', up', p, l) && Value1(cells', l) == Value1(cells, l)
  {
    Frame(cells, up, cells', up', l.id, l.kids);
  }

  /** What moving the first child f of e to just before e does to the store. */
  function Moved(cells: map<nat, Cell>, e: nat, p: nat, f: nat): map<nat, Cell>
    requires e in cells && p in cells && cells[e].ElementCell? && cells[p].ElementCell?
  {
    cells[e := cells[e].(kids := Minus(cells[e].kids, f))][p := cells[p].(kids := Before(cells[p].kids, e, f))]
  }

  lemma {:induction false} MovesKids(cells: map<nat, Cell>, e: nat, f: nat, a: seq<Loc>, rest: seq<Loc>, b: seq<Loc>,
                                     p: nat)
    requires e in cells && p in cells && e != p && cells[e].ElementCell? && cells[p].ElementCell?
    requires cells[e].kids == [f] + Ids(rest) && cells[p].kids == Ids(a) + [e] + Ids(b) && e !in Spans(a)
    ensures Moved(cells, e, p, f)[e] == cells[e].(kids := Ids(rest))
    ensures Moved(cells, e, p, f)[p] == cells[p].(kids := Ids(a) + [f] + [e] + Ids(b))
  {
    IdsInSpans(a);
    assert [] + [f] + Ids(rest) == [f] + Ids(rest) && [] + Ids(rest) == Ids(rest);
    MinusMiddle([], f, Ids(rest));
    BeforeMiddle(Ids(a), e, Ids(b), f);
    hide Ids, Minus, Before, Spans;
  }

  /** The first child and the others, as e holds them. */
  lemma {:induction false} FirstAndRest(cells: map<nat, Cell>, up: map<nat, nat>, p: nat, e: nat, f: Loc,
                                        rest: seq<Loc>)
    requires Holds1(cells, up, p, Loc(e, [f] + rest)) && Apart1(Loc(e, [f] + rest)) && cells[e].ElementCell?
    ensures e in up && up[e] == p && cells[e].kids == [f.id] + Ids(rest)
    ensures Holds1(cells, up, e, f) && Holds(cells, up, e, rest) && Apart1(f) && Apart(rest) && Span(f) !! Spans(rest)
    ensures e !in Span(f) && e !in Spans(rest) && Span(Loc(e, [f] + rest)) == {e} + Span(f) + Spans(rest)
    ensures f.id in Span(f) && f.id !in Spans(f.kids) && Spans(f.kids) <= Span(f) && f.id in up && up[f.id] == e
    ensures f.id in cells
  {
    var kids := [f] + rest;
    assert kids[0] == f && kids[1..] == rest;
  }

  lemma {:induction false} MovesUp(cells: map<nat, Cell>, up: map<nat, nat>, p: nat, a: seq<Loc>, e: nat, f: Loc,
                                   rest: seq<Loc>, b: seq<Loc>)
    requires Runs(cells, up, p, a, [Loc(e, [f] + rest)], b) && e in cells && cells[e].ElementCell?
    ensures f.id in up && up[f.id] == e && e in up && up[e] == p && cells[e].kids == [f.id] + Ids(rest)
    ensures var cells', up' := Moved(cells, e, p, f.id), up[f.id := p];
      && Runs(cells', up', p, a, [f] + [Loc(e, rest)], b) && Only(cells, up, cells', up', p, Span(Loc(e, [f] + rest)))
      && Value1(cells', f) == Value1(cells, f) && Values(cells', rest) == Values(cells, rest)
      && Values(cells', a) == Values(cells, a)
  {
    var l, l' := Loc(e, [f] + rest), Loc(e, rest);
    var cells', up' := Moved(cells, e, p, f.id), up[f.id := p];
    hide Runs, Ids, Spans, Apart, Holds, Values, Minus, Before, Value1, Holds1, Apart1, Span;
    RunsFacts(cells, up, p, a, l, b);
    FirstAndRest(cells, up, p, e, f, rest);
    MovesKids(cells, e, f.id, a, rest, b, p);
    MovesOnly(cells, up, p, e, f, rest);
    Changes(cells, up, cells', up', p, e, f, rest);
    hide Moved, Only, Agree;
    Pair(cells', up', p, f, e, rest);
    SingleLoc(cells, up, p, l);
    assert Ids(a) + [f.id] + [e] + Ids(b) == Ids(a) + ([f.id] + [e]) + Ids(b);
    RunsChange(cells, up, cells', up', p, a, [l], b, [f] + [l'], Span(l));
  }

  lemma {:induction false} RunsFacts(cells: map<nat, Cell>, up: map<nat, nat>, p: nat, a: seq<Loc>, l: Loc, b: seq<Loc>)
    requires Runs(cells, up, p, a, [l], b)
    ensures p in cells && cells[p].ElementCell? && cells[p].kids == Ids(a) + [l.id] + Ids(b)
    ensures Holds1(cells, up, p, l) && Apart1(l) && p !in Span(l) && l.id !in Spans(a) && l.id != p
  {
    SingleLoc(cells, up, p, l);
    SpanParts(l);
    hide Ids, Spans, Apart, Holds, Values, Value1, Holds1, Apart1, Span;
  }

  lemma {:induction false} Pair(cells: map<nat, Cell>, up: map<nat, nat>, p: nat, f: Loc, e: nat, rest: seq<Loc>)
    requires Holds1(cells, up, p, f) && Apart1(f) && e in cells && cells[e].ElementCell? && e in up && up[e] == p
    requires cells[e].kids == Ids(rest) && Holds(cells, up, e, rest) && Apart(rest) && e !in Spans(rest)
    requires Span(f) !! Spans(rest) && e !in Span(f)
    ensures var r := [f] + [Loc(e, rest)];
            Holds(cells, up, p, r) && Apart(r) && Spans(r) == Span(f) + {e} + Spans(rest) && Ids(r) == [f.id] + [e]
  {
    var l' := Loc(e, rest);
    hide Ids, Spans, Apart, Holds, Values, Value1, Holds1, Apart1, Span;
    SingleLoc(cells, up, p, f);
    SingleLoc(cells, up, p, l');
    LocParts(cells, up, p, e, rest);
    HoldsConcat(cells, up, p, [f], [l']);
    ApartConcat([f], [l']);
    SpansConcat([f], [l']);
    IdsConcat([f], [l']);
  }

  lemma {:induction false} MovesOnly(cells: map<nat, Cell>, up: map<nat, nat>, p: nat, e: nat, f: Loc, rest: seq<Loc>)
    requires e in cells && p in cells && e != p && cells[e].ElementCell? && cells[p].ElementCell?
    requires Span(Loc(e, [f] + rest)) == {e} + Span(f) + Spans(rest) && f.id in Span(f)
    ensures Only(cells, up, Moved(cells, e, p, f.id), up[f.id := p], p, Span(Loc(e, [f] + rest)))
  {
    hide Span, Spans, Minus, Before;
  }

  /** Below e, only e's list of children and f's parent change. */
  lemma {:induction false} Changes(cells: map<nat, Cell>, up: map<nat, nat>, cells': map<nat, Cell>, up': map<nat, nat>,
                                   p: nat, e: nat, f: Loc, rest: seq<Loc>)
    requires e in cells && p in cells && e != p && cells[e].ElementCell? && cells[p].ElementCell?
    requires cells' == Moved(cells, e, p, f.id) && up' == up[f.id := p] && cells'[e] == cells[e].(kids := Ids(rest))
    requires Holds1(cells, up, e, f) && Holds(cells, up, e, rest) && Apart1(f) && Span(f) !! Spans(rest)
    requires f.id in Span(f)
    requires e !in Span(f) && e !in Spans(rest) && p !in Span(f) && p !in Spans(rest) && p != e
    requires Spans(f.kids) <= Span(f)
    requires f.id !in Spans(f.kids) && f.id in cells
    ensures Holds1(cells', up', p, f) && Holds(cells', up', e, rest)
    ensures Value1(cells', f) == Value1(cells, f) && Values(cells', rest) == Values(cells, rest)
  {
    assert Agree(cells, up, cells', up', Spans(rest));
    assert Agree(cells, up, cells', up', Spans(f.kids));
    assert cells'[f.id] == cells[f.id];
    hide Agree, Moved, Ids, Spans, Apart, Holds, Values, Value1, Holds1, Apart1, Span;
    Frame(cells, up, cells', up', e, rest);
    Reparented(cells, up, cells', up', e, p, f);
  }

  // --------------------------------------------------- attributes in place

  /** Attributes named differently from all of these. */
  predicate Avoids(attrs: seq<Attr>, name: string) { forall k :: 0 <= k < |attrs| ==> attrs[k].name != name }

  lemma {:induction false} AvoidsNone(attrs: seq<Attr>, name: string)
    requires Avoids(attrs, name)
    ensures Get(attrs, name).None? && Without(attrs, name) == attrs
    ensures forall v :: Changed(attrs, name, v) == attrs
  {
    if attrs != [] {
      AvoidsNone(attrs[1..], name);
      assert attrs == [attrs[0]] + attrs[1..];
    }
  }

  /** Removing or changing the one attribute of a name, in the middle of a list. */
  lemma {:induction false} WithoutMiddle(done: seq<Attr>, a: Attr, rest: seq<Attr>)
    requires Avoids(done, a.name) && Avoids(rest, a.name)
    ensures Without(done + [a] + rest, a.name) == done + rest
  {
    AvoidsNone(done, a.name);
    AvoidsNone(rest, a.name);
    WithoutConcat(done + [a], rest, a.name);
    WithoutConcat(done, [a], a.name);
    assert [a][1..] == [] && Without([], a.name) == [];
    assert Without([a], a.name) == [] + [];
    hide Without;
    assert done + [] == done;
  }

  lemma {:induction false} WithMiddle(done: seq<Attr>, a: Attr, rest: seq<Attr>, v: string)
    requires Avoids(done, a.name) && Avoids(rest, a.name)
    ensures With(done + [a] + rest, a.name, v) == done + [Attr(a.name, v)] + rest
  {
    AvoidsNone(done, a.name);
    AvoidsNone(rest, a.name);
    ChangedConcat(done + [a], rest, a.name, v);
    ChangedConcat(done, [a], a.name, v);
    GetConcat(done + [a], rest, a.name);
    GetConcat(done, [a], a.name);
    GetOne(a, a.name);
    assert [a][1..] == [] && Changed([], a.name, v) == [];
    assert Changed([a], a.name, v) == [Attr(a.name, v)] + [];
    hide Get, Changed;
  }

  lemma {:induction false} SiftAvoids(tag: string, attrs: seq<Attr>, name: string)
    requires Avoids(attrs, name)
    ensures Avoids(Sift(tag, attrs), name)
  {
    if attrs != [] {
      SiftAvoids(tag, attrs[1..], name);
      assert Avoids(Sift1(tag, attrs[0]), name) by { hide Allows, CleanStyle; }
      hide Sift1;
    }
  }

  lemma {:induction false} SiftDistinct(tag: string, attrs: seq<Attr>)
    requires Distinct(attrs)
    ensures Distinct(Sift(tag, attrs))
  {
    if attrs != [] {
      SiftDistinct(tag, attrs[1..]);
      assert Avoids(attrs[1..], attrs[0].name);
      SiftAvoids(tag, attrs[1..], attrs[0].name);
      assert |Sift1(tag, attrs[0])| <= 1
             && (Sift1(tag, attrs[0]) != [] ==> Sift1(tag, attrs[0])[0].name == attrs[0].name) by {
        hide Allows, CleanStyle;
      }
      hide Sift1;
    }
  }

  lemma {:induction false} WithoutAvoids(attrs: seq<Attr>, name: string, n: string)
    requires Avoids(attrs, n)
    ensures Avoids(Without(attrs, name), n)
  {
    if attrs != [] { WithoutAvoids(attrs[1..], name, n); }
  }

  lemma {:induction false} WithoutDistinct(attrs: seq<Attr>, name: string)
    requires Distinct(attrs)
    ensures Distinct(Without(attrs, name))
  {
    if attrs != [] {
      WithoutDistinct(attrs[1..], name);
      assert Avoids(attrs[1..], attrs[0].name);
      WithoutAvoids(attrs[1..], name, attrs[0].name);
    }
  }

  lemma {:induction false} WithDistinct(attrs: seq<Attr>, name: string, v: string)
    requires Distinct(attrs)
    ensures Distinct(With(attrs, name, v))
  {
    GetTells(attrs, name);
    ChangedNames(attrs, name, v);
    hide Get, Changed;
  }

  lemma {:induction false} GetTells(attrs: seq<Attr>, name: string)
    ensures Get(attrs, name).None? ==> Avoids(attrs, name)
  {
    if attrs != [] { GetTells(attrs[1..], name); }
  }

  lemma {:induction false} ChangedNames(attrs: seq<Attr>, name: string, v: string)
    ensures |Changed(attrs, name, v)| == |attrs| && forall k :: 0 <= k < |attrs| ==>
        Changed(attrs, name, v)[k].name == attrs[k].name
  {
    if attrs != [] { ChangedNames(attrs[1..], name, v); }
  }

  lemma {:induction false} CleanDistinct(parse: UrlParser, remote: bool, tag: string, attrs: seq<Attr>)
    requires Distinct(attrs)
    ensures Distinct(CleanAttrs(parse, remote, tag, attrs))
  {
    SiftDistinct(tag, attrs);
    var s := Sift(tag, attrs);
    hide Distinct, Sift, Get, Without, With;
    if tag == "a" {
      WithoutDistinct(s, "href");
      var href := SafeUrl(parse, Get(s, "href"));
      if href.Some? {
        WithDistinct(s, "href", href.value);
        WithDistinct(With(s, "href", href.value), "target", "_blank");
        WithDistinct(With(With(s, "href", href.value), "target", "_blank"), "rel", "noopener noreferrer");
      }
    } else if tag == "img" {
      WithoutDistinct(s, "src");
      var a := DropBadSource(parse, remote, s);
      WithoutDistinct(a, "width");
      WithoutDistinct(DropBadSize(a, "width"), "height");
    }
  }

  lemma {:induction false} OnlyTrans(c0: map<nat, Cell>, u0: map<nat, nat>, c1: map<nat, Cell>, u1: map<nat, nat>,
                                     c2: map<nat, Cell>, u2: map<nat, nat>, p: nat, s: set<nat>, t: set<nat>)
    requires Only(c0, u0, c1, u1, p, s) && Only(c1, u1, c2, u2, p, t) && t <= s
    ensures Only(c0, u0, c2, u2, p, s)
  {
  }

  lemma {:induction false} SiftEnds(tag: string, attrs: seq<Attr>)
    ensures Sift(tag, attrs[..0]) + attrs[0..] == attrs
    ensures Sift(tag, attrs[..|attrs|]) + attrs[|attrs|..] == Sift(tag, attrs)
  {
    assert Sift(tag, []) == [] && attrs[..|attrs|] == attrs && attrs[|attrs|..] == [];
    assert Sift(tag, attrs) + [] == Sift(tag, attrs);
  }

  /** What the loop does with one attribute, the ones before it sifted already. */
  lemma {:induction false} SiftStep(tag: string, attrs: seq<Attr>, i: nat)
    requires i < |attrs| && Distinct(attrs)
    ensures var a, now, after := attrs[i], Sift(tag, attrs[..i]) + attrs[i..], Sift(tag, attrs[..i + 1])
        + attrs[i + 1..];
      && (!Allows(tag, a.name) ==> Without(now, a.name) == after)
      && (Allows(tag, a.name) && a.name == "style" && CleanStyle(a.value) == "" ==> Without(now, "style") == after)
      && (Allows(tag, a.name) && a.name == "style" && CleanStyle(a.value) != "" ==>
          With(now, "style", CleanStyle(a.value)) == after)
      && (Allows(tag, a.name) && a.name != "style" ==> now == after)
  {
    hide Sift, Sift1, With, Without, Distinct, Avoids, CleanStyle, Allows;
    var a, done, rest := attrs[i], Sift(tag, attrs[..i]), attrs[i + 1..];
    assert Avoids(done, a.name) && Avoids(rest, a.name) by { OthersAvoid(tag, attrs, i); }
    SiftGrows(tag, attrs, i);
    Sift1Is(tag, a);
    WithoutMiddle(done, a, rest);
    WithMiddle(done, a, rest, CleanStyle(a.value));
    assert attrs[i..] == [a] + rest && done + ([a] + rest) == done + [a] + rest;
    assert done + [] == done;
  }

  lemma {:induction false} OthersAvoid(tag: string, attrs: seq<Attr>, i: nat)
    requires i < |attrs| && Distinct(attrs)
    ensures Avoids(Sift(tag, attrs[..i]), attrs[i].name) && Avoids(attrs[i + 1..], attrs[i].name)
  {
    assert Avoids(attrs[..i], attrs[i].name);
    SiftAvoids(tag, attrs[..i], attrs[i].name);
    hide Sift;
  }

  lemma {:induction false} SiftGrows(tag: string, attrs: seq<Attr>, i: nat)
    requires i < |attrs|
    ensures Sift(tag, attrs[..i + 1]) == Sift(tag, attrs[..i]) + Sift1(tag, attrs[i])
  {
    assert attrs[..i + 1] == attrs[..i] + [attrs[i]];
    SiftConcat(tag, attrs[..i], [attrs[i]]);
    SiftSingle(tag, attrs[i]);
    hide Sift, Sift1;
  }

  lemma {:induction false} Sift1Is(tag: string, a: Attr)
    ensures Sift1(tag, a) == if !Allows(tag, a.name) || (a.name == "style" && CleanStyle(a.value) == "") then []
                             else [if a.name == "style" then Attr("style", CleanStyle(a.value)) else a]
  {
    hide Allows, CleanStyle;
  }

  // ------------------------------------------------------- unwrapping, by parts

  lemma {:induction false} Regroup(cells: map<nat, Cell>, up: map<nat, nat>, p: nat, a: seq<Loc>, m: seq<Loc>,
                                   n: seq<Loc>, b: seq<Loc>)
    ensures Runs(cells, up, p, a, m + n, b) <==> Runs(cells, up, p, a + m, n, b)
    ensures Runs(cells, up, p, a + m, [], b) <==> Runs(cells, up, p, a, m, b)
  {
    UnderRuns(cells, up, p, a, m + n, b);
    UnderRuns(cells, up, p, a + m, n, b);
    UnderRuns(cells, up, p, a + m, [], b);
    UnderRuns(cells, up, p, a, m, b);
    hide Under, Runs;
    assert a + (m + n) + b == (a + m) + n + b && (a + m) + [] + b == a + m + b;
  }

  lemma {:induction false} ValuesSize(cells: map<nat, Cell>, ls: seq<Loc>)
    ensures |Values(cells, ls)| == |ls|
  {
    if ls != [] { ValuesSize(cells, ls[1..]); }
  }

  /** The values of a longer list agree, so those of its parts do. */
  lemma {:induction false} ValuesParts(cells: map<nat, Cell>, cells': map<nat, Cell>, a: seq<Loc>, b: seq<Loc>)
    requires Values(cells', a + b) == Values(cells, a + b)
    ensures Values(cells', a) == Values(cells, a) && Values(cells', b) == Values(cells, b)
  {
    ValuesConcat(cells, a, b);
    ValuesConcat(cells', a, b);
    ValuesSize(cells, a);
    ValuesSize(cells', a);
    hide Values;
    assert Values(cells, a) == Values(cells, a + b)[..|a|] && Values(cells', a) == Values(cells', a + b)[..|a|];
    assert Values(cells, b) == Values(cells, a + b)[|a|..] && Values(cells', b) == Values(cells', a + b)[|a|..];
  }

  lemma {:induction false} RaiseStart(cells: map<nat, Cell>, up: map<nat, nat>, p: nat, a: seq<Loc>, el: nat,
                                      kids: seq<Loc>, b: seq<Loc>)
    requires Runs(cells, up, p, a, [Loc(el, kids)], b) && el in cells && cells[el].ElementCell?
    ensures cells[el].kids == Ids(kids) && Values(cells, []) + Values(cells, kids) == Values(cells, kids)
    ensures Only(cells, up, cells, up, p, Span(Loc(el, kids)))
  {
    SingleLoc(cells, up, p, Loc(el, kids));
    LocParts(cells, up, p, el, kids);
    Nothing(cells, up, p);
    hide Ids, Spans, Span, Holds, Holds1, Apart, Apart1, Separate;
  }

  lemma {:induction false} RaiseStep(cells: map<nat, Cell>, up: map<nat, nat>, p: nat, a: seq<Loc>, moved: seq<Loc>,
                                     el: nat, f: Loc, rest: seq<Loc>, b: seq<Loc>)
    requires Runs(cells, up, p, a + moved, [Loc(el, [f] + rest)], b) && el in cells && cells[el].ElementCell?
    ensures el in up && up[el] == p && p in cells && cells[p].ElementCell? && p != el
    ensures cells[el].kids == [f.id] + Ids(rest)
    ensures var cells', up' := Moved(cells, el, p, f.id), up[f.id := p];
      && Runs(cells', up', p, a + (moved + [f]), [Loc(el, rest)], b)
      && Values(cells', moved + [f]) + Values(cells', rest) == Values(cells, moved) + Values(cells, [f] + rest)
      && Only(cells, up, cells', up', p, Span(Loc(el, [f] + rest))) && Span(Loc(el, rest)) <= Span(Loc(el, [f] + rest))
      && el in cells' && cells'[el].ElementCell? && cells'[el].kids == Ids(rest)
  {
    var cells', up' := Moved(cells, el, p, f.id), up[f.id := p];
    hide Runs, Only, Values, Ids, Span, Spans, Moved, Value1, Apart, Apart1, Holds, Holds1;
    MovesUp(cells, up, p, a + moved, el, f, rest, b);
    RunsParent(cells, up, p, a + moved, el, [f] + rest, b);
    Regroup(cells', up', p, a + moved, [f], [Loc(el, rest)], b);
    assert a + moved + [f] == a + (moved + [f]);
    RunsEnd(cells', up', p, a + (moved + [f]), el, rest, b);
    MovedKinds(cells, el, p, f.id);
    assert Span(Loc(el, rest)) <= Span(Loc(el, [f] + rest)) by {
      SpansConcat([f], rest);
      LocParts(cells, up, p, el, rest);
      LocParts(cells, up, p, el, [f] + rest);
    }
    RaiseValues(cells, cells', a, moved, f, rest);
  }

  lemma {:induction false} RaiseValues(cells: map<nat, Cell>, cells': map<nat, Cell>, a: seq<Loc>, moved: seq<Loc>,
                                       f: Loc, rest: seq<Loc>)
    requires Values(cells', a + moved) == Values(cells, a + moved)
    requires Value1(cells', f) == Value1(cells, f) && Values(cells', rest) == Values(cells, rest)
    ensures Values(cells', moved + [f]) + Values(cells', rest) == Values(cells, moved) + Values(cells, [f] + rest)
  {
    ValuesParts(cells, cells', a, moved);
    ValuesConcat(cells', moved, [f]);
    ValuesConcat(cells, [f], rest);
    SingleLoc(cells, map[], 0, f);
    SingleLoc(cells', map[], 0, f);
    hide Values, Value1, Ids, Spans, Span, Apart, Apart1, Holds, Holds1;
    assert Values(cells', moved) + [Value1(cells', f)] + Values(cells', rest) == Values(cells, moved)
           + ([Value1(cells, f)] + Values(cells, rest));
  }

  lemma {:induction false} MovedKinds(cells: map<nat, Cell>, el: nat, p: nat, f: nat)
    requires el in cells && p in cells && cells[el].ElementCell? && cells[p].ElementCell?
    ensures el in Moved(cells, el, p, f) && Moved(cells, el, p, f)[el].ElementCell?
  {
  }

  lemma {:induction false} RunsParent(cells: map<nat, Cell>, up: map<nat, nat>, p: nat, a: seq<Loc>, el: nat,
                                      kids: seq<Loc>, b: seq<Loc>)
    requires Runs(cells, up, p, a, [Loc(el, kids)], b)
    ensures p in cells && cells[p].ElementCell? && el in up && up[el] == p && p != el && el in cells
  {
    SingleLoc(cells, up, p, Loc(el, kids));
    LocParts(cells, up, p, el, kids);
    hide Ids, Spans, Span, Holds, Holds1, Apart, Apart1;
  }

  lemma {:induction false} RunsEnd(cells: map<nat, Cell>, up: map<nat, nat>, p: nat, a: seq<Loc>, el: nat,
                                   kids: seq<Loc>, b: seq<Loc>)
    requires Runs(cells, up, p, a, [Loc(el, kids)], b)
    ensures el in cells && cells[el].ElementCell? ==> cells[el].kids == Ids(kids)
  {
    SingleLoc(cells, up, p, Loc(el, kids));
    LocParts(cells, up, p, el, kids);
    hide Ids, Spans, Span, Holds, Holds1, Apart, Apart1, Separate;
  }

  lemma {:induction false} SameNames(cells: map<nat, Cell>, el: nat, p: nat, f: nat)
    requires el in cells && p in cells && cells[el].ElementCell? && cells[p].ElementCell? && Named(cells)
    ensures Named(Moved(cells, el, p, f)) && Named(Detached(cells, p, f))
  {
    hide Distinct, Minus, Before;
  }

  lemma {:induction false} RaiseEnd(cells: map<nat, Cell>, up: map<nat, nat>, p: nat, a: seq<Loc>, kids: seq<Loc>,
                                    el: nat, b: seq<Loc>)
    requires Runs(cells, up, p, a + kids, [Loc(el, [])], b)
    ensures el in up && up[el] == p && p in cells && cells[p].ElementCell?
    ensures var cells', up' := Detached(cells, p, el), up - {el};
      && Runs(cells', up', p, a, kids, b) && Values(cells', kids) == Values(cells, kids)
      && Only(cells, up, cells', up', p, Span(Loc(el, [])))
  {
    RunsParent(cells, up, p, a + kids, el, [], b);
    Detaches(cells, up, p, a + kids, Loc(el, []), b);
    hide Runs, Only, Values, Ids, Span, Spans, Detached;
    Regroup(Detached(cells, p, el), up - {el}, p, a, kids, [], b);
    ValuesParts(cells, Detached(cells, p, el), a, kids);
  }

  // ------------------------------------------------------- one node, by parts

  /** One of p's children has given way to others; its siblings and all else are as before. */
  ghost predicate Replaced(c0: map<nat, Cell>, u0: map<nat, nat>, c: map<nat, Cell>, u: map<nat, nat>, p: nat,
                           a: seq<Loc>, l: Loc, b: seq<Loc>, r: seq<Loc>) {
    && Runs(c, u, p, a, r, b) && Spans(r) <= Span(l) && Only(c0, u0, c, u, p, Span(l)) && Named(c)
    && Values(c, a) == Values(c0, a) && Values(c, b) == Values(c0, b)
  }

  lemma {:induction false} Stays(c: map<nat, Cell>, u: map<nat, nat>, p: nat, a: seq<Loc>, l: Loc, b: seq<Loc>)
    requires Runs(c, u, p, a, [l], b) && Named(c)
    ensures Replaced(c, u, c, u, p, a, l, b, [l])
    ensures l.id in c && l.id in u && u[l.id] == p && p in c && c[p].ElementCell? && p != l.id && p !in Span(l)
    ensures Holds1(c, u, p, l) && Apart1(l) && Values(c, [l]) == [Value1(c, l)]
  {
    SingleLoc(c, u, p, l);
    LocParts(c, u, p, l.id, l.kids);
    hide Ids, Spans, Span, Holds, Holds1, Apart, Apart1, Values, Value1, Named;
  }

  lemma {:induction false} Goes(c0: map<nat, Cell>, u0: map<nat, nat>, c: map<nat, Cell>, u: map<nat, nat>, p: nat,
                                a: seq<Loc>, l: Loc, b: seq<Loc>, l': Loc)
    requires Replaced(c0, u0, c, u, p, a, l, b, [l'])
    ensures l'.id in u && u[l'.id] == p && p in c && c[p].ElementCell?
    ensures Replaced(c0, u0, Detached(c, p, l'.id), u - {l'.id}, p, a, l, b, [])
  {
    hide Spans, Span, Values, Runs, Only, Named;
    Stays(c, u, p, a, l', b);
    Detaches(c, u, p, a, l', b);
    SingleLoc(c, u, p, l');
    Nothing(c, u, p);
    OnlyTrans(c0, u0, c, u, Detached(c, p, l'.id), u - {l'.id}, p, Span(l), Span(l'));
    KeepsNames(c, p, l'.id);
  }

  lemma {:induction false} KeepsNames(c: map<nat, Cell>, p: nat, id: nat)
    requires p in c && c[p].ElementCell? && Named(c)
    ensures Named(Detached(c, p, id))
  {
    hide Distinct, Minus;
  }

  /** An element is the parent of its children. */
  lemma {:induction false} Below(c: map<nat, Cell>, u: map<nat, nat>, p: nat, l: Loc)
    requires Holds1(c, u, p, l) && Apart1(l) && c[l.id].ElementCell?
    ensures Under(c, u, l.id, l.kids)
    ensures Value1(c, l) == Element(c[l.id].tag, c[l.id].attrs, Values(c, l.kids))
  {
  }

  /** A change below an element of p's is a change below p. */
  lemma {:induction false} Deeper(c0: map<nat, Cell>, u0: map<nat, nat>, c: map<nat, Cell>, u: map<nat, nat>, p: nat,
                                  l: Loc)
    requires Only(c0, u0, c, u, l.id, Spans(l.kids)) && p !in Span(l) && p in c0 && c0[p].ElementCell?
    ensures Only(c0, u0, c, u, p, Span(l)) && c[p] == c0[p] && p in c
    ensures l.id in c0 && l.id in c && c[l.id].ElementCell? && c0[l.id].ElementCell?
    ensures c[l.id] == c0[l.id].(kids := c[l.id].kids)
    ensures l.id in u0 && l.id !in Spans(l.kids) ==> l.id in u && u[l.id] == u0[l.id]
  {
    SpanParts(l);
    hide Span, Spans;
  }

  /** The children have been cleaned. */
  lemma {:induction false} KidsCleaned(c0: map<nat, Cell>, u0: map<nat, nat>, c: map<nat, Cell>, u: map<nat, nat>,
                                       p: nat,
                                       a: seq<Loc>, l: Loc, b: seq<Loc>, k: seq<Loc>)
    requires Runs(c0, u0, p, a, [l], b) && Named(c0) && l.id in c0 && c0[l.id].ElementCell?
    requires Under(c, u, l.id, k) && Spans(k) <= Spans(l.kids) && Only(c0, u0, c, u, l.id, Spans(l.kids)) && Named(c)
    ensures Replaced(c0, u0, c, u, p, a, l, b, [Loc(l.id, k)])
    ensures l.id in c && c[l.id].ElementCell? && c[l.id].tag == c0[l.id].tag && c[l.id].attrs == c0[l.id].attrs
  {
    Stays(c0, u0, p, a, l, b);
    hide Ids, Spans, Span, Holds, Holds1, Apart, Apart1, Values, Value1, Named, Only, Runs;
    Deeper(c0, u0, c, u, p, l);
    SpanParts(l);
    LocParts(c0, u0, p, l.id, l.kids);
    LocParts(c, u, p, l.id, k);
    SingleLoc(c0, u0, p, l);
    SingleLoc(c, u, p, Loc(l.id, k));
    RunsKids(c0, u0, p, a, l, b);
    RunsChange(c0, u0, c, u, p, a, [l], b, [Loc(l.id, k)], Span(l));
  }

  lemma {:induction false} RunsKids(c: map<nat, Cell>, u: map<nat, nat>, p: nat, a: seq<Loc>, l: Loc, b: seq<Loc>)
    requires Runs(c, u, p, a, [l], b)
    ensures p in c && c[p].ElementCell? && c[p].kids == Ids(a) + Ids([l]) + Ids(b)
  {
    hide Ids, Holds, Separate;
  }

  /** The element's attributes have been cleaned. */
  lemma {:induction false} AttrsCleaned(c0: map<nat, Cell>, u0: map<nat, nat>, c: map<nat, Cell>, u: map<nat, nat>,
                                        p: nat,
                                        a: seq<Loc>, l: Loc, b: seq<Loc>, l': Loc, attrs: seq<Attr>)
    requires Replaced(c0, u0, c, u, p, a, l, b, [l']) && l'.id in c && c[l'.id].ElementCell? && Distinct(attrs)
    ensures var c' := c[l'.id := c[l'.id].(attrs := attrs)];
      Replaced(c0, u0, c', u, p, a, l, b, [l'])
        && Values(c', [l']) == [Element(c[l'.id].tag, attrs, Values(c, l'.kids))]
  {
    var c' := c[l'.id := c[l'.id].(attrs := attrs)];
    Stays(c, u, p, a, l', b);
    SpanParts(l');
    SingleLoc(c', u, p, l');
    RunsKids(c, u, p, a, l', b);
    assert Only(c, u, c', u, p, {l'.id});
    assert Agree(c, u, c', u, Spans(l'.kids)) && l'.id !in Spans(l'.kids);
    LocParts(c, u, p, l'.id, l'.kids);
    LocParts(c', u, p, l'.id, l'.kids);
    assert Value1(c', l') == Element(c[l'.id].tag, attrs, Values(c', l'.kids));
    SingleLoc(c, u, p, l');
    hide Ids, Spans, Span, Holds, Holds1, Apart, Apart1, Values, Value1, Runs, Agree, Distinct;
    Frame(c, u, c', u, l'.id, l'.kids);
    RunsChange(c, u, c', u, p, a, [l'], b, [l'], {l'.id});
    assert Named(c');
    assert {l'.id} <= Span(l);
    hide Named;
    OnlyTrans(c0, u0, c, u, c', u, p, Span(l), {l'.id});
  }

  // ---------------------------------------------------------------- the walk

  class Dom {
    var cells: map<nat, Cell>
    var up: map<nat, nat>

    /** node.remove() */
    method Remove(id: nat)
      requires id in up && up[id] in cells && cells[up[id]].ElementCell?
      modifies this
      ensures cells == Detached(old(cells), old(up)[id], id) && up == old(up) - {id}
    {
      var p := up[id];
      cells := cells[p := cells[p].(kids := Minus(cells[p].kids, id))];
      up := up - {id};
    }

    /** el.parentNode.insertBefore(el.firstChild, el) */
    method RaiseFirst(el: nat)
      requires el in cells && cells[el].ElementCell? && cells[el].kids != []
      requires el in up && up[el] in cells && cells[up[el]].ElementCell? && up[el] != el
      modifies this
      ensures var f := old(cells)[el].kids[0];
              cells == Moved(old(cells), el, old(up)[el], f) && up == old(up)[f := old(up)[el]]
    {
      var f, p := cells[el].kids[0], up[el];
      cells := cells[el := cells[el].(kids := Minus(cells[el].kids, f))];
      cells := cells[p := cells[p].(kids := Before(cells[p].kids, el, f))];
      up := up[f := p];
    }

    method SetAttribute(el: nat, name: string, value: string)
      requires el in cells && cells[el].ElementCell?
      modifies `cells
      ensures cells == old(cells)[el := old(cells)[el].(attrs := With(old(cells)[el].attrs, name, value))]
    {
      cells := cells[el := cells[el].(attrs := With(cells[el].attrs, name, value))];
    }

    method RemoveAttribute(el: nat, name: string)
      requires el in cells && cells[el].ElementCell?
      modifies `cells
      ensures cells == old(cells)[el := old(cells)[el].(attrs := Without(old(cells)[el].attrs, name))]
    {
      cells := cells[el := cells[el].(attrs := Without(cells[el].attrs, name))];
    }

    /** The loop over a static copy of the attributes. */
    method SiftAttributes(el: nat, tag: string)
      requires el in cells && cells[el].ElementCell? && Distinct(cells[el].attrs)
      modifies `cells
      ensures cells == old(cells)[el := old(cells)[el].(attrs := Sift(tag, old(cells)[el].attrs))]
    {
      hide Allows, CleanStyle, Sift, With, Without;
      var snapshot := cells[el].attrs;
      var i := 0;
      SiftEnds(tag, snapshot);
      while i < |snapshot|
        invariant i <= |snapshot| && el in cells && cells[el].ElementCell?
        invariant cells == old(cells)[el := old(cells)[el].(attrs := Sift(tag, snapshot[..i]) + snapshot[i..])]
      {
        SiftStep(tag, snapshot, i);
        var a := snapshot[i];
        i := i + 1;
        if !Allows(tag, a.name) {
          RemoveAttribute(el, a.name);
          continue;
        }
        if a.name == "style" {
          var style := CleanStyleLoop(a.value);
          if style != "" { SetAttribute(el, "style", style); } else { RemoveAttribute(el, "style"); }
        }
      }
    }

    method CleanAttributes(el: nat, tag: string, parse: UrlParser, remote: bool)
      requires el in cells && cells[el].ElementCell? && Distinct(cells[el].attrs)
      modifies `cells
      ensures cells == old(cells)[el := old(cells)[el].(attrs := CleanAttrs(parse, remote, tag, old(cells)[el].attrs))]
    {
      hide Sift, Get, Without, Changed, With, IsDataImage, Trim, Digits, Distinct;
      SiftAttributes(el, tag);
      if tag == "a" {
        var href := SafeUrl(parse, Get(cells[el].attrs, "href"));
        if href.Some? {
          SetAttribute(el, "href", href.value);
          SetAttribute(el, "target", "_blank");
          SetAttribute(el, "rel", "noopener noreferrer");
        } else {
          RemoveAttribute(el, "href");
        }
      }
      if tag == "img" {
        var src := Get(cells[el].attrs, "src");
        var value := if src.Some? then src.value else "";
        if src.None? { WithoutNone(cells[el].attrs, "src"); }
        var remoteOk := remote && IsHttpUrl(parse, value);
        if !IsDataImage(value) && !remoteOk { RemoveAttribute(el, "src"); }
        var width := Get(cells[el].attrs, "width");
        if width.Some? && !Digits(Trim(width.value)) { RemoveAttribute(el, "width"); }
        var height := Get(cells[el].attrs, "height");
        if height.Some? && !Digits(Trim(height.value)) { RemoveAttribute(el, "height"); }
      }
    }

    /** Replaces an element with its children, one by one. */
    method Unwrap(el: nat, ghost p: nat, ghost a: seq<Loc>, ghost kids: seq<Loc>, ghost b: seq<Loc>)
      requires Runs(cells, up, p, a, [Loc(el, kids)], b) && el in cells && cells[el].ElementCell? && Named(cells)
      modifies this
      ensures Runs(cells, up, p, a, kids, b) && Values(cells, kids) == old(Values(cells, kids))
      ensures Only(old(cells), old(up), cells, up, p, Span(Loc(el, kids))) && Named(cells)
    {
      hide Runs, Only, Span, Values, Ids, Named;
      ghost var moved, rest := [], kids;
      assert a + moved == a && moved + rest == kids;
      RaiseStart(cells, up, p, a, el, kids, b);
      while cells[el].kids != []
        invariant moved + rest == kids && el in cells && cells[el].ElementCell? && cells[el].kids == Ids(rest)
        invariant Named(cells)
        invariant Runs(cells, up, p, a + moved, [Loc(el, rest)], b)
        invariant Values(cells, moved) + Values(cells, rest) == old(Values(cells, kids))
        invariant Span(Loc(el, rest)) <= Span(Loc(el, kids))
        invariant Only(old(cells), old(up), cells, up, p, Span(Loc(el, kids)))
        decreases |rest|
      {
        IdsFull(rest);
        ghost var f := rest[0];
        ghost var c0, u0 := cells, up;
        assert rest == [f] + rest[1..];
        RaiseStep(cells, up, p, a, moved, el, f, rest[1..], b);
        RaiseFirst(el);
        OnlyTrans(old(cells), old(up), c0, u0, cells, up, p, Span(Loc(el, kids)), Span(Loc(el, rest)));
        SameNames(c0, el, p, f.id);
        moved, rest := moved + [f], rest[1..];
        assert moved + rest == kids;
        assert a + (moved[..|moved| - 1] + [f]) == a + moved;
      }
      IdsFull(rest);
      assert rest == [] && moved == kids && a + moved == a + kids;
      Nothing(cells, up, p);
      assert Values(cells, kids) + [] == Values(cells, kids);
      ghost var c0, u0 := cells, up;
      RaiseEnd(cells, up, p, a, kids, el, b);
      SameNames(cells, el, p, el);
      Remove(el);
      OnlyTrans(old(cells), old(up), c0, u0, cells, up, p, Span(Loc(el, kids)), Span(Loc(el, [])));
    }

    method CleanNode(id: nat, parse: UrlParser, remote: bool, ghost p: nat, ghost a: seq<Loc>, ghost l: Loc,
                     ghost b: seq<Loc>)
      returns (ghost r: seq<Loc>)
      requires Runs(cells, up, p, a, [l], b) && Named(cells) && l.id == id
      modifies this
      ensures Replaced(old(cells), old(up), cells, up, p, a, l, b, r)
      ensures Values(cells, r) == Sanitizer.CleanNode(parse, remote, old(Value1(cells, l)))
      decreases l, 0
    {
      hide Runs, Replaced, Named, Only, Under, Holds, Apart, Apart1, Span, Spans, Ids, Values, Distinct, CleanAttrs,
           Holds1, Value1;
      Stays(cells, up, p, a, l, b);
      ghost var c0, u0 := cells, up;
      NothingAt(cells);
      if !cells[id].ElementCell? {
        ValueOfLeaf(cells, l);
        if cells[id].TextCell? { return [l]; }
        Goes(c0, u0, cells, up, p, a, l, b, l);
        Remove(id);
        NothingAt(cells);
        return [];
      }
      Below(cells, up, p, l);
      var tag := cells[id].tag;
      if tag in DROP_SUBTREE {
        Goes(c0, u0, cells, up, p, a, l, b, l);
        Remove(id);
        NothingAt(cells);
        return [];
      }
      ghost var k := CleanChildren(id, parse, remote, l.kids);
      KidsCleaned(c0, u0, cells, up, p, a, l, b, k);
      ghost var l' := Loc(id, k);
      if tag !in ALLOWED_TAGS {
        ghost var c1, u1 := cells, up;
        ReplacedRuns(c0, u0, cells, up, p, a, l, b, [l']);
        Unwrap(id, p, a, k, b);
        Unwrapped(c0, u0, c1, u1, cells, up, p, a, l, b, l');
        return k;
      }
      NamedAt(cells, id);
      CleanDistinct(parse, remote, tag, cells[id].attrs);
      AttrsCleaned(c0, u0, cells, up, p, a, l, b, l', CleanAttrs(parse, remote, tag, cells[id].attrs));
      CleanAttributes(id, tag, parse, remote);
      if tag == "img" && Missing(cells[id].attrs) {
        Goes(c0, u0, cells, up, p, a, l, b, l');
        Remove(id);
        NothingAt(cells);
        return [];
      }
      return [l'];
    }

    /** Cleans the children found at the outset, whatever becomes of each. */
    method CleanChildren(p: nat, parse: UrlParser, remote: bool, ghost ls: seq<Loc>) returns (ghost r: seq<Loc>)
      requires Under(cells, up, p, ls) && Named(cells)
      modifies this
      ensures Under(cells, up, p, r) && Spans(r) <= Spans(ls) && Only(old(cells), old(up), cells, up, p, Spans(ls))
      ensures Named(cells)
      ensures Values(cells, r) == CleanAll(parse, remote, old(Values(cells, ls)))
      decreases ls, 1
    {
      var snapshot := cells[p].kids;
      hide Runs, Replaced, Named, Only, Under, Holds, Apart, Span, Spans, Ids, Values, Sanitizer.CleanNode, Value1;
      var i := 0;
      r := [];
      ghost var c0, u0 := cells, up;
      WalkStart(cells, up, p, ls, parse, remote);
      while i < |snapshot|
        invariant i <= |snapshot| == |ls| && snapshot == Ids(ls)
        invariant Walked(c0, u0, cells, up, p, ls, i, r) && Named(cells)
        invariant Values(cells, r) == CleanAll(parse, remote, Values(c0, ls[..i]))
      {
        ghost var c1, u1, l, rest := cells, up, ls[i], ls[i + 1..];
        WalkTurn(c0, u0, cells, up, p, ls, i, r);
        IdAt(ls, i);
        ghost var r1 := CleanNode(snapshot[i], parse, remote, p, r, l, rest);
        WalkNext(c0, u0, c1, u1, cells, up, p, ls, i, r, r1);
        WalkValues(c0, c1, cells, ls, i, r, r1, parse, remote);
        r := r + r1;
        i := i + 1;
      }
      WalkEnd(c0, u0, cells, up, p, ls, r);
    }

    /** Sanitizes everything below the document's body. */
    method Sanitize(body: nat, parse: UrlParser, remote: bool, ghost ls: seq<Loc>) returns (ghost r: seq<Loc>)
      requires Under(cells, up, body, ls) && Named(cells)
      modifies this
      ensures Under(cells, up, body, r)
      ensures Values(cells, r) == CleanAll(parse, remote, old(Values(cells, ls)))
    {
      r := CleanChildren(body, parse, remote, ls);
    }
  }

  lemma {:induction false} IdsFull(ls: seq<Loc>)
    ensures Ids(ls) == [] <==> ls == []
  {
  }

  lemma {:induction false} NothingAt(c: map<nat, Cell>)
    ensures Values(c, []) == []
  {
  }

  lemma {:induction false} ValueOfLeaf(c: map<nat, Cell>, l: Loc)
    requires l.id in c && !c[l.id].ElementCell?
    ensures Value1(c, l) == if c[l.id].TextCell? then Text(c[l.id].data) else Other
  {
  }

  lemma {:induction false} NamedAt(c: map<nat, Cell>, id: nat)
    requires Named(c) && id in c && c[id].ElementCell?
    ensures Distinct(c[id].attrs)
  {
  }

  lemma {:induction false} ReplacedRuns(c0: map<nat, Cell>, u0: map<nat, nat>, c: map<nat, Cell>, u: map<nat, nat>,
                                        p: nat,
                                        a: seq<Loc>, l: Loc, b: seq<Loc>, r: seq<Loc>)
    requires Replaced(c0, u0, c, u, p, a, l, b, r)
    ensures Runs(c, u, p, a, r, b) && Named(c)
  {
  }

  lemma {:induction false} Unwrapped(c0: map<nat, Cell>, u0: map<nat, nat>, c1: map<nat, Cell>, u1: map<nat, nat>,
                                     c: map<nat, Cell>, u: map<nat, nat>, p: nat,
                                     a: seq<Loc>, l: Loc, b: seq<Loc>, l': Loc)
    requires Replaced(c0, u0, c1, u1, p, a, l, b, [l']) && Runs(c, u, p, a, l'.kids, b)
    requires Only(c1, u1, c, u, p, Span(l')) && Named(c)
    ensures Replaced(c0, u0, c, u, p, a, l, b, l'.kids)
  {
    hide Runs, Only, Values, Named, Span, Spans;
    SingleLoc(c1, u1, p, l');
    SpanParts(l');
    OnlyTrans(c0, u0, c1, u1, c, u, p, Span(l), Span(l'));
    SiblingsStay(c1, u1, c, u, p, a, l', b);
  }

  lemma {:induction false} SiblingsStay(c1: map<nat, Cell>, u1: map<nat, nat>, c: map<nat, Cell>, u: map<nat, nat>,
                                        p: nat, a: seq<Loc>, l: Loc, b: seq<Loc>)
    requires Runs(c1, u1, p, a, [l], b) && Only(c1, u1, c, u, p, Span(l))
    ensures Values(c, a) == Values(c1, a) && Values(c, b) == Values(c1, b)
  {
    SingleLoc(c1, u1, p, l);
    hide Values, Ids, Holds, Apart, Span, Spans, Only;
    OnlyAgrees(c1, u1, c, u, p, Span(l), Spans(a));
    OnlyAgrees(c1, u1, c, u, p, Span(l), Spans(b));
    Frame(c1, u1, c, u, p, a);
    Frame(c1, u1, c, u, p, b);
  }

  // ------------------------------------------------------ the children, by parts

  /** The first i children have given way to r, and the others are as they were. */
  ghost predicate Walked(c0: map<nat, Cell>, u0: map<nat, nat>, c: map<nat, Cell>, u: map<nat, nat>, p: nat,
                         ls: seq<Loc>, i: nat, r: seq<Loc>) {
    && i <= |ls| && Runs(c, u, p, r, ls[i..], []) && Spans(r) <= Spans(ls) && Only(c0, u0, c, u, p, Spans(ls))
    && Values(c, ls[i..]) == Values(c0, ls[i..])
  }

  lemma {:induction false} IdAt(ls: seq<Loc>, i: nat)
    requires i < |ls|
    ensures Ids(ls)[i] == ls[i].id
  {
    if i > 0 { IdAt(ls[1..], i - 1); }
  }

  lemma {:induction false} WalkStart(c: map<nat, Cell>, u: map<nat, nat>, p: nat, ls: seq<Loc>, parse: UrlParser,
                                     remote: bool)
    requires Under(c, u, p, ls)
    ensures c[p].kids == Ids(ls) && Walked(c, u, c, u, p, ls, 0, [])
    ensures Values(c, []) == CleanAll(parse, remote, Values(c, ls[..0]))
  {
    assert [] + ls + [] == ls && ls[0..] == ls && ls[..0] == [];
    UnderRuns(c, u, p, [], ls, []);
    Nothing(c, u, p);
    assert CleanAll(parse, remote, []) == [];
    assert Only(c, u, c, u, p, Spans(ls));
    hide Runs, Under, Values, CleanAll, Spans, Only, Ids;
  }

  lemma {:induction false} WalkTurn(c0: map<nat, Cell>, u0: map<nat, nat>, c: map<nat, Cell>, u: map<nat, nat>, p: nat,
                                    ls: seq<Loc>, i: nat, r: seq<Loc>)
    requires Walked(c0, u0, c, u, p, ls, i, r) && i < |ls|
    ensures Runs(c, u, p, r, [ls[i]], ls[i + 1..])
  {
    assert ls[i..] == [ls[i]] + ls[i + 1..];
    UnderRuns(c, u, p, r, ls[i..], []);
    UnderRuns(c, u, p, r, [ls[i]], ls[i + 1..]);
    assert r + ls[i..] + [] == r + [ls[i]] + ls[i + 1..];
    hide Runs, Under, Values, Spans, Only;
  }

  lemma {:induction false} SpansAt(ls: seq<Loc>, i: nat)
    requires i < |ls|
    ensures Span(ls[i]) <= Spans(ls)
  {
    assert ls == ls[..i] + ([ls[i]] + ls[i + 1..]);
    SpansConcat(ls[..i], [ls[i]] + ls[i + 1..]);
    SpansConcat([ls[i]], ls[i + 1..]);
    SingleLoc(map[], map[], 0, ls[i]);
    hide Spans, Span;
  }

  lemma {:induction false} WalkNext(c0: map<nat, Cell>, u0: map<nat, nat>, c1: map<nat, Cell>, u1: map<nat, nat>,
                                    c: map<nat, Cell>, u: map<nat, nat>,
                                    p: nat, ls: seq<Loc>, i: nat, r: seq<Loc>, r1: seq<Loc>)
    requires Walked(c0, u0, c1, u1, p, ls, i, r) && i < |ls| && Replaced(c1, u1, c, u, p, r, ls[i], ls[i + 1..], r1)
    ensures Walked(c0, u0, c, u, p, ls, i + 1, r + r1) && Named(c)
  {
    hide Runs, Values, Spans, Span, Only, Named;
    SpansAt(ls, i);
    OnlyTrans(c0, u0, c1, u1, c, u, p, Spans(ls), Span(ls[i]));
    Regroup(c, u, p, r, r1, ls[i + 1..], []);
    UnderRuns(c, u, p, r + r1, ls[i + 1..], []);
    UnderRuns(c, u, p, r, r1, ls[i + 1..]);
    assert (r + r1) + ls[i + 1..] + [] == r + r1 + ls[i + 1..];
    hide Under;
    SpansConcat(r, r1);
    assert ls[i..] == [ls[i]] + ls[i + 1..];
    ValuesParts(c0, c1, [ls[i]], ls[i + 1..]);
  }

  lemma {:induction false} WalkValues(c0: map<nat, Cell>, c1: map<nat, Cell>, c: map<nat, Cell>, ls: seq<Loc>, i: nat,
                                      r: seq<Loc>, r1: seq<Loc>, parse: UrlParser, remote: bool)
    requires i < |ls| && Values(c1, r) == CleanAll(parse, remote, Values(c0, ls[..i])) && Values(c, r) == Values(c1, r)
    requires Values(c1, ls[i..]) == Values(c0, ls[i..])
    requires Values(c, r1) == Sanitizer.CleanNode(parse, remote, Value1(c1, ls[i]))
    ensures Values(c, r + r1) == CleanAll(parse, remote, Values(c0, ls[..i + 1]))
  {
    hide Values, Value1, CleanAll, Sanitizer.CleanNode, Ids, Spans, Span, Apart, Apart1, Holds, Holds1;
    assert ls[i..] == [ls[i]] + ls[i + 1..] && ls[..i + 1] == ls[..i] + [ls[i]];
    ValuesParts(c0, c1, [ls[i]], ls[i + 1..]);
    SingleLoc(c0, map[], 0, ls[i]);
    SingleLoc(c1, map[], 0, ls[i]);
    assert Value1(c0, ls[i]) == Values(c0, [ls[i]])[0] == Value1(c1, ls[i]);
    ValuesConcat(c, r, r1);
    ValuesConcat(c0, ls[..i], [ls[i]]);
    CleanConcat(parse, remote, Values(c0, ls[..i]), [Value1(c0, ls[i])]);
    CleanOne(parse, remote, Value1(c0, ls[i]));
  }

  lemma {:induction false} WalkEnd(c0: map<nat, Cell>, u0: map<nat, nat>, c: map<nat, Cell>, u: map<nat, nat>, p: nat,
                                   ls: seq<Loc>, r: seq<Loc>)
    requires Walked(c0, u0, c, u, p, ls, |ls|, r)
    ensures Under(c, u, p, r) && Spans(r) <= Spans(ls) && Only(c0, u0, c, u, p, Spans(ls)) && ls[..|ls|] == ls
  {
    UnderRuns(c, u, p, r, ls[|ls|..], []);
    assert ls[|ls|..] == [] && r + [] + [] == r;
    hide Runs, Under, Values, Spans, Only;
  }
}
