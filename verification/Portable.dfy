/** `portable_schema`: the inliner as the source runs it, and what its result means. */
module Portable {
  import opened Basics
  import opened Schema
  import opened Inliner
  import opened Unfolding

  ghost function RecursiveOf(defs: Defs): set<string>
    requires Resolved(defs)
  {
    set name | name in defs && Recursive(defs, name)
  }

  function NamesOf(names: seq<string>): set<string> {
    set name | name in names
  }

  lemma {:induction false} UniqueInside(names: seq<string>, all: set<string>)
    requires Distinct(names) && NamesOf(names) <= all
    ensures |names| <= |all|
    decreases |names|
  {
    if names != [] {
      var last, front := names[|names| - 1], names[..|names| - 1];
      assert last in NamesOf(names) && last !in front;
      forall x | x in NamesOf(front) ensures x in all - {last} { assert x in NamesOf(names); }
      UniqueInside(front, all - {last});
    }
  }

  /** The walker and the names it keeps. */
  class Walker {
    const defs: Defs
    const recursive: set<string>
    var kept: seq<string>

    constructor (defs: Defs, recursive: set<string>)
      ensures this.defs == defs && this.recursive == recursive && kept == []
    {
      this.defs, this.recursive, this.kept := defs, recursive, [];
    }

    method Keep(name: string)
      requires Distinct(kept)
      modifies this`kept
      ensures Grown(old(kept), kept, {name})
    {
      if name !in kept { kept := kept + [name]; }
    }

    /** `walk`. */
    method Visit(node: Node, nested: bool) returns (r: Node)
      requires Given(defs, recursive) && Refs(node) <= defs.Keys && Distinct(kept)
      modifies this`kept
      ensures r == Walk(defs, recursive, node, nested)
      ensures Grown(old(kept), kept, Used(defs, recursive, node, nested))
      decreases !nested, |Reach(defs, node)|, node, 2
    {
      match node
      case Atom(_) => r := node;
      case Arr(_) => r := VisitItems(node, nested);
      case Obj(ref, _) =>
        if ref.Some? && nested && ref.value in recursive {
          Keep(ref.value);
          r := node;
        } else if ref.None? {
          var siblings := VisitFields(node, nested);
          r := Obj(None, siblings);
        } else {
          r := VisitRef(node, nested);
        }
    }

    method VisitRef(node: Node, nested: bool) returns (r: Node)
      requires Given(defs, recursive) && Refs(node) <= defs.Keys && Distinct(kept)
      requires node.Obj? && node.ref.Some? && !(nested && node.ref.value in recursive)
      modifies this`kept
      ensures r == Walk(defs, recursive, node, nested)
      ensures Grown(old(kept), kept, Used(defs, recursive, node, nested))
      decreases !nested, |Reach(defs, node)|, node, 1
    {
      var name := node.ref.value;
      var siblings := VisitFields(node, nested);
      ghost var mid := kept;
      ReachThrough(defs, node, name);
      if name !in recursive { ReachShrinks(defs, node, name); }
      var target := Visit(defs[name], nested || name in recursive);
      FollowRef(defs, recursive, node, nested);
      GrownTwice(old(kept), mid, kept, UsedFields(defs, recursive, node, nested), Used(defs, recursive, defs[name], nested || name in recursive));
      r := Overlay(target, siblings);
    }

    method VisitItems(node: Node, nested: bool) returns (r: Node)
      requires Given(defs, recursive) && Refs(node) <= defs.Keys && Distinct(kept) && node.Arr?
      modifies this`kept
      ensures r == Walk(defs, recursive, node, nested)
      ensures Grown(old(kept), kept, Used(defs, recursive, node, nested))
      decreases !nested, |Reach(defs, node)|, node, 1
    {
      var out: seq<Node> := [];
      for i := 0 to |node.items|
        invariant |out| == i && FirstItems(out, Walk(defs, recursive, node, nested).items)
        invariant Grown(old(kept), kept, UsedBelow(defs, recursive, node, i, nested))
      {
        var x := VisitItem(node, i, nested);
        out := out + [x];
        UsedNext(defs, recursive, node, i, nested);
      }
      UsedAll(defs, recursive, node, nested);
      r := Arr(out);
    }

    method VisitItem(node: Node, i: nat, nested: bool) returns (x: Node)
      requires Given(defs, recursive) && Refs(node) <= defs.Keys && Distinct(kept) && node.Arr? && i < |node.items|
      modifies this`kept
      ensures x == Walk(defs, recursive, node, nested).items[i]
      ensures Grown(old(kept), kept, UsedItem(defs, recursive, node, i, nested))
      decreases !nested, |Reach(defs, node)|, node, 0
    {
      ItemRefs(node.items, i);
      ReachOfPart(defs, node, node.items[i]);
      x := Visit(node.items[i], nested);
    }

    method VisitFields(node: Node, nested: bool) returns (r: map<string, Node>)
      requires Given(defs, recursive) && Refs(node) <= defs.Keys && Distinct(kept) && node.Obj?
      modifies this`kept
      ensures r == WalkFields(defs, recursive, node, nested)
      ensures Grown(old(kept), kept, UsedFields(defs, recursive, node, nested))
      decreases !nested, |Reach(defs, node)|, node, 0, 2
    {
      r := map[];
      var left := set k | k in node.fields && Kept(node.fields, k);
      ghost var all := left;
      while left != {}
        invariant left !! r.Keys && left + r.Keys == all
        invariant Partial(defs, recursive, node, nested, r, old(kept), kept)
        decreases left
      {
        var k :| k in left;
        r := AddField(node, k, nested, r, old(kept));
        left := left - {k};
      }
      UsedEvery(defs, recursive, node, r.Keys, nested);
      WalkedSiblings(defs, recursive, node, nested);
      AllOf(r, WalkFields(defs, recursive, node, nested));
    }

    method AddField(node: Node, k: string, nested: bool, r: map<string, Node>, ghost was: seq<string>) returns (r': map<string, Node>)
      requires Given(defs, recursive) && Refs(node) <= defs.Keys && node.Obj? && k in node.fields && Kept(node.fields, k)
      requires Partial(defs, recursive, node, nested, r, was, kept)
      modifies this`kept
      ensures Partial(defs, recursive, node, nested, r', was, kept) && r'.Keys == r.Keys + {k}
      decreases !nested, |Reach(defs, node)|, node, 0, 1
    {
      ghost var mid := kept;
      var x := VisitField(node, k, nested);
      PartialNext(defs, recursive, node, nested, r, was, mid, kept, k);
      r' := r[k := x];
    }

    method VisitField(node: Node, k: string, nested: bool) returns (x: Node)
      requires Given(defs, recursive) && Refs(node) <= defs.Keys && Distinct(kept) && node.Obj? && k in node.fields && Kept(node.fields, k)
      modifies this`kept
      ensures x == WalkFields(defs, recursive, node, nested)[k]
      ensures Grown(old(kept), kept, UsedField(defs, recursive, node, k, nested))
      decreases !nested, |Reach(defs, node)|, node, 0, 0
    {
      FieldRefs(node.ref, node.fields, k);
      ReachOfPart(defs, node, node.fields[k]);
      x := Visit(node.fields[k], nested);
    }
  }

  predicate FirstItems(out: seq<Node>, items: seq<Node>) {
    out <= items
  }

  /** Names are only added, each once: exactly the used ones that were missing. */
  ghost predicate Grown(was: seq<string>, now: seq<string>, used: set<string>) {
    Distinct(now) && was <= now && NamesOf(now) == NamesOf(was) + used
  }

  /** Some members of an object have been walked. */
  ghost predicate Partial(defs: Defs, rec: set<string>, node: Node, nested: bool, r: map<string, Node>, was: seq<string>, now: seq<string>)
    requires Given(defs, rec) && Refs(node) <= defs.Keys && node.Obj?
  {
    && SomeOf(r, WalkFields(defs, rec, node, nested))
    && Grown(was, now, UsedAmong(defs, rec, node, r.Keys, nested))
  }

  predicate SomeOf(r: map<string, Node>, all: map<string, Node>) {
    forall k :: k in r ==> k in all && r[k] == all[k]
  }

  lemma AllOf(r: map<string, Node>, all: map<string, Node>)
    requires SomeOf(r, all) && r.Keys == all.Keys
    ensures r == all
  {
  }

  lemma PartialNext(defs: Defs, rec: set<string>, node: Node, nested: bool, r: map<string, Node>, was: seq<string>, mid: seq<string>,
                    now: seq<string>, k: string)
    requires Given(defs, rec) && Refs(node) <= defs.Keys && node.Obj? && k in node.fields && Kept(node.fields, k)
    requires Partial(defs, rec, node, nested, r, was, mid) && Grown(mid, now, UsedField(defs, rec, node, k, nested))
    ensures k in WalkFields(defs, rec, node, nested)
    ensures Partial(defs, rec, node, nested, r[k := WalkFields(defs, rec, node, nested)[k]], was, now)
  {
    UsedMore(defs, rec, node, r.Keys, k, nested);
    GrownTwice(was, mid, now, UsedAmong(defs, rec, node, r.Keys, nested), UsedField(defs, rec, node, k, nested));
    assert r[k := WalkFields(defs, rec, node, nested)[k]].Keys == r.Keys + {k};
  }

  lemma GrownTwice(a: seq<string>, b: seq<string>, c: seq<string>, u: set<string>, v: set<string>)
    requires Grown(a, b, u) && Grown(b, c, v)
    ensures Grown(a, c, v + u)
  {
  }

  lemma FollowRef(defs: Defs, rec: set<string>, node: Node, nested: bool)
    requires Given(defs, rec) && Refs(node) <= defs.Keys && node.Obj? && node.ref.Some? && !(nested && node.ref.value in rec)
    ensures node.ref.value in defs && Refs(defs[node.ref.value]) <= defs.Keys
    ensures Walk(defs, rec, node, nested)
            == Overlay(Walk(defs, rec, defs[node.ref.value], nested || node.ref.value in rec), WalkFields(defs, rec, node, nested))
    ensures Used(defs, rec, node, nested)
            == Used(defs, rec, defs[node.ref.value], nested || node.ref.value in rec) + UsedFields(defs, rec, node, nested)
  {
    assert node.ref.value in Refs(node);
  }

  ghost function UsedBelow(defs: Defs, rec: set<string>, node: Node, n: nat, nested: bool): set<string>
    requires Given(defs, rec) && Refs(node) <= defs.Keys && node.Arr? && n <= |node.items|
  {
    set i, x | 0 <= i < n && x in UsedItem(defs, rec, node, i, nested) :: x
  }

  lemma UsedNext(defs: Defs, rec: set<string>, node: Node, n: nat, nested: bool)
    requires Given(defs, rec) && Refs(node) <= defs.Keys && node.Arr? && n < |node.items|
    ensures UsedBelow(defs, rec, node, n + 1, nested) == UsedBelow(defs, rec, node, n, nested) + UsedItem(defs, rec, node, n, nested)
  {
  }

  lemma UsedAll(defs: Defs, rec: set<string>, node: Node, nested: bool)
    requires Given(defs, rec) && Refs(node) <= defs.Keys && node.Arr?
    ensures UsedBelow(defs, rec, node, |node.items|, nested) == Used(defs, rec, node, nested)
  {
  }

  ghost function UsedAmong(defs: Defs, rec: set<string>, node: Node, keys: set<string>, nested: bool): set<string>
    requires Given(defs, rec) && Refs(node) <= defs.Keys && node.Obj?
  {
    set k, x | k in keys && k in node.fields && x in UsedField(defs, rec, node, k, nested) :: x
  }

  lemma UsedMore(defs: Defs, rec: set<string>, node: Node, keys: set<string>, k: string, nested: bool)
    requires Given(defs, rec) && Refs(node) <= defs.Keys && node.Obj? && k in node.fields
    ensures UsedAmong(defs, rec, node, keys + {k}, nested) == UsedAmong(defs, rec, node, keys, nested) + UsedField(defs, rec, node, k, nested)
  {
  }

  lemma UsedEvery(defs: Defs, rec: set<string>, node: Node, keys: set<string>, nested: bool)
    requires Given(defs, rec) && Refs(node) <= defs.Keys && node.Obj?
    requires keys == set k | k in node.fields && Kept(node.fields, k)
    ensures UsedAmong(defs, rec, node, keys, nested) == UsedFields(defs, rec, node, nested)
  {
  }

  /* ---- the whole transformation ---- */

  /** What the source's schemas are: references resolve and definitions are objects. */
  ghost predicate Accepts(defs: Defs, schema: Node) {
    && Resolved(defs) && Refs(schema) <= defs.Keys && (forall name :: name in defs ==> defs[name].Obj?)
  }

  lemma AcceptsGives(defs: Defs, schema: Node)
    requires Accepts(defs, schema)
    ensures Given(defs, RecursiveOf(defs))
  {
  }

  /** Names that hold what the schema uses, and what the definitions they name use. */
  ghost predicate UsedInside(defs: Defs, rec: set<string>, schema: Node, names: set<string>)
    requires Given(defs, rec) && Refs(schema) <= defs.Keys
  {
    && Used(defs, rec, schema, false) <= names
    && forall name :: name in names && name in defs ==> Used(defs, rec, defs[name], true) <= names
  }

  /** The least such names: what the schema needs beside it. */
  ghost function Needed(defs: Defs, rec: set<string>, schema: Node): set<string>
    requires Given(defs, rec) && Refs(schema) <= defs.Keys
  {
    set x | x in rec && forall names :: UsedInside(defs, rec, schema, names) ==> x in names
  }

  lemma NeededIsLeast(defs: Defs, rec: set<string>, schema: Node)
    requires Given(defs, rec) && Refs(schema) <= defs.Keys
    ensures UsedInside(defs, rec, schema, Needed(defs, rec, schema))
    ensures forall names :: UsedInside(defs, rec, schema, names) ==> Needed(defs, rec, schema) <= names
  {
    UsedAreRecursive(defs, rec, schema, false);
    forall name | name in Needed(defs, rec, schema) && name in defs
      ensures Used(defs, rec, defs[name], true) <= Needed(defs, rec, schema)
    {
      UsedAreRecursive(defs, rec, defs[name], true);
    }
  }

  /** The walked definitions of some names. */
  ghost function WalkedDefs(defs: Defs, rec: set<string>, names: set<string>): Defs
    requires Given(defs, rec) && names <= rec
  {
    map name | name in names :: Walk(defs, rec, defs[name], true)
  }

  lemma LeastIsNeeded(defs: Defs, rec: set<string>, schema: Node, kept: Defs)
    requires Given(defs, rec) && Refs(schema) <= defs.Keys && KeptDefs(defs, rec, kept) && UsedInside(defs, rec, schema, kept.Keys)
    requires forall names :: UsedInside(defs, rec, schema, names) ==> kept.Keys <= names
    ensures kept == WalkedDefs(defs, rec, Needed(defs, rec, schema))
  {
    NeededIsLeast(defs, rec, schema);
    SameNames(kept.Keys, Needed(defs, rec, schema));
    KeptAreWalked(defs, rec, kept);
  }

  lemma SameNames(a: set<string>, b: set<string>)
    requires a <= b && b <= a
    ensures a == b
  {
  }

  lemma KeptAreWalked(defs: Defs, rec: set<string>, kept: Defs)
    requires Given(defs, rec) && KeptDefs(defs, rec, kept)
    ensures kept == WalkedDefs(defs, rec, kept.Keys)
  {
    var walked := WalkedDefs(defs, rec, kept.Keys);
    forall name | name in kept ensures kept[name] == walked[name] { }
  }

  lemma NeededAreKept(defs: Defs, rec: set<string>, schema: Node)
    requires Given(defs, rec) && Refs(schema) <= defs.Keys
    ensures KeptDefs(defs, rec, WalkedDefs(defs, rec, Needed(defs, rec, schema)))
    ensures UsedInside(defs, rec, schema, WalkedDefs(defs, rec, Needed(defs, rec, schema)).Keys)
  {
    NeededIsLeast(defs, rec, schema);
    assert WalkedDefs(defs, rec, Needed(defs, rec, schema)).Keys == Needed(defs, rec, schema);
  }

  /** Every reference of the result and of the kept definitions names a kept definition. */
  ghost predicate Whole(result: Node, kept: Defs) {
    Refs(result) <= kept.Keys && Resolved(kept)
  }

  /** Every reference the walk of the schema or of a definition it needs leaves in place has,
      beside it, references to needed definitions only. */
  ghost predicate LeavesClean(defs: Defs, rec: set<string>, schema: Node)
    requires Given(defs, rec) && Refs(schema) <= defs.Keys
  {
    var names := Needed(defs, rec, schema);
    Clean(defs, rec, names, schema, false, {}) && forall name :: name in names ==> Clean(defs, rec, names, defs[name], true, {})
  }

  ghost predicate WalkedSoFar(defs: Defs, rec: set<string>, kept: seq<string>, walked: Defs, n: nat)
    requires Given(defs, rec) && n <= |kept|
  {
    && walked.Keys == NamesOf(kept[..n]) && NamesOf(kept) <= rec
    && forall name :: name in walked ==> WalkedOne(defs, rec, NamesOf(kept), name, walked[name])
  }

  ghost predicate WalkedOne(defs: Defs, rec: set<string>, names: set<string>, name: string, body: Node)
    requires Given(defs, rec)
  {
    name in defs && body == Walk(defs, rec, defs[name], true) && Used(defs, rec, defs[name], true) <= names
  }

  /** Nothing is on the list that a set of names closed under use could do without. */
  ghost predicate OnlyNeeded(defs: Defs, rec: set<string>, schema: Node, kept: seq<string>)
    requires Given(defs, rec) && Refs(schema) <= defs.Keys
  {
    forall names :: UsedInside(defs, rec, schema, names) ==> NamesOf(kept) <= names
  }

  /** `portable_schema` after its root reference: the walked schema, and the walked definitions
      it needs.  The result is whole if and only if the walk leaves only clean references in
      place, and then it means, at every budget, what the schema means. */
  method Transform(defs: Defs, schema: Node) returns (result: Node, keptDefs: Defs)
    requires Accepts(defs, schema)
    ensures Given(defs, RecursiveOf(defs)) && result == Walk(defs, RecursiveOf(defs), schema, false)
    ensures keptDefs == WalkedDefs(defs, RecursiveOf(defs), Needed(defs, RecursiveOf(defs), schema))
    ensures Whole(result, keptDefs) <==> LeavesClean(defs, RecursiveOf(defs), schema)
    ensures Whole(result, keptDefs) ==> MeansSame(defs, RecursiveOf(defs), schema, keptDefs)
  {
    AcceptsGives(defs, schema);
    var recursive := RecursiveDefs(defs);
    assert recursive == RecursiveOf(defs);
    var walker := new Walker(defs, recursive);
    result := walker.Visit(schema, false);
    UsedAreRecursive(defs, recursive, schema, false);
    keptDefs := KeptOf(walker, schema);
    WholeIsExact(defs, recursive, schema);
    if Whole(result, keptDefs) { WholeMeansSame(defs, recursive, schema); }
  }

  /** At every budget the result unfolds to the tree of the schema. */
  ghost predicate MeansSame(defs: Defs, rec: set<string>, schema: Node, kept: Defs)
    requires Given(defs, rec) && Refs(schema) <= defs.Keys
  {
    && Covers(defs, rec) && Covers(kept, rec) && Refs(Walk(defs, rec, schema, false)) <= kept.Keys
    && forall n: nat :: Meaning(kept, rec, n, Walk(defs, rec, schema, false)) == Meaning(defs, rec, n + 1, schema)
  }

  lemma WholeIsExact(defs: Defs, rec: set<string>, schema: Node)
    requires Given(defs, rec) && Refs(schema) <= defs.Keys
    ensures Whole(Walk(defs, rec, schema, false), WalkedDefs(defs, rec, Needed(defs, rec, schema))) <==> LeavesClean(defs, rec, schema)
  {
    var names := Needed(defs, rec, schema);
    var kept := WalkedDefs(defs, rec, names);
    NeededIsLeast(defs, rec, schema);
    CleanIsExact(defs, rec, names, schema, false, {});
    HideNothing(Walk(defs, rec, schema, false));
    forall name | name in names ensures Refs(kept[name]) <= names <==> Clean(defs, rec, names, defs[name], true, {}) {
      CleanIsExact(defs, rec, names, defs[name], true, {});
      HideNothing(kept[name]);
    }
    assert kept.Keys == names;
  }

  lemma WholeMeansSame(defs: Defs, rec: set<string>, schema: Node)
    requires Given(defs, rec) && Refs(schema) <= defs.Keys && LeavesClean(defs, rec, schema)
    ensures MeansSame(defs, rec, schema, WalkedDefs(defs, rec, Needed(defs, rec, schema)))
  {
    NeededSets(defs, rec, schema);
    FittingMeansSame(defs, rec, schema, WalkedDefs(defs, rec, Needed(defs, rec, schema)));
  }

  lemma NeededSets(defs: Defs, rec: set<string>, schema: Node)
    requires Given(defs, rec) && Refs(schema) <= defs.Keys && LeavesClean(defs, rec, schema)
    ensures var kept := WalkedDefs(defs, rec, Needed(defs, rec, schema));
            Setting(defs, rec, kept) && Fits(defs, rec, kept, schema, false, {})
  {
    NeededAreKept(defs, rec, schema);
    assert WalkedDefs(defs, rec, Needed(defs, rec, schema)).Keys == Needed(defs, rec, schema);
  }

  lemma FittingMeansSame(defs: Defs, rec: set<string>, schema: Node, kept: Defs)
    requires Setting(defs, rec, kept) && Fits(defs, rec, kept, schema, false, {})
    ensures MeansSame(defs, rec, schema, kept)
  {
    SettingCovers(defs, rec, kept);
    FitsRefs(defs, rec, kept, schema, false, {});
    HideNothing(Walk(defs, rec, schema, false));
    forall n: nat ensures Meaning(kept, rec, n, Walk(defs, rec, schema, false)) == Meaning(defs, rec, n + 1, schema) {
      InliningPreserves(defs, rec, kept, n, schema, false);
    }
  }

  /** Beside references to recursive definitions without further references, every result is
      whole. */
  lemma BareIsWhole(defs: Defs, rec: set<string>, schema: Node)
    requires Given(defs, rec) && Refs(schema) <= defs.Keys && AllBare(rec, defs) && Bare(rec, schema)
    ensures Whole(Walk(defs, rec, schema, false), WalkedDefs(defs, rec, Needed(defs, rec, schema)))
  {
    var names := Needed(defs, rec, schema);
    BareIsClean(defs, rec, names, schema, false, {});
    forall name | name in names ensures Clean(defs, rec, names, defs[name], true, {}) {
      BareIsClean(defs, rec, names, defs[name], true, {});
    }
    WholeIsExact(defs, rec, schema);
  }

  /** The loop over missing definitions. */
  method KeptOf(walker: Walker, ghost schema: Node) returns (keptDefs: Defs)
    requires Accepts(walker.defs, schema) && Given(walker.defs, walker.recursive)
    requires Distinct(walker.kept) && NamesOf(walker.kept) == Used(walker.defs, walker.recursive, schema, false) <= walker.recursive
    modifies walker`kept
    ensures keptDefs == WalkedDefs(walker.defs, walker.recursive, Needed(walker.defs, walker.recursive, schema))
  {
    keptDefs := map[];
    var n := 0;
    while n < |walker.kept|
      invariant n <= |walker.kept| && Distinct(walker.kept) && WalkedSoFar(walker.defs, walker.recursive, walker.kept, keptDefs, n)
      invariant Used(walker.defs, walker.recursive, schema, false) <= NamesOf(walker.kept)
      invariant OnlyNeeded(walker.defs, walker.recursive, schema, walker.kept)
      decreases |walker.recursive| - n
    {
      keptDefs := KeepNext(walker, keptDefs, n, schema);
      n := n + 1;
      UniqueInside(walker.kept, walker.recursive);
    }
    assert walker.kept[..n] == walker.kept;
    AllWalked(walker.defs, walker.recursive, schema, walker.kept, keptDefs);
  }

  lemma AllWalked(defs: Defs, rec: set<string>, schema: Node, kept: seq<string>, walked: Defs)
    requires Given(defs, rec) && Refs(schema) <= defs.Keys && WalkedSoFar(defs, rec, kept, walked, |kept|)
    requires Used(defs, rec, schema, false) <= NamesOf(kept) && OnlyNeeded(defs, rec, schema, kept)
    ensures walked == WalkedDefs(defs, rec, Needed(defs, rec, schema))
  {
    assert kept[..|kept|] == kept;
    forall name | name in walked ensures WalkedOne(defs, rec, NamesOf(kept), name, walked[name]) { }
    LeastIsNeeded(defs, rec, schema, walked);
  }

  method KeepNext(walker: Walker, walked: Defs, n: nat, ghost schema: Node) returns (walked': Defs)
    requires Given(walker.defs, walker.recursive) && Refs(schema) <= walker.defs.Keys
    requires n < |walker.kept| && Distinct(walker.kept) && WalkedSoFar(walker.defs, walker.recursive, walker.kept, walked, n)
    requires OnlyNeeded(walker.defs, walker.recursive, schema, walker.kept)
    modifies walker`kept
    ensures n < |walker.kept| && Distinct(walker.kept) && WalkedSoFar(walker.defs, walker.recursive, walker.kept, walked', n + 1)
    ensures OnlyNeeded(walker.defs, walker.recursive, schema, walker.kept)
    ensures old(walker.kept) <= walker.kept
  {
    var name := walker.kept[n];
    ghost var was := walker.kept;
    assert name in NamesOf(walker.kept);
    var body := walker.Visit(walker.defs[name], true);
    UsedAreRecursive(walker.defs, walker.recursive, walker.defs[name], true);
    StillNeeded(walker.defs, walker.recursive, schema, was, walker.kept, name);
    WalkedNext(walker.defs, walker.recursive, was, walker.kept, walked, n);
    walked' := walked[name := body];
  }

  lemma WalkedNext(defs: Defs, rec: set<string>, was: seq<string>, now: seq<string>, walked: Defs, n: nat)
    requires Given(defs, rec) && n < |was| && WalkedSoFar(defs, rec, was, walked, n) && was[n] in defs
    requires Grown(was, now, Used(defs, rec, defs[was[n]], true)) && NamesOf(now) <= rec
    ensures n < |now| && WalkedSoFar(defs, rec, now, walked[was[n] := Walk(defs, rec, defs[was[n]], true)], n + 1)
  {
    var body := Walk(defs, rec, defs[was[n]], true);
    var more := walked[was[n] := body];
    forall name | name in more ensures WalkedOne(defs, rec, NamesOf(now), name, more[name]) {
      if name != was[n] { assert WalkedOne(defs, rec, NamesOf(was), name, walked[name]); }
    }
    NamesNext(was, now, n);
  }

  lemma NamesNext(was: seq<string>, now: seq<string>, n: nat)
    requires n < |was| && was <= now
    ensures n < |now| && NamesOf(now[..n + 1]) == NamesOf(was[..n]) + {was[n]}
  {
    assert now[..n + 1] == was[..n] + [was[n]];
  }

  lemma StillNeeded(defs: Defs, rec: set<string>, schema: Node, was: seq<string>, now: seq<string>, name: string)
    requires Given(defs, rec) && Refs(schema) <= defs.Keys && OnlyNeeded(defs, rec, schema, was)
    requires name in NamesOf(was) && name in defs && Grown(was, now, Used(defs, rec, defs[name], true))
    ensures OnlyNeeded(defs, rec, schema, now)
  {
  }

  /* ---- a schema whose result is not whole ---- */

  function RefTo(name: string): Node { Obj(Some(name), map[]) }

  /** `A` refers to itself with a reference to `B` beside, `B` refers to itself, and the schema
      refers to `A`. */
  const A_BODY := Obj(None, map["next" := Obj(Some("A"), map["x" := RefTo("B")])])
  const B_BODY := Obj(None, map["next" := RefTo("B")])
  const MIXED: Defs := map["A" := A_BODY, "B" := B_BODY]
  const USES_A := Obj(None, map["p" := RefTo("A")])

  lemma OneField(ref: Option<string>, k: string, x: Node)
    ensures Refs(Obj(ref, map[k := x])) == Own(ref) + Refs(x)
  {
    var fields := map[k := x];
    assert fields[k] == x;
    FieldRefs(ref, fields, k);
  }

  lemma MixedRefs()
    ensures Refs(A_BODY) == {"A", "B"} && Refs(B_BODY) == {"B"} && Refs(USES_A) == {"A"}
    ensures MIXED.Keys == {"A", "B"} && MIXED["A"] == A_BODY && MIXED["B"] == B_BODY
  {
    assert "A"[0] != "B"[0];
    OneField(Some("A"), "x", RefTo("B"));
    OneField(None, "next", Obj(Some("A"), map["x" := RefTo("B")]));
    OneField(None, "next", RefTo("B"));
    OneField(None, "p", RefTo("A"));
  }

  lemma MixedIsAccepted()
    ensures Given(MIXED, {"A", "B"}) && RecursiveOf(MIXED) == {"A", "B"} && Accepts(MIXED, USES_A)
  {
    MixedRefs();
    TwoRecursive(MIXED, "A", "B");
  }

  /** Definitions with references to themselves are recursive. */
  lemma TwoRecursive(defs: Defs, a: string, b: string)
    requires Resolved(defs) && defs.Keys == {a, b} && a in Refs(defs[a]) && b in Refs(defs[b])
    ensures RecursiveOf(defs) == {a, b}
  {
    assert a in Reach(defs, defs[a]) && b in Reach(defs, defs[b]);
  }

  /** An object whose one member is a reference left in place. */
  lemma OneLeft(defs: Defs, rec: set<string>, k: string, x: Node)
    requires Given(defs, rec) && Refs(Obj(None, map[k := x])) <= defs.Keys && Kept(map[k := x], k) && Left(rec, x, true)
    ensures Walk(defs, rec, Obj(None, map[k := x]), true) == Obj(None, map[k := x])
  {
    var node := Obj(None, map[k := x]);
    FieldRefs(None, node.fields, k);
    LeftWalk(defs, rec, x);
    OneWalked(defs, rec, node, k);
  }

  lemma LeftWalk(defs: Defs, rec: set<string>, x: Node)
    requires Given(defs, rec) && Refs(x) <= defs.Keys && Left(rec, x, true)
    ensures Walk(defs, rec, x, true) == x
  {
  }

  lemma OneWalked(defs: Defs, rec: set<string>, node: Node, k: string)
    requires Given(defs, rec) && Refs(node) <= defs.Keys && node.Obj? && node.fields.Keys == {k} && Kept(node.fields, k)
    requires Refs(node.fields[k]) <= defs.Keys && Walk(defs, rec, node.fields[k], true) == node.fields[k]
    ensures WalkFields(defs, rec, node, true) == node.fields
  {
    var walked := WalkFields(defs, rec, node, true);
    assert walked.Keys == {k};
    assert walked[k] == node.fields[k];
  }

  lemma OneLeftUsed(defs: Defs, rec: set<string>, k: string, x: Node)
    requires Given(defs, rec) && Refs(Obj(None, map[k := x])) <= defs.Keys && Kept(map[k := x], k) && Left(rec, x, true)
    ensures Used(defs, rec, Obj(None, map[k := x]), true) == {x.ref.value}
  {
    var node := Obj(None, map[k := x]);
    FieldRefs(None, node.fields, k);
    assert UsedField(defs, rec, node, k, true) == {x.ref.value};
    assert UsedFields(defs, rec, node, true) == {x.ref.value};
  }

  /** An object whose one member is a bare reference to a recursive definition. */
  lemma OneEntered(defs: Defs, rec: set<string>, k: string, name: string)
    requires Given(defs, rec) && Refs(Obj(None, map[k := RefTo(name)])) <= defs.Keys && Kept(map[k := RefTo(name)], k)
    requires name in rec && name in defs
    ensures Used(defs, rec, Obj(None, map[k := RefTo(name)]), false) == Used(defs, rec, defs[name], true)
  {
    var node := Obj(None, map[k := RefTo(name)]);
    FieldRefs(None, node.fields, k);
    FollowRef(defs, rec, RefTo(name), false);
    assert UsedFields(defs, rec, RefTo(name), false) == {};
    assert UsedField(defs, rec, node, k, false) == Used(defs, rec, defs[name], true);
    assert UsedFields(defs, rec, node, false) == Used(defs, rec, defs[name], true);
  }

  /** A definition that uses itself only, and is all the schema uses, is all that is needed. */
  lemma OneNeeded(defs: Defs, rec: set<string>, schema: Node, name: string)
    requires Given(defs, rec) && Refs(schema) <= defs.Keys && name in defs
    requires Used(defs, rec, schema, false) == {name} && Used(defs, rec, defs[name], true) == {name}
    ensures Needed(defs, rec, schema) == {name}
  {
    OneSuffices(defs, rec, schema, name);
    NeededIsLeast(defs, rec, schema);
    assert Needed(defs, rec, schema) <= {name} && name in Needed(defs, rec, schema);
  }

  lemma OneSuffices(defs: Defs, rec: set<string>, schema: Node, name: string)
    requires Given(defs, rec) && Refs(schema) <= defs.Keys && name in defs
    requires Used(defs, rec, schema, false) == {name} && Used(defs, rec, defs[name], true) == {name}
    ensures UsedInside(defs, rec, schema, {name})
  {
  }

  /** Only `A` is needed, and its body still refers to `B`. */
  lemma LeavesDangling()
    ensures Accepts(MIXED, USES_A) && Given(MIXED, RecursiveOf(MIXED))
    ensures var rec := RecursiveOf(MIXED);
            && Needed(MIXED, rec, USES_A) == {"A"} && Walk(MIXED, rec, MIXED["A"], true) == A_BODY && "B" in Refs(A_BODY)
            && !LeavesClean(MIXED, rec, USES_A)
            && !Whole(Walk(MIXED, rec, USES_A, false), WalkedDefs(MIXED, rec, {"A"}))
  {
    MixedIsAccepted();
    OnlyAIsUsed();
    OneNeeded(MIXED, {"A", "B"}, USES_A, "A");
    MixedRefs();
    BIsLost(WalkedDefs(MIXED, {"A", "B"}, {"A"}));
    WholeIsExact(MIXED, {"A", "B"}, USES_A);
  }

  lemma BIsLost(kept: Defs)
    requires kept.Keys == {"A"} && kept["A"] == A_BODY && "B" in Refs(A_BODY)
    ensures !Resolved(kept)
  {
    assert "A"[0] != "B"[0];
    assert "A" in kept && "B" !in kept.Keys;
  }

  /** The transformation of that schema is not whole. */
  method TransformMixed() returns (result: Node, keptDefs: Defs)
    ensures keptDefs.Keys == {"A"} && !Whole(result, keptDefs)
  {
    LeavesDangling();
    result, keptDefs := Transform(MIXED, USES_A);
  }

  lemma OnlyAIsUsed()
    requires Given(MIXED, {"A", "B"}) && Accepts(MIXED, USES_A)
    ensures MIXED.Keys == {"A", "B"} && Refs(MIXED["A"]) <= MIXED.Keys && Walk(MIXED, {"A", "B"}, MIXED["A"], true) == A_BODY
    ensures Used(MIXED, {"A", "B"}, MIXED["A"], true) == {"A"} && Used(MIXED, {"A", "B"}, USES_A, false) == {"A"}
  {
    MixedRefs();
    assert |"next"| != |DISCRIMINATOR| && |"p"| != |DISCRIMINATOR|;
    OneLeft(MIXED, {"A", "B"}, "next", Obj(Some("A"), map["x" := RefTo("B")]));
    OneLeftUsed(MIXED, {"A", "B"}, "next", Obj(Some("A"), map["x" := RefTo("B")]));
    OneEntered(MIXED, {"A", "B"}, "p", "A");
  }
}
