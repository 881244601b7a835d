/** The whole of `portable_schema`: the root reference, the inlining, the types of branches. */
module RootSchema {
  import opened Basics
  import opened Schema
  import opened Inliner
  import opened Unfolding
  import opened Portable
  import Hoist

  /* ---- a larger budget only expands further ---- */

  /** `t` is `u` with some parts cut off. */
  ghost predicate Below(t: Tree, u: Tree) {
    match t
    case Cut => true
    case Leaf(_) => u == t
    case List(items) => u.List? && |u.items| == |items| && forall i :: 0 <= i < |items| ==> Below(items[i], u.items[i])
    case Record(fields) => u.Record? && u.fields.Keys == fields.Keys && forall k :: k in fields ==> Below(fields[k], u.fields[k])
  }

  /** Members with the same names, each below its like. */
  ghost predicate AllBelow(f: Members, g: Members) {
    f.Keys == g.Keys && forall k :: k in f ==> Below(f[k], g[k])
  }

  lemma {:induction false} BelowItself(t: Tree)
    ensures Below(t, t)
  {
    match t
    case List(items) => forall i | 0 <= i < |items| ensures Below(items[i], items[i]) { BelowItself(items[i]); }
    case Record(fields) => forall k | k in fields ensures Below(fields[k], fields[k]) { BelowItself(fields[k]); }
    case _ =>
  }

  lemma DropBelow(f: Members, g: Members)
    requires AllBelow(f, g)
    ensures AllBelow(Drop(f), Drop(g))
  {
    assert ONE_OF in f.Keys <==> ONE_OF in g.Keys;
  }

  lemma SumBelow(f: Members, g: Members, f': Members, g': Members)
    requires AllBelow(f, g) && AllBelow(f', g')
    ensures AllBelow(f + f', g + g')
  {
  }

  lemma OverBelow(t: Tree, u: Tree, f: Members, g: Members)
    requires Below(t, u) && AllBelow(f, g)
    ensures Below(Over(t, f), Over(u, g))
  {
    if t.Record? {
      assert AllBelow(t.fields, u.fields);
      SumBelow(t.fields, u.fields, f, g);
      DropBelow(t.fields + f, u.fields + g);
    }
  }

  lemma {:induction false} MeaningGrows(env: Defs, rec: set<string>, n: nat, node: Node)
    requires Covers(env, rec) && Refs(node) <= env.Keys
    ensures Below(Meaning(env, rec, n, node), Meaning(env, rec, n + 1, node))
    decreases n, |Reach(env, node)|, node, 1
  {
    match node
    case Atom(_) =>
    case Arr(_) => ItemsGrow(env, rec, n, node);
    case Obj(ref, fields) =>
      MeaningsGrow(env, rec, n, node);
      if ref.None? { DropBelow(Meanings(env, rec, n, node), Meanings(env, rec, n + 1, node)); }
      else { RefGrows(env, rec, n, node); }
  }

  lemma {:induction false} ItemsGrow(env: Defs, rec: set<string>, n: nat, node: Node)
    requires Covers(env, rec) && Refs(node) <= env.Keys && node.Arr?
    ensures Below(Meaning(env, rec, n, node), Meaning(env, rec, n + 1, node))
    decreases n, |Reach(env, node)|, node, 0
  {
    var t, u := Meaning(env, rec, n, node), Meaning(env, rec, n + 1, node);
    forall i | 0 <= i < |node.items| ensures Below(t.items[i], u.items[i]) {
      ItemRefs(node.items, i);
      ReachOfPart(env, node, node.items[i]);
      MeaningGrows(env, rec, n, node.items[i]);
    }
  }

  lemma {:induction false} MeaningsGrow(env: Defs, rec: set<string>, n: nat, node: Node)
    requires Covers(env, rec) && Refs(node) <= env.Keys && node.Obj?
    ensures AllBelow(Meanings(env, rec, n, node), Meanings(env, rec, n + 1, node))
    decreases n, |Reach(env, node)|, node, 0
  {
    var f, g := Meanings(env, rec, n, node), Meanings(env, rec, n + 1, node);
    forall k | k in f ensures Below(f[k], g[k]) {
      FieldRefs(node.ref, node.fields, k);
      ReachOfPart(env, node, node.fields[k]);
      MeaningGrows(env, rec, n, node.fields[k]);
    }
  }

  lemma RefTarget(env: Defs, rec: set<string>, node: Node)
    requires Covers(env, rec) && Refs(node) <= env.Keys && node.Obj? && node.ref.Some?
    ensures node.ref.value in env && Refs(env[node.ref.value]) <= env.Keys
    ensures node.ref.value !in rec ==> |Reach(env, env[node.ref.value])| < |Reach(env, node)|
  {
    ReachThrough(env, node, node.ref.value);
    if node.ref.value !in rec { ReachShrinks(env, node, node.ref.value); }
  }

  lemma {:induction false} RefGrows(env: Defs, rec: set<string>, n: nat, node: Node)
    requires Covers(env, rec) && Refs(node) <= env.Keys && node.Obj? && node.ref.Some?
    requires AllBelow(Meanings(env, rec, n, node), Meanings(env, rec, n + 1, node))
    ensures Below(Meaning(env, rec, n, node), Meaning(env, rec, n + 1, node))
    decreases n, |Reach(env, node)|, node, 0
  {
    RefTarget(env, rec, node);
    if node.ref.value !in rec {
      MeaningGrows(env, rec, n, env[node.ref.value]);
      OpenRefGrows(env, rec, n, node);
    } else {
      if n > 0 { MeaningGrows(env, rec, n - 1, env[node.ref.value]); }
      RecursiveRefGrows(env, rec, n, node);
    }
  }

  lemma OpenRefMeaning(env: Defs, rec: set<string>, n: nat, node: Node)
    requires Covers(env, rec) && Refs(node) <= env.Keys && node.Obj? && node.ref.Some? && node.ref.value !in rec
    ensures node.ref.value in env && Refs(env[node.ref.value]) <= env.Keys
    ensures Meaning(env, rec, n, node) == Over(Meaning(env, rec, n, env[node.ref.value]), Meanings(env, rec, n, node))
  {
    assert node.ref.value in Refs(node);
  }

  lemma OpenRefGrows(env: Defs, rec: set<string>, n: nat, node: Node)
    requires Covers(env, rec) && Refs(node) <= env.Keys && node.Obj? && node.ref.Some? && node.ref.value !in rec
    requires AllBelow(Meanings(env, rec, n, node), Meanings(env, rec, n + 1, node))
    requires node.ref.value in env && Refs(env[node.ref.value]) <= env.Keys
    requires Below(Meaning(env, rec, n, env[node.ref.value]), Meaning(env, rec, n + 1, env[node.ref.value]))
    ensures Below(Meaning(env, rec, n, node), Meaning(env, rec, n + 1, node))
  {
    OpenRefMeaning(env, rec, n, node);
    OpenRefMeaning(env, rec, n + 1, node);
    OverBelow(Meaning(env, rec, n, env[node.ref.value]), Meaning(env, rec, n + 1, env[node.ref.value]),
              Meanings(env, rec, n, node), Meanings(env, rec, n + 1, node));
  }

  lemma RecursiveRefGrows(env: Defs, rec: set<string>, n: nat, node: Node)
    requires Covers(env, rec) && Refs(node) <= env.Keys && RecursiveRoot(rec, node)
    requires AllBelow(Meanings(env, rec, n, node), Meanings(env, rec, n + 1, node))
    requires node.ref.value in env && Refs(env[node.ref.value]) <= env.Keys
    requires n > 0 ==> Below(Meaning(env, rec, n - 1, env[node.ref.value]), Meaning(env, rec, n, env[node.ref.value]))
    ensures Below(Meaning(env, rec, n, node), Meaning(env, rec, n + 1, node))
  {
    RefMeaning(env, rec, n, node);
    RefMeaning(env, rec, n + 1, node);
    if n > 0 {
      OverBelow(Meaning(env, rec, n - 1, env[node.ref.value]), Meaning(env, rec, n, env[node.ref.value]),
                Meanings(env, rec, n, node), Meanings(env, rec, n + 1, node));
    }
  }

  /* ---- the root reference ---- */

  /** A schema that is itself a reference is replaced by its definition with its own members
      over it. */
  function Rooted(defs: Defs, schema: Node): Node
    requires schema.Obj? && schema.ref.Some? ==> schema.ref.value in defs && defs[schema.ref.value].Obj?
  {
    if schema.Obj? && schema.ref.Some? then Overlay(defs[schema.ref.value], schema.fields) else schema
  }

  lemma RootedIsAccepted(defs: Defs, schema: Node)
    requires Accepts(defs, schema)
    ensures schema.Obj? && schema.ref.Some? ==> schema.ref.value in defs && defs[schema.ref.value].Obj?
    ensures Accepts(defs, Rooted(defs, schema))
  {
    if schema.Obj? && schema.ref.Some? {
      assert schema.ref.value in Refs(schema);
      var target, rooted := defs[schema.ref.value], Rooted(defs, schema);
      ObjRefs(schema, defs.Keys);
      ObjRefs(target, defs.Keys);
      forall k | k in rooted.fields ensures Refs(rooted.fields[k]) <= defs.Keys {
        if k !in schema.fields { assert rooted.fields[k] == target.fields[k]; }
      }
      ObjRefs(rooted, defs.Keys);
    }
  }

  /** A schema whose root refers to a definition that reaches itself. */
  predicate RecursiveRoot(rec: set<string>, schema: Node) {
    schema.Obj? && schema.ref.Some? && schema.ref.value in rec
  }

  /** Replacing the root reference expands the schema: at no budget further than one more
      expansion would, and all the way unless the root is recursive. */
  lemma RootMeans(defs: Defs, rec: set<string>, n: nat, schema: Node)
    requires Accepts(defs, schema) && Covers(defs, rec)
    requires schema.Obj? && schema.ref.Some? ==> schema.ref.value in defs && defs[schema.ref.value].Obj?
    requires Refs(Rooted(defs, schema)) <= defs.Keys
    ensures Below(Meaning(defs, rec, n, schema), Meaning(defs, rec, n, Rooted(defs, schema)))
    ensures Below(Meaning(defs, rec, n, Rooted(defs, schema)), Meaning(defs, rec, n + 1, schema))
    ensures !RecursiveRoot(rec, schema) ==> Meaning(defs, rec, n, Rooted(defs, schema)) == Meaning(defs, rec, n, schema)
  {
    if schema.Obj? && schema.ref.Some? {
      var target, own := defs[schema.ref.value], Obj(None, schema.fields);
      ObjRefs(schema, defs.Keys);
      ObjRefs(own, defs.Keys);
      OverlayMeaning(defs, rec, n, target, schema.fields);
      OwnMembers(defs, rec, n, schema);
      OwnMembers(defs, rec, n + 1, schema);
      MeaningsGrow(defs, rec, n, own);
      if RecursiveRoot(rec, schema) { RecursiveRootMeans(defs, rec, n, schema); }
      else { MeaningGrows(defs, rec, n, schema); BelowItself(Meaning(defs, rec, n, schema)); }
    } else {
      MeaningGrows(defs, rec, n, schema);
      BelowItself(Meaning(defs, rec, n, schema));
    }
  }

  lemma OwnMembers(defs: Defs, rec: set<string>, n: nat, schema: Node)
    requires Covers(defs, rec) && schema.Obj? && Refs(schema) <= defs.Keys && Refs(Obj(None, schema.fields)) <= defs.Keys
    ensures Meanings(defs, rec, n, Obj(None, schema.fields)) == Meanings(defs, rec, n, schema)
  {
  }

  lemma RecursiveRootMeans(defs: Defs, rec: set<string>, n: nat, schema: Node)
    requires Covers(defs, rec) && Refs(schema) <= defs.Keys && RecursiveRoot(rec, schema)
    requires schema.ref.value in defs && Refs(defs[schema.ref.value]) <= defs.Keys
    ensures var rooted := Over(Meaning(defs, rec, n, defs[schema.ref.value]), Meanings(defs, rec, n, schema));
            Below(Meaning(defs, rec, n, schema), rooted) && Below(rooted, Meaning(defs, rec, n + 1, schema))
  {
    var name := schema.ref.value;
    var now, next := Meanings(defs, rec, n, schema), Meanings(defs, rec, n + 1, schema);
    MeaningsGrow(defs, rec, n, schema);
    RefMeaning(defs, rec, n, schema);
    RefMeaning(defs, rec, n + 1, schema);
    BelowItself(Meaning(defs, rec, n, defs[name]));
    OverBelow(Meaning(defs, rec, n, defs[name]), Meaning(defs, rec, n, defs[name]), now, next);
    if n > 0 {
      forall k | k in now ensures Below(now[k], now[k]) { BelowItself(now[k]); }
      MeaningGrows(defs, rec, n - 1, defs[name]);
      OverBelow(Meaning(defs, rec, n - 1, defs[name]), Meaning(defs, rec, n, defs[name]), now, now);
    }
  }

  /* ---- end to end ---- */

  /** The result expands the schema as far as any budget asks, never further, and exactly unless
      the root is recursive. */
  ghost predicate Expands(defs: Defs, rec: set<string>, schema: Node, result: Node, kept: Defs) {
    && Covers(defs, rec) && Covers(kept, rec) && Refs(schema) <= defs.Keys && Refs(result) <= kept.Keys
    && forall n: nat :: ExpandsAt(defs, rec, schema, result, kept, n)
  }

  ghost predicate ExpandsAt(defs: Defs, rec: set<string>, schema: Node, result: Node, kept: Defs, n: nat)
    requires Covers(defs, rec) && Covers(kept, rec) && Refs(schema) <= defs.Keys && Refs(result) <= kept.Keys
  {
    && Below(Meaning(defs, rec, n + 1, schema), Meaning(kept, rec, n, result))
    && Below(Meaning(kept, rec, n, result), Meaning(defs, rec, n + 2, schema))
    && (!RecursiveRoot(rec, schema) ==> Meaning(kept, rec, n, result) == Meaning(defs, rec, n + 1, schema))
  }

  /** The schema, its root reference replaced, with references inlined. */
  ghost function Inlined(defs: Defs, schema: Node): Node
    requires schema.Obj? && schema.ref.Some? ==> schema.ref.value in defs && defs[schema.ref.value].Obj?
    requires Accepts(defs, Rooted(defs, schema)) && Given(defs, RecursiveOf(defs))
  {
    Walk(defs, RecursiveOf(defs), Rooted(defs, schema), false)
  }

  /** The definitions it needs, walked. */
  ghost function InlinedDefs(defs: Defs, schema: Node): Defs
    requires schema.Obj? && schema.ref.Some? ==> schema.ref.value in defs && defs[schema.ref.value].Obj?
    requires Accepts(defs, Rooted(defs, schema)) && Given(defs, RecursiveOf(defs))
  {
    WalkedDefs(defs, RecursiveOf(defs), Needed(defs, RecursiveOf(defs), Rooted(defs, schema)))
  }

  /** `portable_schema`: the inlined schema and its kept definitions, with the types of branches
      added.  The result refers to nothing but what is kept if and only if the walk leaves only
      clean references in place, and then, types added by branches aside, expands the schema. */
  method PortableSchema(defs: Defs, schema: Node) returns (result: Node, keptDefs: Defs)
    requires Accepts(defs, schema)
    ensures schema.Obj? && schema.ref.Some? ==> schema.ref.value in defs && defs[schema.ref.value].Obj?
    ensures Accepts(defs, Rooted(defs, schema)) && Given(defs, RecursiveOf(defs))
    ensures result == Hoist.Hoisted(Inlined(defs, schema)) && keptDefs == HoistedDefs(InlinedDefs(defs, schema))
    ensures Hoist.TypesDue(Inlined(defs, schema), result) && keptDefs.Keys == InlinedDefs(defs, schema).Keys
    ensures forall name :: name in keptDefs ==> Hoist.TypesDue(InlinedDefs(defs, schema)[name], keptDefs[name])
    ensures Whole(result, keptDefs) <==> LeavesClean(defs, RecursiveOf(defs), Rooted(defs, schema))
    ensures Whole(result, keptDefs) ==> Expands(defs, RecursiveOf(defs), schema, Inlined(defs, schema), InlinedDefs(defs, schema))
  {
    RootedIsAccepted(defs, schema);
    var plain, walked := Transform(defs, Rooted(defs, schema));
    result, keptDefs := Hoist.Hoisted(plain), HoistedDefs(walked);
    HoistedWhole(plain, walked);
    DueTypes(plain, walked);
    if Whole(plain, walked) { RootExpands(defs, RecursiveOf(defs), schema, plain, walked); }
  }

  function HoistedDefs(defs: Defs): Defs {
    map name | name in defs :: Hoist.Hoisted(defs[name])
  }

  lemma DueTypes(plain: Node, walked: Defs)
    ensures Hoist.TypesDue(plain, Hoist.Hoisted(plain)) && HoistedDefs(walked).Keys == walked.Keys
    ensures forall name :: name in HoistedDefs(walked) ==> Hoist.TypesDue(walked[name], HoistedDefs(walked)[name])
  {
    Hoist.HoistedIsDue(plain);
    forall name | name in HoistedDefs(walked) ensures Hoist.TypesDue(walked[name], HoistedDefs(walked)[name]) {
      Hoist.HoistedIsDue(walked[name]);
    }
  }

  /** Types of branches change no reference. */
  lemma HoistedWhole(plain: Node, walked: Defs)
    ensures Whole(Hoist.Hoisted(plain), HoistedDefs(walked)) <==> Whole(plain, walked)
  {
    var kept := HoistedDefs(walked);
    Hoist.HoistedRefs(plain);
    forall name | name in kept ensures Refs(kept[name]) == Refs(walked[name]) { Hoist.HoistedRefs(walked[name]); }
    assert kept.Keys == walked.Keys;
  }

  lemma RootExpands(defs: Defs, rec: set<string>, schema: Node, result: Node, kept: Defs)
    requires Accepts(defs, schema) && Given(defs, rec)
    requires schema.Obj? && schema.ref.Some? ==> schema.ref.value in defs && defs[schema.ref.value].Obj?
    requires Refs(Rooted(defs, schema)) <= defs.Keys && result == Walk(defs, rec, Rooted(defs, schema), false)
    requires MeansSame(defs, rec, Rooted(defs, schema), kept)
    ensures Expands(defs, rec, schema, result, kept)
  {
    forall n: nat ensures ExpandsAt(defs, rec, schema, result, kept, n) {
      RootMeans(defs, rec, n + 1, schema);
    }
  }
}
