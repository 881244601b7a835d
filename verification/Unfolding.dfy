/** What a schema means: the tree got by expanding references, with a budget for expansions of
    recursive definitions.  Inlining preserves it at every budget. */
module Unfolding {
  import opened Basics
  import opened Schema
  import opened Inliner

  /** `Cut` is a reference the budget does not reach. */
  datatype Tree = Leaf(text: string) | List(items: seq<Tree>) | Record(fields: map<string, Tree>) | Cut

  type Members = map<string, Tree>

  const NOTHING: Members := map[]

  /** The discriminator of a `oneOf` is dropped. */
  function Drop(f: Members): Members {
    if ONE_OF in f then f - {DISCRIMINATOR} else f
  }

  /** Members laid over a tree. */
  function Over(t: Tree, f: Members): Tree {
    if t.Record? then Record(Drop(t.fields + f)) else t
  }

  /** Every recursive definition of `env` is in `rec`. */
  ghost predicate Covers(env: Defs, rec: set<string>) {
    Resolved(env) && forall name :: Recursive(env, name) ==> name in rec
  }

  ghost function Meaning(env: Defs, rec: set<string>, n: nat, node: Node): Tree
    requires Covers(env, rec) && Refs(node) <= env.Keys
    decreases n, |Reach(env, node)|, node, 1
  {
    match node
    case Atom(text) => Leaf(text)
    case Arr(items) =>
      List(seq(|items|, i requires 0 <= i < |items| =>
        ItemRefs(items, i); ReachOfPart(env, node, items[i]); Meaning(env, rec, n, items[i])))
    case Obj(ref, fields) =>
      if ref.None? then Record(Drop(Meanings(env, rec, n, node)))
      else
        ReachThrough(env, node, ref.value);
        if ref.value !in rec then
          ReachShrinks(env, node, ref.value);
          Over(Meaning(env, rec, n, env[ref.value]), Meanings(env, rec, n, node))
        else if n == 0 then Cut
        else Over(Meaning(env, rec, n - 1, env[ref.value]), Meanings(env, rec, n, node))
  }

  ghost function Meanings(env: Defs, rec: set<string>, n: nat, node: Node): Members
    requires Covers(env, rec) && Refs(node) <= env.Keys && node.Obj?
    decreases n, |Reach(env, node)|, node, 0
  {
    map k | k in node.fields ::
      FieldRefs(node.ref, node.fields, k);
      ReachOfPart(env, node, node.fields[k]);
      Meaning(env, rec, n, node.fields[k])
  }

  /* ---- laying members over each other ---- */

  lemma DropTwice(g: Members, f: Members)
    ensures Drop(Drop(g) + f) == Drop(g + f)
  {
  }

  lemma OverTwice(t: Tree, f: Members, g: Members)
    ensures Over(Over(t, f), g) == Over(t, f + g)
  {
    if t.Record? {
      DropTwice(t.fields + f, g);
      assert t.fields + f + g == t.fields + (f + g);
    }
  }

  lemma MeaningsSplit(env: Defs, rec: set<string>, n: nat, target: Node, siblings: map<string, Node>)
    requires Covers(env, rec) && target.Obj? && Refs(target) <= env.Keys
    requires Refs(Obj(None, siblings)) <= env.Keys && Refs(Overlay(target, siblings)) <= env.Keys
    ensures Meanings(env, rec, n, Overlay(target, siblings))
            == Meanings(env, rec, n, target) + Meanings(env, rec, n, Obj(None, siblings))
  {
  }

  /** The overlay of an inlined target means the target's meaning with the siblings over it. */
  lemma OverlayMeaning(env: Defs, rec: set<string>, n: nat, target: Node, siblings: map<string, Node>)
    requires Covers(env, rec) && target.Obj? && Refs(target) <= env.Keys
    requires Refs(Obj(None, siblings)) <= env.Keys && Refs(Overlay(target, siblings)) <= env.Keys
    ensures Meaning(env, rec, n, Overlay(target, siblings))
            == Over(Meaning(env, rec, n, target), Meanings(env, rec, n, Obj(None, siblings)))
  {
    MeaningsSplit(env, rec, n, target, siblings);
    var own, more := Meanings(env, rec, n, target), Meanings(env, rec, n, Obj(None, siblings));
    if target.ref.None? {
      DropTwice(own, more);
    } else {
      assert target.ref.value in Refs(target);
      if target.ref.value !in rec { OverTwice(Meaning(env, rec, n, env[target.ref.value]), own, more); }
      else if n > 0 { OverTwice(Meaning(env, rec, n - 1, env[target.ref.value]), own, more); }
    }
  }

  /** What an expansion yields has its discriminators dropped. */
  lemma MeaningIsDropped(env: Defs, rec: set<string>, n: nat, node: Node)
    requires Covers(env, rec) && Refs(node) <= env.Keys
    ensures Over(Meaning(env, rec, n, node), map[]) == Meaning(env, rec, n, node)
  {
    var t := Meaning(env, rec, n, node);
    if t.Record? {
      assert t.fields + map[] == t.fields;
      if node.ref.None? {
        DroppedAlready(Meanings(env, rec, n, node));
      } else {
        assert node.ref.value in Refs(node);
        var of := Meaning(env, rec, if node.ref.value in rec then n - 1 else n, env[node.ref.value]);
        DroppedAlready(of.fields + Meanings(env, rec, n, node));
      }
    }
  }

  lemma DroppedAlready(f: Members)
    ensures Drop(Drop(f)) == Drop(f)
  {
  }

  /* ---- inlining preserves meaning ---- */

  /** The definitions kept beside the result: recursive ones, walked, and all they use. */
  ghost predicate KeptDefs(defs: Defs, rec: set<string>, kept: Defs)
    requires Given(defs, rec)
  {
    && kept.Keys <= rec
    && forall name :: name in kept ==>
         && kept[name] == Walk(defs, rec, defs[name], true)
         && Used(defs, rec, defs[name], true) <= kept.Keys
  }

  /** The bodies of the kept definitions leave only clean references in place. */
  ghost predicate CleanBodies(defs: Defs, rec: set<string>, kept: Defs)
    requires Given(defs, rec) && kept.Keys <= rec
  {
    forall name :: name in kept ==> Clean(defs, rec, kept.Keys, defs[name], true, {})
  }

  ghost predicate Setting(defs: Defs, rec: set<string>, kept: Defs) {
    Given(defs, rec) && KeptDefs(defs, rec, kept) && CleanBodies(defs, rec, kept)
  }

  lemma SettingCovers(defs: Defs, rec: set<string>, kept: Defs)
    requires Setting(defs, rec, kept)
    ensures Covers(defs, rec) && Covers(kept, rec)
  {
    forall name | name in kept ensures Refs(kept[name]) <= kept.Keys {
      CleanIsExact(defs, rec, kept.Keys, defs[name], true, {});
      HideNothing(kept[name]);
    }
    assert Resolved(kept);
  }

  ghost predicate Fits(defs: Defs, rec: set<string>, kept: Defs, node: Node, nested: bool, hidden: set<string>)
    requires Given(defs, rec)
  {
    Refs(node) <= defs.Keys && Used(defs, rec, node, nested) <= kept.Keys && Clean(defs, rec, kept.Keys, node, nested, hidden)
  }

  lemma FitsRefs(defs: Defs, rec: set<string>, kept: Defs, node: Node, nested: bool, hidden: set<string>)
    requires Given(defs, rec) && Fits(defs, rec, kept, node, nested, hidden)
    ensures Refs(Hide(Walk(defs, rec, node, nested), hidden)) <= kept.Keys
  {
    CleanIsExact(defs, rec, kept.Keys, node, nested, hidden);
  }

  /** The budget of the original: a walk that is not nested expands one recursive reference. */
  function Budget(n: nat, nested: bool): nat { if nested then n else n + 1 }

  /** With some members laid over it, the walked node means what the node means. */
  ghost predicate Same(defs: Defs, rec: set<string>, kept: Defs, n: nat, node: Node, nested: bool, over: Members)
    requires Setting(defs, rec, kept) && Fits(defs, rec, kept, node, nested, over.Keys)
  {
    SettingCovers(defs, rec, kept);
    FitsRefs(defs, rec, kept, node, nested, over.Keys);
    Over(Meaning(kept, rec, n, Hide(Walk(defs, rec, node, nested), over.Keys)), over)
    == Over(Meaning(defs, rec, Budget(n, nested), node), over)
  }

  /** The walked node means exactly what the node means. */
  ghost predicate Alike(defs: Defs, rec: set<string>, kept: Defs, n: nat, node: Node, nested: bool)
    requires Setting(defs, rec, kept) && Fits(defs, rec, kept, node, nested, {})
  {
    SettingCovers(defs, rec, kept);
    FitsRefs(defs, rec, kept, node, nested, {});
    HideNothing(Walk(defs, rec, node, nested));
    Meaning(kept, rec, n, Walk(defs, rec, node, nested)) == Meaning(defs, rec, Budget(n, nested), node)
  }

  /** With nothing laid over them they mean the same. */
  lemma SameIsAlike(defs: Defs, rec: set<string>, kept: Defs, n: nat, node: Node, nested: bool)
    requires Setting(defs, rec, kept) && Fits(defs, rec, kept, node, nested, NOTHING.Keys)
    requires Same(defs, rec, kept, n, node, nested, NOTHING)
    ensures Fits(defs, rec, kept, node, nested, {}) && Alike(defs, rec, kept, n, node, nested)
  {
    assert NOTHING.Keys == {};
    SettingCovers(defs, rec, kept);
    FitsRefs(defs, rec, kept, node, nested, {});
    HideNothing(Walk(defs, rec, node, nested));
    MeaningIsDropped(kept, rec, n, Walk(defs, rec, node, nested));
    MeaningIsDropped(defs, rec, Budget(n, nested), node);
  }

  /** The kept definitions mean what they meant. */
  ghost predicate BodiesAlike(defs: Defs, rec: set<string>, kept: Defs, n: nat)
    requires Setting(defs, rec, kept)
  {
    forall name :: name in kept ==> BodyAlike(defs, rec, kept, n, name)
  }

  ghost predicate BodyAlike(defs: Defs, rec: set<string>, kept: Defs, n: nat, name: string)
    requires Setting(defs, rec, kept) && name in kept
  {
    SettingCovers(defs, rec, kept);
    Meaning(kept, rec, n, kept[name]) == Meaning(defs, rec, n, defs[name])
  }

  ghost predicate Ready(defs: Defs, rec: set<string>, kept: Defs, n: nat)
    requires Setting(defs, rec, kept)
  {
    n > 0 ==> BodiesAlike(defs, rec, kept, n - 1)
  }

  lemma BodyFits(defs: Defs, rec: set<string>, kept: Defs, name: string)
    requires Setting(defs, rec, kept) && name in kept
    ensures name in defs && kept[name] == Walk(defs, rec, defs[name], true) && Fits(defs, rec, kept, defs[name], true, {})
  {
  }

  /* ---- references left in place ---- */

  /** A node that refers to kept definitions only. */
  lemma {:induction false} KeptMeaning(defs: Defs, rec: set<string>, kept: Defs, n: nat, node: Node)
    requires Setting(defs, rec, kept) && Covers(defs, rec) && Covers(kept, rec)
    requires Refs(node) <= kept.Keys && Refs(node) <= defs.Keys && Ready(defs, rec, kept, n)
    ensures Meaning(kept, rec, n, node) == Meaning(defs, rec, n, node)
    decreases node, 1
  {
    match node
    case Atom(_) =>
    case Arr(items) =>
      forall i | 0 <= i < |items| ensures Meaning(kept, rec, n, node).items[i] == Meaning(defs, rec, n, node).items[i] {
        ItemRefs(items, i);
        KeptMeaning(defs, rec, kept, n, items[i]);
      }
    case Obj(ref, fields) =>
      KeptMembers(defs, rec, kept, n, node);
      if ref.Some? { KeptRef(defs, rec, kept, n, node); }
  }

  lemma {:induction false} KeptMembers(defs: Defs, rec: set<string>, kept: Defs, n: nat, node: Node)
    requires Setting(defs, rec, kept) && Covers(defs, rec) && Covers(kept, rec) && node.Obj?
    requires Refs(node) <= kept.Keys && Refs(node) <= defs.Keys && Ready(defs, rec, kept, n)
    ensures Meanings(kept, rec, n, node) == Meanings(defs, rec, n, node)
    decreases node, 0
  {
    var now, was := Meanings(kept, rec, n, node), Meanings(defs, rec, n, node);
    forall k | k in node.fields ensures now[k] == was[k] {
      FieldRefs(node.ref, node.fields, k);
      KeptMeaning(defs, rec, kept, n, node.fields[k]);
    }
  }

  lemma KeptRef(defs: Defs, rec: set<string>, kept: Defs, n: nat, node: Node)
    requires Setting(defs, rec, kept) && Covers(defs, rec) && Covers(kept, rec)
    requires node.Obj? && node.ref.Some?
    requires Refs(node) <= kept.Keys && Refs(node) <= defs.Keys && Ready(defs, rec, kept, n)
    requires Meanings(kept, rec, n, node) == Meanings(defs, rec, n, node)
    ensures Meaning(kept, rec, n, node) == Meaning(defs, rec, n, node)
  {
    var name := node.ref.value;
    assert name in Refs(node);
    RefMeaning(kept, rec, n, node);
    RefMeaning(defs, rec, n, node);
    if n > 0 { assert BodyAlike(defs, rec, kept, n - 1, name); }
  }

  lemma RefMeaning(env: Defs, rec: set<string>, n: nat, node: Node)
    requires Covers(env, rec) && Refs(node) <= env.Keys && node.Obj? && node.ref.Some? && node.ref.value in rec
    ensures node.ref.value in env && Refs(env[node.ref.value]) <= env.Keys
    ensures Meaning(env, rec, n, node) == if n == 0 then Cut else Over(Meaning(env, rec, n - 1, env[node.ref.value]), Meanings(env, rec, n, node))
  {
    assert node.ref.value in Refs(node);
  }

  lemma LeftSame(defs: Defs, rec: set<string>, kept: Defs, n: nat, node: Node, over: Members)
    requires Setting(defs, rec, kept) && Fits(defs, rec, kept, node, true, over.Keys) && Left(rec, node, true)
    requires Ready(defs, rec, kept, n)
    ensures Same(defs, rec, kept, n, node, true, over)
  {
    SettingCovers(defs, rec, kept);
    FitsRefs(defs, rec, kept, node, true, over.Keys);
    var shown := Hide(node, over.Keys);
    RefMeaning(kept, rec, n, shown);
    RefMeaning(defs, rec, n, node);
    if n > 0 {
      var now, was := Meanings(kept, rec, n, shown), Meanings(defs, rec, n, node);
      LeftMembers(defs, rec, kept, n, node, over);
      assert BodyAlike(defs, rec, kept, n - 1, node.ref.value);
      var t := Meaning(kept, rec, n - 1, kept[node.ref.value]);
      OverTwice(t, now, over);
      OverTwice(t, was, over);
    }
  }

  lemma LeftMembers(defs: Defs, rec: set<string>, kept: Defs, n: nat, node: Node, over: Members)
    requires Setting(defs, rec, kept) && Fits(defs, rec, kept, node, true, over.Keys) && Left(rec, node, true)
    requires Covers(defs, rec) && Covers(kept, rec) && Ready(defs, rec, kept, n)
    requires Refs(Hide(node, over.Keys)) <= kept.Keys
    ensures Meanings(kept, rec, n, Hide(node, over.Keys)) + over == Meanings(defs, rec, n, node) + over
  {
    var shown := Hide(node, over.Keys);
    var now, was := Meanings(kept, rec, n, shown), Meanings(defs, rec, n, node);
    forall k | k in now ensures now[k] == was[k] { LeftMember(defs, rec, kept, n, node, over.Keys, k); }
    SameShown(was, now, over);
  }

  lemma SameShown(was: Members, now: Members, over: Members)
    requires now.Keys == was.Keys - over.Keys && forall k :: k in now ==> now[k] == was[k]
    ensures now + over == was + over
  {
  }

  lemma LeftMember(defs: Defs, rec: set<string>, kept: Defs, n: nat, node: Node, hidden: set<string>, k: string)
    requires Setting(defs, rec, kept) && node.Obj? && Refs(node) <= defs.Keys && k in node.fields && k !in hidden
    requires Covers(defs, rec) && Covers(kept, rec) && Ready(defs, rec, kept, n)
    requires Refs(Hide(node, hidden)) <= kept.Keys
    ensures Meanings(kept, rec, n, Hide(node, hidden))[k] == Meanings(defs, rec, n, node)[k]
  {
    var shown := Hide(node, hidden);
    FieldRefs(shown.ref, shown.fields, k);
    FieldRefs(node.ref, node.fields, k);
    KeptMeaning(defs, rec, kept, n, node.fields[k]);
  }

  /* ---- parts of a walked node ---- */

  lemma ItemFits(defs: Defs, rec: set<string>, kept: Defs, node: Node, nested: bool, hidden: set<string>, i: nat)
    requires Given(defs, rec) && Fits(defs, rec, kept, node, nested, hidden) && node.Arr? && i < |node.items|
    ensures Fits(defs, rec, kept, node.items[i], nested, {})
    ensures |Reach(defs, node.items[i])| <= |Reach(defs, node)|
  {
    ItemRefs(node.items, i);
    ReachOfPart(defs, node, node.items[i]);
    assert CleanItem(defs, rec, kept.Keys, node, i, nested);
    forall x | x in Used(defs, rec, node.items[i], nested) ensures x in kept.Keys {
      assert x in UsedItem(defs, rec, node, i, nested);
    }
  }

  lemma FieldFits(defs: Defs, rec: set<string>, kept: Defs, node: Node, nested: bool, hidden: set<string>, k: string)
    requires Given(defs, rec) && Fits(defs, rec, kept, node, nested, hidden) && node.Obj? && !Left(rec, node, nested)
    requires k in node.fields && Kept(node.fields, k) && k !in hidden
    ensures Fits(defs, rec, kept, node.fields[k], nested, {})
    ensures |Reach(defs, node.fields[k])| <= |Reach(defs, node)|
  {
    FieldRefs(node.ref, node.fields, k);
    ReachOfPart(defs, node, node.fields[k]);
    assert CleanFields(defs, rec, kept.Keys, node, nested, hidden);
    assert CleanField(defs, rec, kept.Keys, node, k, nested);
    forall x | x in Used(defs, rec, node.fields[k], nested) ensures x in kept.Keys {
      assert x in UsedField(defs, rec, node, k, nested) && x in UsedFields(defs, rec, node, nested);
    }
  }

  lemma TargetFits(defs: Defs, rec: set<string>, kept: Defs, node: Node, nested: bool, hidden: set<string>)
    requires Given(defs, rec) && Fits(defs, rec, kept, node, nested, hidden) && node.Obj? && node.ref.Some? && !Left(rec, node, nested)
    ensures node.ref.value in defs
    ensures Fits(defs, rec, kept, defs[node.ref.value], nested || node.ref.value in rec, hidden + WalkedKeys(node.fields))
    ensures node.ref.value !in rec ==> |Reach(defs, defs[node.ref.value])| < |Reach(defs, node)|
  {
    ReachThrough(defs, node, node.ref.value);
    if node.ref.value !in rec { ReachShrinks(defs, node, node.ref.value); }
    assert CleanTarget(defs, rec, kept.Keys, node, nested, hidden + WalkedKeys(node.fields));
  }

  lemma ArrSame(defs: Defs, rec: set<string>, kept: Defs, n: nat, node: Node, nested: bool, over: Members)
    requires Setting(defs, rec, kept) && Fits(defs, rec, kept, node, nested, over.Keys) && node.Arr?
    requires forall i :: 0 <= i < |node.items| ==>
               Fits(defs, rec, kept, node.items[i], nested, {}) && Alike(defs, rec, kept, n, node.items[i], nested)
    ensures Same(defs, rec, kept, n, node, nested, over)
  {
    SettingCovers(defs, rec, kept);
    FitsRefs(defs, rec, kept, node, nested, over.Keys);
    var a, b := Meaning(kept, rec, n, Walk(defs, rec, node, nested)), Meaning(defs, rec, Budget(n, nested), node);
    forall i | 0 <= i < |node.items| ensures a.items[i] == b.items[i] {
      assert Alike(defs, rec, kept, n, node.items[i], nested);
    }
  }

  /* ---- members ---- */

  /** The walked members of a node that are not laid over. */
  ghost function Shown(defs: Defs, rec: set<string>, node: Node, nested: bool, hidden: set<string>): Node
    requires Given(defs, rec) && Refs(node) <= defs.Keys && node.Obj?
  {
    Obj(None, WalkFields(defs, rec, node, nested) - hidden)
  }

  ghost predicate FieldsAlike(defs: Defs, rec: set<string>, kept: Defs, n: nat, node: Node, nested: bool, hidden: set<string>)
    requires Setting(defs, rec, kept) && node.Obj?
  {
    forall k :: k in node.fields && Kept(node.fields, k) && k !in hidden ==>
      Fits(defs, rec, kept, node.fields[k], nested, {}) && Alike(defs, rec, kept, n, node.fields[k], nested)
  }

  lemma ShownRefs(defs: Defs, rec: set<string>, kept: Defs, n: nat, node: Node, nested: bool, hidden: set<string>)
    requires Setting(defs, rec, kept) && Refs(node) <= defs.Keys && node.Obj? && FieldsAlike(defs, rec, kept, n, node, nested, hidden)
    ensures Refs(Shown(defs, rec, node, nested, hidden)) <= kept.Keys
  {
    var shown := Shown(defs, rec, node, nested, hidden);
    forall k | k in shown.fields ensures Refs(shown.fields[k]) <= kept.Keys {
      FitsRefs(defs, rec, kept, node.fields[k], nested, {});
      HideNothing(shown.fields[k]);
    }
    ObjRefs(shown, kept.Keys);
  }

  /** The members shown are those walked and not laid over, and mean what they meant. */
  ghost predicate Shows(was: Members, now: Members, fields: map<string, Node>, hidden: set<string>) {
    && was.Keys == fields.Keys && now.Keys == WalkedKeys(fields) - hidden
    && forall k :: k in now ==> now[k] == was[k]
  }

  lemma MembersAlike(defs: Defs, rec: set<string>, kept: Defs, n: nat, node: Node, nested: bool, hidden: set<string>)
    requires Setting(defs, rec, kept) && Refs(node) <= defs.Keys && node.Obj? && FieldsAlike(defs, rec, kept, n, node, nested, hidden)
    requires Covers(defs, rec) && Covers(kept, rec) && Refs(Shown(defs, rec, node, nested, hidden)) <= kept.Keys
    ensures Shows(Meanings(defs, rec, Budget(n, nested), node), Meanings(kept, rec, n, Shown(defs, rec, node, nested, hidden)), node.fields, hidden)
  {
    var shown := Shown(defs, rec, node, nested, hidden);
    var was, now := Meanings(defs, rec, Budget(n, nested), node), Meanings(kept, rec, n, shown);
    WalkedSiblings(defs, rec, node, nested);
    forall k | k in now ensures now[k] == was[k] {
      assert Alike(defs, rec, kept, n, node.fields[k], nested);
    }
  }

  /** Members left out because they are laid over, or because they are the discriminator of a
      `oneOf`, make no difference. */
  lemma LaidOver(x: Members, was: Members, now: Members, fields: map<string, Node>, over: Members)
    requires Shows(was, now, fields, over.Keys)
    ensures Drop(x + (now + over)) == Drop(x + (was + over))
  {
    var a, b := now + over, was + over;
    if ONE_OF in was {
      assert a - {DISCRIMINATOR} == b - {DISCRIMINATOR} && (ONE_OF in a && ONE_OF in b);
      DropAnyway(x, a, b);
    } else {
      assert a == b;
    }
  }

  lemma DropAnyway(x: Members, a: Members, b: Members)
    requires ONE_OF in a && ONE_OF in b && a - {DISCRIMINATOR} == b - {DISCRIMINATOR}
    ensures Drop(x + a) == Drop(x + b)
  {
    forall k | k in x + a && k != DISCRIMINATOR ensures k in x + b && (x + a)[k] == (x + b)[k] {
      assert k in a ==> k in a - {DISCRIMINATOR} && (a - {DISCRIMINATOR})[k] == a[k];
      assert k in b ==> k in b - {DISCRIMINATOR} && (b - {DISCRIMINATOR})[k] == b[k];
    }
    forall k | k in x + b && k != DISCRIMINATOR ensures k in x + a {
      assert k in b ==> k in b - {DISCRIMINATOR};
    }
    assert (x + a) - {DISCRIMINATOR} == (x + b) - {DISCRIMINATOR};
  }

  lemma LaidOverTree(t: Tree, was: Members, now: Members, fields: map<string, Node>, over: Members)
    requires Shows(was, now, fields, over.Keys)
    ensures Over(t, now + over) == Over(Over(t, was), over)
  {
    OverTwice(t, was, over);
    if t.Record? { LaidOver(t.fields, was, now, fields, over); }
  }

  lemma LaidOpen(was: Members, now: Members, fields: map<string, Node>, over: Members)
    requires Shows(was, now, fields, over.Keys)
    ensures Drop(now + over) == Drop(was + over)
  {
    LaidOver(NOTHING, was, now, fields, over);
    assert NOTHING + (now + over) == now + over && NOTHING + (was + over) == was + over;
  }

  lemma OpenMeaning(env: Defs, rec: set<string>, n: nat, node: Node, over: Members)
    requires Covers(env, rec) && Refs(node) <= env.Keys && node.Obj? && node.ref.None?
    ensures Over(Meaning(env, rec, n, node), over) == Record(Drop(Meanings(env, rec, n, node) + over))
  {
    DropTwice(Meanings(env, rec, n, node), over);
  }

  lemma OpenSame(defs: Defs, rec: set<string>, kept: Defs, n: nat, node: Node, nested: bool, over: Members)
    requires Setting(defs, rec, kept) && Fits(defs, rec, kept, node, nested, over.Keys) && node.Obj? && node.ref.None?
    requires Covers(defs, rec) && Covers(kept, rec) && Refs(Shown(defs, rec, node, nested, over.Keys)) <= kept.Keys
    requires Shows(Meanings(defs, rec, Budget(n, nested), node), Meanings(kept, rec, n, Shown(defs, rec, node, nested, over.Keys)), node.fields, over.Keys)
    ensures Same(defs, rec, kept, n, node, nested, over)
  {
    var shown := Shown(defs, rec, node, nested, over.Keys);
    LaidOpen(Meanings(defs, rec, Budget(n, nested), node), Meanings(kept, rec, n, shown), node.fields, over);
    OpenMeaning(kept, rec, n, shown, over);
    OpenMeaning(defs, rec, Budget(n, nested), node, over);
    assert Hide(Walk(defs, rec, node, nested), over.Keys) == shown;
  }

  lemma TargetMeaning(defs: Defs, rec: set<string>, n: nat, node: Node, nested: bool)
    requires Covers(defs, rec) && Refs(node) <= defs.Keys && node.Obj? && node.ref.Some? && !Left(rec, node, nested)
    ensures node.ref.value in defs && Refs(defs[node.ref.value]) <= defs.Keys
    ensures Meaning(defs, rec, Budget(n, nested), node)
            == Over(Meaning(defs, rec, Budget(n, nested || node.ref.value in rec), defs[node.ref.value]), Meanings(defs, rec, Budget(n, nested), node))
  {
    assert node.ref.value in Refs(node);
  }

  /** A reference replaced by its walked definition with the siblings over it. */
  lemma RefSame(defs: Defs, rec: set<string>, kept: Defs, n: nat, node: Node, nested: bool, over: Members, more: Members)
    requires Setting(defs, rec, kept) && Fits(defs, rec, kept, node, nested, over.Keys) && node.Obj? && node.ref.Some? && !Left(rec, node, nested)
    requires Covers(defs, rec) && Covers(kept, rec) && Refs(Shown(defs, rec, node, nested, over.Keys)) <= kept.Keys
    requires more == Meanings(kept, rec, n, Shown(defs, rec, node, nested, over.Keys)) + over && more.Keys == over.Keys + WalkedKeys(node.fields)
    requires Shows(Meanings(defs, rec, Budget(n, nested), node), Meanings(kept, rec, n, Shown(defs, rec, node, nested, over.Keys)), node.fields, over.Keys)
    requires node.ref.value in defs && Fits(defs, rec, kept, defs[node.ref.value], nested || node.ref.value in rec, more.Keys)
    requires Same(defs, rec, kept, n, defs[node.ref.value], nested || node.ref.value in rec, more)
    ensures Same(defs, rec, kept, n, node, nested, over)
  {
    TargetMeaning(defs, rec, n, node, nested);
    ShownTarget(defs, rec, kept, n, node, nested, over, more);
    LaidOverTree(Meaning(defs, rec, Budget(n, nested || node.ref.value in rec), defs[node.ref.value]),
                 Meanings(defs, rec, Budget(n, nested), node), Meanings(kept, rec, n, Shown(defs, rec, node, nested, over.Keys)), node.fields, over);
  }

  lemma ShownTarget(defs: Defs, rec: set<string>, kept: Defs, n: nat, node: Node, nested: bool, over: Members, more: Members)
    requires Setting(defs, rec, kept) && Fits(defs, rec, kept, node, nested, over.Keys) && node.Obj? && node.ref.Some? && !Left(rec, node, nested)
    requires Covers(defs, rec) && Covers(kept, rec) && Refs(Shown(defs, rec, node, nested, over.Keys)) <= kept.Keys
    requires more == Meanings(kept, rec, n, Shown(defs, rec, node, nested, over.Keys)) + over
    requires more.Keys == over.Keys + WalkedKeys(node.fields)
    requires node.ref.value in defs && Fits(defs, rec, kept, defs[node.ref.value], nested || node.ref.value in rec, more.Keys)
    ensures var target := Hide(Walk(defs, rec, defs[node.ref.value], nested || node.ref.value in rec), more.Keys);
            var whole := Hide(Walk(defs, rec, node, nested), over.Keys);
            && Refs(target) <= kept.Keys && Refs(whole) <= kept.Keys
            && Over(Meaning(kept, rec, n, whole), over) == Over(Meaning(kept, rec, n, target), more)
  {
    var walked := Walk(defs, rec, defs[node.ref.value], nested || node.ref.value in rec);
    var siblings := WalkFields(defs, rec, node, nested);
    FitsRefs(defs, rec, kept, node, nested, over.Keys);
    FitsRefs(defs, rec, kept, defs[node.ref.value], nested || node.ref.value in rec, more.Keys);
    WalkedSiblings(defs, rec, node, nested);
    HideOverlay(walked, siblings, over.Keys);
    var target := Hide(walked, more.Keys);
    OverlayMeaning(kept, rec, n, target, siblings - over.Keys);
    OverTwice(Meaning(kept, rec, n, target), Meanings(kept, rec, n, Shown(defs, rec, node, nested, over.Keys)), over);
  }

  /* ---- the induction ---- */

  /** Whatever the schema, the definitions and what is laid over, one budget at a time. */
  lemma {:induction false} WalkPreserves(defs: Defs, rec: set<string>, kept: Defs, n: nat, node: Node, nested: bool, over: Members)
    requires Setting(defs, rec, kept) && Fits(defs, rec, kept, node, nested, over.Keys)
    requires Ready(defs, rec, kept, n)
    ensures Same(defs, rec, kept, n, node, nested, over)
    decreases !nested, |Reach(defs, node)|, node, 2
  {
    match node
    case Atom(_) => SettingCovers(defs, rec, kept);
    case Arr(items) =>
      forall i | 0 <= i < |items| ensures Fits(defs, rec, kept, items[i], nested, {}) && Alike(defs, rec, kept, n, items[i], nested) {
        ItemFits(defs, rec, kept, node, nested, over.Keys, i);
        PlainPreserves(defs, rec, kept, n, items[i], nested);
      }
      ArrSame(defs, rec, kept, n, node, nested, over);
    case Obj(_, _) =>
      if Left(rec, node, nested) { LeftSame(defs, rec, kept, n, node, over); }
      else { ObjPreserves(defs, rec, kept, n, node, nested, over); }
  }

  lemma {:induction false} ObjPreserves(defs: Defs, rec: set<string>, kept: Defs, n: nat, node: Node, nested: bool, over: Members)
    requires Setting(defs, rec, kept) && Fits(defs, rec, kept, node, nested, over.Keys) && node.Obj? && !Left(rec, node, nested)
    requires Ready(defs, rec, kept, n)
    ensures Same(defs, rec, kept, n, node, nested, over)
    decreases !nested, |Reach(defs, node)|, node, 1
  {
    forall k | k in node.fields && Kept(node.fields, k) && k !in over.Keys
      ensures Fits(defs, rec, kept, node.fields[k], nested, {}) && Alike(defs, rec, kept, n, node.fields[k], nested)
    {
      FieldFits(defs, rec, kept, node, nested, over.Keys, k);
      PlainPreserves(defs, rec, kept, n, node.fields[k], nested);
    }
    SettingCovers(defs, rec, kept);
    ShownRefs(defs, rec, kept, n, node, nested, over.Keys);
    MembersAlike(defs, rec, kept, n, node, nested, over.Keys);
    if node.ref.None? { OpenSame(defs, rec, kept, n, node, nested, over); }
    else { RefPreserves(defs, rec, kept, n, node, nested, over, Meanings(kept, rec, n, Shown(defs, rec, node, nested, over.Keys)) + over); }
  }

  lemma {:induction false} RefPreserves(defs: Defs, rec: set<string>, kept: Defs, n: nat, node: Node, nested: bool, over: Members, more: Members)
    requires Setting(defs, rec, kept) && Fits(defs, rec, kept, node, nested, over.Keys) && node.Obj? && node.ref.Some? && !Left(rec, node, nested)
    requires Ready(defs, rec, kept, n) && Covers(defs, rec) && Covers(kept, rec) && Refs(Shown(defs, rec, node, nested, over.Keys)) <= kept.Keys
    requires more == Meanings(kept, rec, n, Shown(defs, rec, node, nested, over.Keys)) + over
    requires Shows(Meanings(defs, rec, Budget(n, nested), node), Meanings(kept, rec, n, Shown(defs, rec, node, nested, over.Keys)), node.fields, over.Keys)
    ensures Same(defs, rec, kept, n, node, nested, over)
    decreases !nested, |Reach(defs, node)|, node, 0
  {
    assert more.Keys == over.Keys + WalkedKeys(node.fields);
    TargetFits(defs, rec, kept, node, nested, over.Keys);
    WalkPreserves(defs, rec, kept, n, defs[node.ref.value], nested || node.ref.value in rec, more);
    RefSame(defs, rec, kept, n, node, nested, over, more);
  }

  lemma {:induction false} PlainPreserves(defs: Defs, rec: set<string>, kept: Defs, n: nat, node: Node, nested: bool)
    requires Setting(defs, rec, kept) && Fits(defs, rec, kept, node, nested, {})
    requires Ready(defs, rec, kept, n)
    ensures Alike(defs, rec, kept, n, node, nested)
    decreases !nested, |Reach(defs, node)|, node, 3
  {
    assert NOTHING.Keys == {};
    WalkPreserves(defs, rec, kept, n, node, nested, NOTHING);
    SameIsAlike(defs, rec, kept, n, node, nested);
  }

  lemma {:induction false} BodiesPreserved(defs: Defs, rec: set<string>, kept: Defs, n: nat)
    requires Setting(defs, rec, kept)
    ensures Ready(defs, rec, kept, n)
    decreases n
  {
    if n > 0 {
      BodiesPreserved(defs, rec, kept, n - 1);
      forall name | name in kept ensures BodyAlike(defs, rec, kept, n - 1, name) {
        BodyFits(defs, rec, kept, name);
        PlainPreserves(defs, rec, kept, n - 1, defs[name], true);
      }
    }
  }

  /** Whatever the schema, the definitions and the budget, the inlined schema means what the
      original means. */
  lemma InliningPreserves(defs: Defs, rec: set<string>, kept: Defs, n: nat, node: Node, nested: bool)
    requires Setting(defs, rec, kept) && Fits(defs, rec, kept, node, nested, {})
    ensures Alike(defs, rec, kept, n, node, nested)
  {
    BodiesPreserved(defs, rec, kept, n);
    PlainPreserves(defs, rec, kept, n, node, nested);
  }
}
