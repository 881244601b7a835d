/** The schema inliner: expand every reference, except those that would recur. */
module Inliner {
  import opened Basics
  import opened Schema

  const DISCRIMINATOR := "discriminator"
  const ONE_OF := "oneOf"

  /** What the inliner is given: references resolve, definitions are objects, and `rec` are
      exactly the definitions that reach themselves. */
  ghost predicate Given(defs: Defs, rec: set<string>) {
    && Resolved(defs)
    && (forall name :: name in defs ==> defs[name].Obj?)
    && (forall name :: name in rec <==> Recursive(defs, name))
  }

  predicate Kept(fields: map<string, Node>, k: string) {
    k != DISCRIMINATOR || ONE_OF !in fields
  }

  /** `{**target, **siblings}`. */
  function Overlay(target: Node, siblings: map<string, Node>): Node
    requires target.Obj?
  {
    Obj(target.ref, target.fields + siblings)
  }

  /** `walk`.  It ends because a reference followed either makes the walk nested or leads to a
      definition that reaches fewer definitions. */
  ghost function Walk(defs: Defs, rec: set<string>, node: Node, nested: bool): (r: Node)
    requires Given(defs, rec) && Refs(node) <= defs.Keys
    ensures node.Obj? <==> r.Obj?
    decreases !nested, |Reach(defs, node)|, node, 1
  {
    match node
    case Atom(_) => node
    case Arr(items) =>
      Arr(seq(|items|, i requires 0 <= i < |items| =>
        ItemRefs(items, i); ReachOfPart(defs, node, items[i]); Walk(defs, rec, items[i], nested)))
    case Obj(ref, fields) =>
      if ref.None? then Obj(None, WalkFields(defs, rec, node, nested))
      else if nested && ref.value in rec then node
      else
        ReachThrough(defs, node, ref.value);
        NoLarger(Reach(defs, defs[ref.value]), Reach(defs, node));
        if ref.value !in rec then ReachShrinks(defs, node, ref.value);
          Overlay(Walk(defs, rec, defs[ref.value], nested), WalkFields(defs, rec, node, nested))
        else Overlay(Walk(defs, rec, defs[ref.value], true), WalkFields(defs, rec, node, nested))
  }

  ghost function WalkFields(defs: Defs, rec: set<string>, node: Node, nested: bool): map<string, Node>
    requires Given(defs, rec) && Refs(node) <= defs.Keys && node.Obj?
    decreases !nested, |Reach(defs, node)|, node, 0
  {
    map k | k in node.fields && Kept(node.fields, k) ::
      FieldRefs(node.ref, node.fields, k);
      ReachOfPart(defs, node, node.fields[k]);
      Walk(defs, rec, node.fields[k], nested)
  }

  /** The recursive definitions the walk refers to. */
  ghost function Used(defs: Defs, rec: set<string>, node: Node, nested: bool): (r: set<string>)
    requires Given(defs, rec) && Refs(node) <= defs.Keys
    decreases !nested, |Reach(defs, node)|, node, 1
  {
    match node
    case Atom(_) => {}
    case Arr(items) => set i, x | 0 <= i < |items| && x in UsedItem(defs, rec, node, i, nested) :: x
    case Obj(ref, fields) =>
      if ref.None? then UsedFields(defs, rec, node, nested)
      else if nested && ref.value in rec then {ref.value}
      else
        ReachThrough(defs, node, ref.value);
        NoLarger(Reach(defs, defs[ref.value]), Reach(defs, node));
        if ref.value !in rec then ReachShrinks(defs, node, ref.value);
          Used(defs, rec, defs[ref.value], nested) + UsedFields(defs, rec, node, nested)
        else Used(defs, rec, defs[ref.value], true) + UsedFields(defs, rec, node, nested)
  }

  ghost function UsedItem(defs: Defs, rec: set<string>, node: Node, i: nat, nested: bool): set<string>
    requires Given(defs, rec) && Refs(node) <= defs.Keys && node.Arr? && i < |node.items|
    decreases !nested, |Reach(defs, node)|, node, 0
  {
    ItemRefs(node.items, i);
    ReachOfPart(defs, node, node.items[i]);
    Used(defs, rec, node.items[i], nested)
  }

  ghost function UsedField(defs: Defs, rec: set<string>, node: Node, k: string, nested: bool): set<string>
    requires Given(defs, rec) && Refs(node) <= defs.Keys && node.Obj? && k in node.fields
    decreases !nested, |Reach(defs, node)|, node, 0, 0
  {
    FieldRefs(node.ref, node.fields, k);
    ReachOfPart(defs, node, node.fields[k]);
    Used(defs, rec, node.fields[k], nested)
  }

  ghost function UsedFields(defs: Defs, rec: set<string>, node: Node, nested: bool): set<string>
    requires Given(defs, rec) && Refs(node) <= defs.Keys && node.Obj?
    decreases !nested, |Reach(defs, node)|, node, 0, 1
  {
    set k, x | k in node.fields && Kept(node.fields, k) && x in UsedField(defs, rec, node, k, nested) :: x
  }

  /* ---- discriminators ---- */

  /** No object holds a discriminator beside its `oneOf`; a reference, with what stands beside it,
      may hide one. */
  predicate Undiscriminated(node: Node) {
    match node
    case Atom(_) => true
    case Arr(items) => forall i :: 0 <= i < |items| ==> Undiscriminated(items[i])
    case Obj(ref, fields) =>
      (ref.None? ==> !("discriminator" in fields && "oneOf" in fields)) && forall k :: k in fields ==> Undiscriminated(fields[k])
  }

  /** A schema without references. */
  predicate Plain(node: Node) {
    Refs(node) == {}
  }

  /** Of a part without references exactly the discriminators beside a `oneOf` are dropped. */
  lemma {:induction false} DiscriminatorsDropped(defs: Defs, rec: set<string>, node: Node, nested: bool)
    requires Given(defs, rec) && Plain(node)
    ensures Undiscriminated(Walk(defs, rec, node, nested)) && Plain(Walk(defs, rec, node, nested))
    ensures Undiscriminated(node) ==> Walk(defs, rec, node, nested) == node
    ensures node.Obj? ==> forall k :: k in Walk(defs, rec, node, nested).fields <==>
              k in node.fields && !(k == "discriminator" && "oneOf" in node.fields)
    decreases node
  {
    match node
    case Atom(_) =>
    case Arr(items) =>
      forall i | 0 <= i < |items|
        ensures Undiscriminated(Walk(defs, rec, node, nested).items[i]) && Plain(Walk(defs, rec, node, nested).items[i])
        ensures Undiscriminated(node) ==> Walk(defs, rec, node, nested).items[i] == items[i]
      {
        ItemRefs(items, i);
        DiscriminatorsDropped(defs, rec, items[i], nested);
      }
      ArrRefs(Walk(defs, rec, node, nested), {});
    case Obj(ref, fields) =>
      ObjRefs(node, {});
      var walked := WalkFields(defs, rec, node, nested);
      forall k | k in walked
        ensures Undiscriminated(walked[k]) && Plain(walked[k]) && (Undiscriminated(node) ==> walked[k] == fields[k])
      {
        FieldRefs(ref, fields, k);
        DiscriminatorsDropped(defs, rec, fields[k], nested);
      }
      ObjRefs(Obj(None, walked), {});
      if Undiscriminated(node) { assert walked == fields; }
  }

  /* ---- only recursive definitions are kept ---- */

  lemma {:induction false} UsedAreRecursive(defs: Defs, rec: set<string>, node: Node, nested: bool)
    requires Given(defs, rec) && Refs(node) <= defs.Keys
    ensures Used(defs, rec, node, nested) <= rec
    decreases !nested, |Reach(defs, node)|, node, 1
  {
    match node
    case Atom(_) =>
    case Arr(items) =>
      forall i | 0 <= i < |items| ensures UsedItem(defs, rec, node, i, nested) <= rec {
        ItemRefs(items, i);
        ReachOfPart(defs, node, items[i]);
        UsedAreRecursive(defs, rec, items[i], nested);
      }
    case Obj(ref, fields) =>
      forall k | k in fields ensures UsedField(defs, rec, node, k, nested) <= rec {
        FieldRefs(ref, fields, k);
        ReachOfPart(defs, node, fields[k]);
        UsedAreRecursive(defs, rec, fields[k], nested);
      }
      if ref.Some? && !(nested && ref.value in rec) { UsedTarget(defs, rec, node, nested); }
  }

  lemma {:induction false} UsedTarget(defs: Defs, rec: set<string>, node: Node, nested: bool)
    requires Given(defs, rec) && Refs(node) <= defs.Keys
    requires node.Obj? && node.ref.Some? && !(nested && node.ref.value in rec)
    ensures node.ref.value in defs && Used(defs, rec, defs[node.ref.value], nested || node.ref.value in rec) <= rec
    decreases !nested, |Reach(defs, node)|, node, 0
  {
    var name := node.ref.value;
    ReachThrough(defs, node, name);
    if name !in rec { ReachShrinks(defs, node, name); }
    UsedAreRecursive(defs, rec, defs[name], nested || name in rec);
  }

  /* ---- references left in place ---- */

  /** A reference the nested walk leaves in place, its siblings unwalked. */
  predicate Left(rec: set<string>, node: Node, nested: bool) {
    nested && node.Obj? && node.ref.Some? && node.ref.value in rec
  }

  function WalkedKeys(fields: map<string, Node>): set<string> {
    set k | k in fields && Kept(fields, k)
  }

  /** Every reference the walk leaves in place has only siblings that refer into `names`; a
      sibling that ends up overridden, that is one of the `hidden` members, does not matter. */
  ghost predicate Clean(defs: Defs, rec: set<string>, names: set<string>, node: Node, nested: bool, hidden: set<string>)
    requires Given(defs, rec) && Refs(node) <= defs.Keys
    decreases !nested, |Reach(defs, node)|, node, 1
  {
    match node
    case Atom(_) => true
    case Arr(items) => forall i :: 0 <= i < |items| ==> CleanItem(defs, rec, names, node, i, nested)
    case Obj(ref, fields) =>
      if Left(rec, node, nested) then forall k :: k in fields && k !in hidden ==> Refs(fields[k]) <= names
      else
        && CleanFields(defs, rec, names, node, nested, hidden)
        && (ref.Some? ==> CleanTarget(defs, rec, names, node, nested, hidden + WalkedKeys(fields)))
  }

  ghost predicate CleanTarget(defs: Defs, rec: set<string>, names: set<string>, node: Node, nested: bool, hidden: set<string>)
    requires Given(defs, rec) && Refs(node) <= defs.Keys && node.Obj? && node.ref.Some? && !Left(rec, node, nested)
    decreases !nested, |Reach(defs, node)|, node, 0
  {
    ReachThrough(defs, node, node.ref.value);
    NoLarger(Reach(defs, defs[node.ref.value]), Reach(defs, node));
    if node.ref.value !in rec then
      ReachShrinks(defs, node, node.ref.value);
      Clean(defs, rec, names, defs[node.ref.value], nested, hidden)
    else Clean(defs, rec, names, defs[node.ref.value], true, hidden)
  }

  ghost predicate CleanItem(defs: Defs, rec: set<string>, names: set<string>, node: Node, i: nat, nested: bool)
    requires Given(defs, rec) && Refs(node) <= defs.Keys && node.Arr? && i < |node.items|
    decreases !nested, |Reach(defs, node)|, node, 0
  {
    ItemRefs(node.items, i);
    ReachOfPart(defs, node, node.items[i]);
    Clean(defs, rec, names, node.items[i], nested, {})
  }

  ghost predicate CleanField(defs: Defs, rec: set<string>, names: set<string>, node: Node, k: string, nested: bool)
    requires Given(defs, rec) && Refs(node) <= defs.Keys && node.Obj? && k in node.fields
    decreases !nested, |Reach(defs, node)|, node, 0, 0
  {
    FieldRefs(node.ref, node.fields, k);
    ReachOfPart(defs, node, node.fields[k]);
    Clean(defs, rec, names, node.fields[k], nested, {})
  }

  ghost predicate CleanFields(defs: Defs, rec: set<string>, names: set<string>, node: Node, nested: bool, hidden: set<string>)
    requires Given(defs, rec) && Refs(node) <= defs.Keys && node.Obj?
    decreases !nested, |Reach(defs, node)|, node, 0, 1
  {
    forall k :: k in node.fields && Kept(node.fields, k) && k !in hidden ==> CleanField(defs, rec, names, node, k, nested)
  }

  /** A node without some of its members. */
  function Hide(node: Node, hidden: set<string>): Node {
    if node.Obj? then Obj(node.ref, node.fields - hidden) else node
  }

  lemma HideNothing(node: Node)
    ensures Hide(node, {}) == node
  {
    if node.Obj? { assert node.fields - {} == node.fields; }
  }

  lemma ObjRefs(node: Node, names: set<string>)
    requires node.Obj?
    ensures Refs(node) <= names <==> Own(node.ref) <= names && forall k :: k in node.fields ==> Refs(node.fields[k]) <= names
  {
    forall k | k in node.fields ensures Refs(node.fields[k]) <= Refs(node) { FieldRefs(node.ref, node.fields, k); }
  }

  lemma ArrRefs(node: Node, names: set<string>)
    requires node.Arr?
    ensures Refs(node) <= names <==> forall i :: 0 <= i < |node.items| ==> Refs(node.items[i]) <= names
  {
    forall i | 0 <= i < |node.items| ensures Refs(node.items[i]) <= Refs(node) { ItemRefs(node.items, i); }
  }

  /** Hiding members of an overlay hides them in both parts. */
  lemma HideOverlay(target: Node, siblings: map<string, Node>, hidden: set<string>)
    requires target.Obj?
    ensures Hide(Overlay(target, siblings), hidden) == Overlay(Hide(target, hidden + siblings.Keys), siblings - hidden)
  {
    assert (target.fields + siblings) - hidden == (target.fields - (hidden + siblings.Keys)) + (siblings - hidden);
  }

  lemma OverlayRefs(target: Node, siblings: map<string, Node>, names: set<string>)
    requires target.Obj? && target.fields.Keys !! siblings.Keys
    ensures Refs(Overlay(target, siblings)) <= names <==>
            Refs(target) <= names && forall k :: k in siblings ==> Refs(siblings[k]) <= names
  {
    var o := Overlay(target, siblings);
    ObjRefs(o, names);
    ObjRefs(target, names);
    assert forall k :: k in target.fields ==> k in o.fields && o.fields[k] == target.fields[k];
    assert forall k :: k in siblings ==> k in o.fields && o.fields[k] == siblings[k];
  }

  /** What a walked node refers to, hidden members aside, is covered if and only if the walk
      left only clean references in place. */
  lemma {:induction false} CleanIsExact(defs: Defs, rec: set<string>, names: set<string>, node: Node, nested: bool, hidden: set<string>)
    requires Given(defs, rec) && Refs(node) <= defs.Keys && Used(defs, rec, node, nested) <= names
    ensures Refs(Hide(Walk(defs, rec, node, nested), hidden)) <= names <==> Clean(defs, rec, names, node, nested, hidden)
    decreases !nested, |Reach(defs, node)|, node, 1
  {
    match node
    case Atom(_) =>
    case Arr(items) =>
      var walked := Walk(defs, rec, node, nested);
      ArrRefs(walked, names);
      forall i | 0 <= i < |items| ensures Refs(walked.items[i]) <= names <==> CleanItem(defs, rec, names, node, i, nested) {
        ItemRefs(items, i);
        ReachOfPart(defs, node, items[i]);
        forall x | x in Used(defs, rec, items[i], nested) ensures x in names { assert x in UsedItem(defs, rec, node, i, nested); }
        CleanIsExact(defs, rec, names, items[i], nested, {});
        HideNothing(walked.items[i]);
      }
    case Obj(ref, fields) =>
      if Left(rec, node, nested) {
        LeftIsExact(defs, rec, names, node, hidden);
      } else {
        FieldsAreExact(defs, rec, names, node, nested, hidden);
        if ref.None? { OpenIsExact(defs, rec, names, node, nested, hidden); }
        else { TargetIsExact(defs, rec, names, node, nested, hidden); }
      }
  }

  lemma LeftIsExact(defs: Defs, rec: set<string>, names: set<string>, node: Node, hidden: set<string>)
    requires Given(defs, rec) && Refs(node) <= defs.Keys && Used(defs, rec, node, true) <= names && Left(rec, node, true)
    ensures Refs(Hide(Walk(defs, rec, node, true), hidden)) <= names <==> Clean(defs, rec, names, node, true, hidden)
  {
    var shown := node.fields - hidden;
    ObjRefs(Hide(node, hidden), names);
    assert Own(node.ref) <= names;
    assert forall k :: k in node.fields && k !in hidden ==> k in shown && shown[k] == node.fields[k];
  }

  /** The walked members that are not hidden are covered exactly if they are clean. */
  ghost predicate FieldsExact(defs: Defs, rec: set<string>, names: set<string>, node: Node, nested: bool, hidden: set<string>)
    requires Given(defs, rec) && Refs(node) <= defs.Keys && node.Obj?
  {
    var shown := WalkFields(defs, rec, node, nested) - hidden;
    (forall k :: k in shown ==> Refs(shown[k]) <= names) <==> CleanFields(defs, rec, names, node, nested, hidden)
  }

  lemma {:induction false} FieldsAreExact(defs: Defs, rec: set<string>, names: set<string>, node: Node, nested: bool, hidden: set<string>)
    requires Given(defs, rec) && Refs(node) <= defs.Keys && Used(defs, rec, node, nested) <= names && node.Obj? && !Left(rec, node, nested)
    ensures FieldsExact(defs, rec, names, node, nested, hidden)
    decreases !nested, |Reach(defs, node)|, node, 0
  {
    var walked := WalkFields(defs, rec, node, nested);
    forall k | k in walked ensures Refs(walked[k]) <= names <==> CleanField(defs, rec, names, node, k, nested) {
      FieldRefs(node.ref, node.fields, k);
      ReachOfPart(defs, node, node.fields[k]);
      forall x | x in Used(defs, rec, node.fields[k], nested) ensures x in names {
        assert x in UsedField(defs, rec, node, k, nested) && x in UsedFields(defs, rec, node, nested);
      }
      CleanIsExact(defs, rec, names, node.fields[k], nested, {});
      HideNothing(walked[k]);
    }
    var shown := walked - hidden;
    assert forall k :: k in shown <==> k in node.fields && Kept(node.fields, k) && k !in hidden;
    assert forall k :: k in shown ==> shown[k] == walked[k];
  }

  lemma OpenIsExact(defs: Defs, rec: set<string>, names: set<string>, node: Node, nested: bool, hidden: set<string>)
    requires Given(defs, rec) && Refs(node) <= defs.Keys && node.Obj? && node.ref.None?
    requires FieldsExact(defs, rec, names, node, nested, hidden)
    ensures Refs(Hide(Walk(defs, rec, node, nested), hidden)) <= names <==> Clean(defs, rec, names, node, nested, hidden)
  {
    ObjRefs(Hide(Walk(defs, rec, node, nested), hidden), names);
  }

  lemma {:induction false} TargetIsExact(defs: Defs, rec: set<string>, names: set<string>, node: Node, nested: bool, hidden: set<string>)
    requires Given(defs, rec) && Refs(node) <= defs.Keys && Used(defs, rec, node, nested) <= names && node.Obj? && node.ref.Some?
    requires !Left(rec, node, nested) && FieldsExact(defs, rec, names, node, nested, hidden)
    ensures Refs(Hide(Walk(defs, rec, node, nested), hidden)) <= names <==> Clean(defs, rec, names, node, nested, hidden)
    decreases !nested, |Reach(defs, node)|, node, 0
  {
    var name := node.ref.value;
    var inner := nested || name in rec;
    ReachThrough(defs, node, name);
    if name !in rec { ReachShrinks(defs, node, name); }
    var target, siblings := Walk(defs, rec, defs[name], inner), WalkFields(defs, rec, node, nested);
    CleanIsExact(defs, rec, names, defs[name], inner, hidden + WalkedKeys(node.fields));
    HideOverlay(target, siblings, hidden);
    OverlayRefs(Hide(target, hidden + siblings.Keys), siblings - hidden, names);
    WalkedSiblings(defs, rec, node, nested);
  }

  lemma WalkedSiblings(defs: Defs, rec: set<string>, node: Node, nested: bool)
    requires Given(defs, rec) && Refs(node) <= defs.Keys && node.Obj?
    ensures WalkFields(defs, rec, node, nested).Keys == WalkedKeys(node.fields)
  {
  }

  /* ---- schemas that leave only clean references ---- */

  /** Beside a reference to a recursive definition there are no further references, as in
      schemas whose references carry a description or a default. */
  predicate Bare(rec: set<string>, node: Node) {
    match node
    case Atom(_) => true
    case Arr(items) => forall i :: 0 <= i < |items| ==> Bare(rec, items[i])
    case Obj(ref, fields) => forall k :: k in fields ==> Bare(rec, fields[k]) && (ref.Some? && ref.value in rec ==> Refs(fields[k]) == {})
  }

  ghost predicate AllBare(rec: set<string>, defs: Defs) {
    forall name :: name in defs ==> Bare(rec, defs[name])
  }

  lemma {:induction false} BareIsClean(defs: Defs, rec: set<string>, names: set<string>, node: Node, nested: bool, hidden: set<string>)
    requires Given(defs, rec) && Refs(node) <= defs.Keys && AllBare(rec, defs) && Bare(rec, node)
    ensures Clean(defs, rec, names, node, nested, hidden)
    decreases !nested, |Reach(defs, node)|, node, 1
  {
    match node
    case Atom(_) =>
    case Arr(items) =>
      forall i | 0 <= i < |items| ensures CleanItem(defs, rec, names, node, i, nested) {
        ItemRefs(items, i);
        ReachOfPart(defs, node, items[i]);
        BareIsClean(defs, rec, names, items[i], nested, {});
      }
    case Obj(ref, fields) =>
      if !Left(rec, node, nested) {
        forall k | k in fields ensures CleanField(defs, rec, names, node, k, nested) {
          FieldRefs(ref, fields, k);
          ReachOfPart(defs, node, fields[k]);
          BareIsClean(defs, rec, names, fields[k], nested, {});
        }
        if ref.Some? { BareTarget(defs, rec, names, node, nested, hidden + WalkedKeys(fields)); }
      }
  }

  lemma {:induction false} BareTarget(defs: Defs, rec: set<string>, names: set<string>, node: Node, nested: bool, hidden: set<string>)
    requires Given(defs, rec) && Refs(node) <= defs.Keys && AllBare(rec, defs)
    requires node.Obj? && node.ref.Some? && !Left(rec, node, nested)
    ensures CleanTarget(defs, rec, names, node, nested, hidden)
    decreases !nested, |Reach(defs, node)|, node, 0
  {
    var name := node.ref.value;
    ReachThrough(defs, node, name);
    if name !in rec { ReachShrinks(defs, node, name); }
    BareIsClean(defs, rec, names, defs[name], nested || name in rec, hidden);
  }
}
