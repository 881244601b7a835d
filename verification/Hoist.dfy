/** `_hoist_branch_type`: a node whose branches agree on a type is given that type. */
module Hoist {
  import opened Basics
  import opened Schema
  import opened Inliner

  const TYPE := "type"
  const ANY_OF := "anyOf"
  const DEFAULT := "default"

  /** The JSON string `null`, a branch type, and the JSON value `null`, which reads as none. */
  const NULL := Atom("\"null\"")
  const NONE := Atom("null")

  /** The list of branches a node lists. */
  function Branches(fields: map<string, Node>): Option<seq<Node>> {
    var listed := if ANY_OF in fields then Some(fields[ANY_OF]) else if ONE_OF in fields then Some(fields[ONE_OF]) else None;
    if listed.Some? && listed.value.Arr? then Some(listed.value.items) else None
  }

  /** The types of the branches that are objects, in order. */
  function Types(branches: seq<Node>): seq<Node> {
    if branches == [] then []
    else
      var front, last := Types(branches[..|branches| - 1]), branches[|branches| - 1];
      if last.Obj? then front + [if TYPE in last.fields then last.fields[TYPE] else NONE] else front
  }

  function NotNull(types: seq<Node>): seq<Node> {
    if types == [] then []
    else if types[|types| - 1] != NULL then NotNull(types[..|types| - 1]) + [types[|types| - 1]]
    else NotNull(types[..|types| - 1])
  }

  /** The type the branches share, nulls aside. */
  function Shared(types: seq<Node>): Option<Node> {
    var kinds := NotNull(types);
    if kinds != [] && NONE !in kinds && forall i :: 0 <= i < |kinds| ==> kinds[i] == kinds[0] then Some(kinds[0]) else None
  }

  /** The type a node is given: one it does not have, and null branches only with a default. */
  function BranchType(fields: map<string, Node>): Option<Node> {
    if TYPE in fields || Branches(fields).None? then None
    else
      var types := Types(Branches(fields).value);
      if NULL !in types || DEFAULT in fields then Shared(types) else None
  }

  function Typed(fields: map<string, Node>): map<string, Node> {
    if BranchType(fields).Some? then fields[TYPE := BranchType(fields).value] else fields
  }

  function Hoisted(node: Node): (r: Node)
    ensures node.Obj? ==> r.Obj? && r.ref == node.ref && node.fields.Keys <= r.fields.Keys <= node.fields.Keys + {TYPE}
    ensures node.Arr? ==> r.Arr? && |r.items| == |node.items|
    ensures node.Atom? ==> r == node
  {
    match node
    case Atom(_) => node
    case Arr(items) => Arr(seq(|items|, i requires 0 <= i < |items| => Hoisted(items[i])))
    case Obj(ref, fields) => Obj(ref, Typed(map k | k in fields :: Hoisted(fields[k])))
  }

  function HoistedFields(fields: map<string, Node>): map<string, Node> {
    map k | k in fields :: Hoisted(fields[k])
  }

  /* ---- nothing but types is added ---- */

  lemma {:induction false} TypesHaveNoRefs(branches: seq<Node>, names: set<string>)
    requires forall i :: 0 <= i < |branches| ==> Refs(branches[i]) <= names
    ensures forall t :: t in Types(branches) ==> Refs(t) <= names
    decreases |branches|
  {
    if branches != [] {
      var last := branches[|branches| - 1];
      TypesHaveNoRefs(branches[..|branches| - 1], names);
      if last.Obj? && TYPE in last.fields { FieldRefs(last.ref, last.fields, TYPE); }
    }
  }

  lemma {:induction false} NotNullAreTypes(types: seq<Node>)
    ensures forall t :: t in NotNull(types) ==> t in types && t != NULL
    ensures forall t :: t in types && t != NULL ==> t in NotNull(types)
    decreases |types|
  {
    if types != [] {
      NotNullAreTypes(types[..|types| - 1]);
      assert types == types[..|types| - 1] + [types[|types| - 1]];
    }
  }

  /** All branches state this type, but for null branches beside a default. */
  ghost predicate Agreed(types: seq<Node>, t: Node, nullable: bool) {
    t != NULL && t != NONE && t in types && forall x :: x in types ==> x == t || (nullable && x == NULL)
  }

  /** A node without a type is given one exactly if its branches agree on it. */
  lemma BranchTypeIsAgreed(fields: map<string, Node>, t: Node)
    requires TYPE !in fields && Branches(fields).Some?
    ensures BranchType(fields) == Some(t) <==> Agreed(Types(Branches(fields).value), t, DEFAULT in fields)
  {
    var types := Types(Branches(fields).value);
    var kinds := NotNull(types);
    NotNullAreTypes(types);
    if BranchType(fields) == Some(t) {
      assert kinds[0] in kinds;
      forall x | x in types ensures x == t || (DEFAULT in fields && x == NULL) {
        if x != NULL { var i :| 0 <= i < |kinds| && kinds[i] == x; }
      }
    }
    if Agreed(types, t, DEFAULT in fields) { AgreedIsShared(types, t, DEFAULT in fields); }
  }

  lemma AgreedIsShared(types: seq<Node>, t: Node, nullable: bool)
    requires Agreed(types, t, nullable)
    ensures Shared(types) == Some(t)
  {
    var kinds := NotNull(types);
    NotNullAreTypes(types);
    assert t in kinds;
    forall i | 0 <= i < |kinds| ensures kinds[i] == t {
      assert kinds[i] in kinds;
      assert kinds[i] in types && kinds[i] != NULL;
    }
  }

  lemma BranchTypeRefs(ref: Option<string>, fields: map<string, Node>)
    requires BranchType(fields).Some?
    ensures Refs(BranchType(fields).value) <= Refs(Obj(ref, fields))
  {
    var branches, key := Branches(fields).value, if ANY_OF in fields then ANY_OF else ONE_OF;
    BranchTypeIsAgreed(fields, BranchType(fields).value);
    FieldRefs(ref, fields, key);
    forall i | 0 <= i < |branches| ensures Refs(branches[i]) <= Refs(Obj(ref, fields)) { ItemRefs(branches, i); }
    TypesHaveNoRefs(branches, Refs(Obj(ref, fields)));
  }

  /** Giving types adds no reference and loses none. */
  lemma {:induction false} HoistedRefs(node: Node)
    ensures Refs(Hoisted(node)) == Refs(node)
  {
    match node
    case Atom(_) =>
    case Arr(items) =>
      forall i | 0 <= i < |items| ensures Refs(Hoisted(items[i])) == Refs(items[i]) { HoistedRefs(items[i]); }
      HoistedItemsRefs(items);
    case Obj(ref, fields) =>
      forall k | k in fields ensures Refs(Hoisted(fields[k])) == Refs(fields[k]) { HoistedRefs(fields[k]); }
      HoistedFieldsRefs(ref, fields);
      TypedRefs(ref, HoistedFields(fields));
  }

  lemma HoistedItemsRefs(items: seq<Node>)
    requires forall i :: 0 <= i < |items| ==> Refs(Hoisted(items[i])) == Refs(items[i])
    ensures Refs(Hoisted(Arr(items))) == Refs(Arr(items))
  {
    var h := Hoisted(Arr(items)).items;
    assert forall i :: 0 <= i < |h| ==> Refs(h[i]) == Refs(items[i]);
  }

  lemma HoistedFieldsRefs(ref: Option<string>, fields: map<string, Node>)
    requires forall k :: k in fields ==> Refs(Hoisted(fields[k])) == Refs(fields[k])
    ensures Refs(Obj(ref, HoistedFields(fields))) == Refs(Obj(ref, fields))
  {
    var h := HoistedFields(fields);
    assert forall k :: k in h <==> k in fields;
    assert forall k :: k in h ==> Refs(h[k]) == Refs(fields[k]);
  }

  lemma TypedRefs(ref: Option<string>, fields: map<string, Node>)
    ensures Refs(Obj(ref, Typed(fields))) == Refs(Obj(ref, fields))
  {
    if BranchType(fields).Some? {
      var typed := Typed(fields);
      BranchTypeRefs(ref, fields);
      forall k | k in typed ensures Refs(typed[k]) <= Refs(Obj(ref, fields)) {
        if k != TYPE { FieldRefs(ref, fields, k); }
      }
      forall k | k in fields ensures Refs(fields[k]) <= Refs(Obj(ref, typed)) {
        assert typed[k] == fields[k];
        FieldRefs(ref, typed, k);
      }
    }
  }

  /** A node with types added, at any depth, and nothing else changed. */
  ghost predicate Extends(node: Node, more: Node) {
    match node
    case Atom(_) => more == node
    case Arr(items) => more.Arr? && |more.items| == |items| && forall i :: 0 <= i < |items| ==> Extends(items[i], more.items[i])
    case Obj(ref, fields) =>
      && more.Obj? && more.ref == ref && fields.Keys <= more.fields.Keys <= fields.Keys + {TYPE}
      && forall k :: k in fields ==> Extends(fields[k], more.fields[k])
  }

  lemma {:induction false} OnlyTypesAdded(node: Node)
    ensures Extends(node, Hoisted(node))
  {
    match node
    case Atom(_) =>
    case Arr(items) => forall i | 0 <= i < |items| ensures Extends(items[i], Hoisted(items[i])) { OnlyTypesAdded(items[i]); }
    case Obj(ref, fields) =>
      forall k | k in fields ensures Extends(fields[k], Hoisted(fields[k])) { OnlyTypesAdded(fields[k]); }
  }

  /* ---- every type that is due, and no other ---- */

  /** Each branch that is an object states the type, or is a null branch beside a default, and at
      least one states it. */
  ghost predicate StateType(list: Node, t: Node, nullable: bool) {
    && list.Arr? && t != NULL && t != NONE
    && (exists i :: 0 <= i < |list.items| && States(list.items[i], t))
    && forall i :: 0 <= i < |list.items| && list.items[i].Obj? ==> States(list.items[i], t) || (nullable && States(list.items[i], NULL))
  }

  predicate States(branch: Node, t: Node) {
    branch.Obj? && TYPE in branch.fields && branch.fields[TYPE] == t
  }

  /** The branches of an object agree on a type: `anyOf` if there is one, else `oneOf`. */
  ghost predicate BranchesAgree(fields: map<string, Node>, t: Node) {
    if ANY_OF in fields then StateType(fields[ANY_OF], t, DEFAULT in fields)
    else ONE_OF in fields && StateType(fields[ONE_OF], t, DEFAULT in fields)
  }

  /** The node with types where they are due: at every object, its own type if it has one; else the
      type its branches, with their own types in place, agree on, if they do. */
  ghost predicate TypesDue(node: Node, r: Node) {
    match node
    case Atom(_) => r == node
    case Arr(items) => r.Arr? && |r.items| == |items| && forall i :: 0 <= i < |items| ==> TypesDue(items[i], r.items[i])
    case Obj(ref, fields) =>
      && r.Obj? && r.ref == ref && fields.Keys <= r.fields.Keys <= fields.Keys + {TYPE}
      && (forall k :: k in fields ==> TypesDue(fields[k], r.fields[k]))
      && (TYPE !in fields ==>
            && (TYPE in r.fields ==> BranchesAgree(r.fields, r.fields[TYPE]))
            && forall t :: BranchesAgree(r.fields, t) ==> TYPE in r.fields)
  }

  lemma {:induction false} TypesStated(branches: seq<Node>, t: Node)
    ensures t in Types(branches) <==>
            exists i :: 0 <= i < |branches| && (States(branches[i], t) || (t == NONE && branches[i].Obj? && TYPE !in branches[i].fields))
    decreases |branches|
  {
    if branches != [] {
      var front, last := branches[..|branches| - 1], branches[|branches| - 1];
      TypesStated(front, t);
      if t in Types(front) {
        var i :| 0 <= i < |front| && (States(front[i], t) || (t == NONE && front[i].Obj? && TYPE !in front[i].fields));
        assert branches[i] == front[i];
      }
      forall i | 0 <= i < |front| && (States(branches[i], t) || (t == NONE && branches[i].Obj? && TYPE !in branches[i].fields))
        ensures t in Types(front)
      {
        assert front[i] == branches[i];
      }
      assert States(last, t) || (t == NONE && last.Obj? && TYPE !in last.fields) ==> t in Types(branches);
    }
  }

  /** The list of types agrees exactly if the branches do. */
  lemma AgreedIsStated(branches: seq<Node>, t: Node, nullable: bool)
    ensures Agreed(Types(branches), t, nullable) <==> StateType(Arr(branches), t, nullable)
  {
    var types := Types(branches);
    TypesStated(branches, t);
    if Agreed(types, t, nullable) {
      forall i | 0 <= i < |branches| && branches[i].Obj?
        ensures States(branches[i], t) || (nullable && States(branches[i], NULL))
      {
        var x := if TYPE in branches[i].fields then branches[i].fields[TYPE] else NONE;
        TypesStated(branches, x);
        assert x in types;
      }
    }
    if StateType(Arr(branches), t, nullable) {
      forall x | x in types ensures x == t || (nullable && x == NULL) {
        TypesStated(branches, x);
        var i :| 0 <= i < |branches| && (States(branches[i], x) || (x == NONE && branches[i].Obj? && TYPE !in branches[i].fields));
        assert States(branches[i], t) || (nullable && States(branches[i], NULL));
      }
    }
  }

  lemma BranchTypeIsDue(fields: map<string, Node>, t: Node)
    requires TYPE !in fields
    ensures BranchType(fields) == Some(t) <==> BranchesAgree(fields, t)
  {
    if Branches(fields).Some? {
      BranchTypeIsAgreed(fields, t);
      AgreedIsStated(Branches(fields).value, t, DEFAULT in fields);
    }
  }

  /** The type added changes no branch. */
  lemma SameBranches(fields: map<string, Node>, added: Node, t: Node)
    requires TYPE !in fields
    ensures BranchesAgree(fields[TYPE := added], t) <==> BranchesAgree(fields, t)
  {
    assert TYPE != ANY_OF && TYPE != ONE_OF && TYPE != DEFAULT by {
      assert TYPE[0] != ANY_OF[0] && TYPE[0] != ONE_OF[0] && TYPE[0] != DEFAULT[0];
    }
  }

  lemma TypedIsDue(fields: map<string, Node>)
    requires TYPE !in fields
    ensures TYPE in Typed(fields) ==> BranchesAgree(Typed(fields), Typed(fields)[TYPE])
    ensures forall t :: BranchesAgree(Typed(fields), t) ==> TYPE in Typed(fields)
  {
    forall t ensures BranchType(fields) == Some(t) <==> BranchesAgree(fields, t) { BranchTypeIsDue(fields, t); }
    if BranchType(fields).Some? {
      forall t ensures BranchesAgree(Typed(fields), t) <==> BranchesAgree(fields, t) { SameBranches(fields, BranchType(fields).value, t); }
    }
  }

  /** The pass adds every type that is due and no other. */
  lemma {:induction false} HoistedIsDue(node: Node)
    ensures TypesDue(node, Hoisted(node))
  {
    match node
    case Atom(_) =>
    case Arr(items) => forall i | 0 <= i < |items| ensures TypesDue(items[i], Hoisted(items[i])) { HoistedIsDue(items[i]); }
    case Obj(ref, fields) =>
      forall k | k in fields ensures TypesDue(fields[k], Hoisted(fields[k])) { HoistedIsDue(fields[k]); }
      if TYPE !in fields { TypedIsDue(HoistedFields(fields)); }
  }

  /** Types that are due are due in one way. */
  lemma {:induction false} OneWayDue(node: Node, a: Node, b: Node)
    requires TypesDue(node, a) && TypesDue(node, b)
    ensures a == b
  {
    match node
    case Atom(_) =>
    case Arr(items) =>
      forall i | 0 <= i < |items| ensures a.items[i] == b.items[i] { OneWayDue(items[i], a.items[i], b.items[i]); }
      assert a.items == b.items;
    case Obj(ref, fields) =>
      forall k | k in fields ensures a.fields[k] == b.fields[k] { OneWayDue(fields[k], a.fields[k], b.fields[k]); }
      if TYPE !in fields { SameTypeDue(fields, a.fields, b.fields); }
      assert a.fields.Keys == b.fields.Keys;
      assert a.fields == b.fields;
  }

  lemma SameTypeDue(fields: map<string, Node>, a: map<string, Node>, b: map<string, Node>)
    requires TYPE !in fields && fields.Keys <= a.Keys <= fields.Keys + {TYPE} && fields.Keys <= b.Keys <= fields.Keys + {TYPE}
    requires forall k :: k in fields ==> a[k] == b[k]
    requires (TYPE in a ==> BranchesAgree(a, a[TYPE])) && forall t :: BranchesAgree(a, t) ==> TYPE in a
    requires (TYPE in b ==> BranchesAgree(b, b[TYPE])) && forall t :: BranchesAgree(b, t) ==> TYPE in b
    ensures TYPE in a <==> TYPE in b
    ensures TYPE in a ==> a[TYPE] == b[TYPE]
  {
    forall t ensures BranchesAgree(a, t) <==> BranchesAgree(b, t) {
      assert TYPE[0] != ANY_OF[0] && TYPE[0] != ONE_OF[0] && TYPE[0] != DEFAULT[0];
      assert (ANY_OF in a <==> ANY_OF in fields) && (ONE_OF in a <==> ONE_OF in fields) && (DEFAULT in a <==> DEFAULT in fields);
      assert (ANY_OF in b <==> ANY_OF in fields) && (ONE_OF in b <==> ONE_OF in fields) && (DEFAULT in b <==> DEFAULT in fields);
    }
    if TYPE in a { OneAgreement(a, a[TYPE], b[TYPE]); }
  }

  lemma OneAgreement(fields: map<string, Node>, t: Node, u: Node)
    requires BranchesAgree(fields, t) && BranchesAgree(fields, u)
    ensures t == u
  {
    var list := if ANY_OF in fields then fields[ANY_OF] else fields[ONE_OF];
    var i :| 0 <= i < |list.items| && States(list.items[i], t);
    assert list.items[i].Obj?;
  }

  /* ---- once is enough ---- */

  lemma {:induction false} HoistedTwice(node: Node)
    ensures Hoisted(Hoisted(node)) == Hoisted(node)
  {
    match node
    case Atom(_) =>
    case Arr(items) =>
      forall i | 0 <= i < |items| ensures Hoisted(Hoisted(items[i])) == Hoisted(items[i]) { HoistedTwice(items[i]); }
      assert Hoisted(Hoisted(node)).items == Hoisted(node).items;
    case Obj(ref, fields) =>
      forall k | k in fields ensures Hoisted(Hoisted(fields[k])) == Hoisted(fields[k]) { HoistedTwice(fields[k]); }
      FieldsTwice(fields);
  }

  lemma FieldsTwice(fields: map<string, Node>)
    requires forall k :: k in fields ==> Hoisted(Hoisted(fields[k])) == Hoisted(fields[k])
    ensures Typed(HoistedFields(Typed(HoistedFields(fields)))) == Typed(HoistedFields(fields))
  {
    var once := HoistedFields(fields);
    assert forall k :: k in once ==> Hoisted(once[k]) == once[k];
    if BranchType(once).None? {
      assert HoistedFields(once) == once;
    } else {
      BranchTypeIsFixed(once);
      assert HoistedFields(Typed(once)) == Typed(once);
    }
  }

  /** A type taken from branches that are done is done itself. */
  lemma BranchTypeIsFixed(fields: map<string, Node>)
    requires (forall k :: k in fields ==> Hoisted(fields[k]) == fields[k]) && BranchType(fields).Some?
    ensures Hoisted(BranchType(fields).value) == BranchType(fields).value
  {
    var branches, key := Branches(fields).value, if ANY_OF in fields then ANY_OF else ONE_OF;
    BranchTypeIsAgreed(fields, BranchType(fields).value);
    assert Hoisted(fields[key]) == fields[key] && fields[key] == Arr(branches);
    forall i | 0 <= i < |branches| ensures Hoisted(branches[i]) == branches[i] {
      assert Hoisted(Arr(branches)).items[i] == Hoisted(branches[i]);
    }
    TypesAreFixed(branches);
  }

  lemma {:induction false} TypesAreFixed(branches: seq<Node>)
    requires forall i :: 0 <= i < |branches| ==> Hoisted(branches[i]) == branches[i]
    ensures forall t :: t in Types(branches) ==> Hoisted(t) == t
    decreases |branches|
  {
    if branches != [] {
      var last := branches[|branches| - 1];
      TypesAreFixed(branches[..|branches| - 1]);
      if last.Obj? && TYPE in last.fields {
        assert Hoisted(last).fields == HoistedFields(last.fields);
        assert HoistedFields(last.fields)[TYPE] == Hoisted(last.fields[TYPE]);
      }
    }
  }
}
