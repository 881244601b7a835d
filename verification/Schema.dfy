/** Definitions, references and the reachability that decides which definitions are recursive. */
module Schema {
  import opened Basics

  /** A JSON value.  `ref` is the local definition a `$ref` member names; `fields` are the other
      members of the object. */
  datatype Node =
    | Atom(text: string)
    | Arr(items: seq<Node>)
    | Obj(ref: Option<string>, fields: map<string, Node>)

  type Defs = map<string, Node>

  /** `_def_refs`. */
  function Refs(node: Node): set<string> {
    match node
    case Atom(_) => {}
    case Arr(items) => set i, r | 0 <= i < |items| && r in Refs(items[i]) :: r
    case Obj(ref, fields) => Own(ref) + set k, r | k in fields && r in Refs(fields[k]) :: r
  }

  function Own(ref: Option<string>): set<string> {
    if ref.Some? then {ref.value} else {}
  }

  lemma ItemRefs(items: seq<Node>, i: nat)
    requires i < |items|
    ensures Refs(items[i]) <= Refs(Arr(items))
  {
    forall r | r in Refs(items[i]) ensures r in Refs(Arr(items)) { }
  }

  lemma FieldRefs(ref: Option<string>, fields: map<string, Node>, k: string)
    requires k in fields
    ensures Refs(fields[k]) <= Refs(Obj(ref, fields))
  {
    forall r | r in Refs(fields[k]) ensures r in Refs(Obj(ref, fields)) { }
  }

  /** Every reference names a definition. */
  ghost predicate Resolved(defs: Defs) {
    forall name :: name in defs ==> Refs(defs[name]) <= defs.Keys
  }

  /* ---- reachability ---- */

  function Next(defs: Defs, names: set<string>): set<string> {
    set n, r | n in names && n in defs && r in Refs(defs[n]) :: r
  }

  ghost predicate Closed(defs: Defs, names: set<string>) {
    Next(defs, names) <= names
  }

  /** The definitions reachable from some names, those included. */
  ghost function Close(defs: Defs, names: set<string>): (r: set<string>)
    requires Resolved(defs) && names <= defs.Keys
    ensures names <= r <= defs.Keys && Closed(defs, r)
    decreases defs.Keys - names
  {
    NextInside(defs, names);
    if Closed(defs, names) then names else Close(defs, names + Next(defs, names))
  }

  lemma NextInside(defs: Defs, names: set<string>)
    requires Resolved(defs)
    ensures Next(defs, names) <= defs.Keys
  {
  }

  /** It is the least closed set. */
  lemma {:induction false} CloseIsLeast(defs: Defs, names: set<string>, other: set<string>)
    requires Resolved(defs) && names <= defs.Keys && names <= other && Closed(defs, other)
    ensures Close(defs, names) <= other
    decreases defs.Keys - names
  {
    NextInside(defs, names);
    if !Closed(defs, names) {
      forall r | r in Next(defs, names) ensures r in other {
        var n :| n in names && n in defs && r in Refs(defs[n]);
        assert r in Next(defs, other);
      }
      CloseIsLeast(defs, names + Next(defs, names), other);
    }
  }

  lemma CloseMonotone(defs: Defs, a: set<string>, b: set<string>)
    requires Resolved(defs) && a <= b <= defs.Keys
    ensures Close(defs, a) <= Close(defs, b)
  {
    CloseIsLeast(defs, a, Close(defs, b));
  }

  /** What a definition reaches. */
  ghost function Reach(defs: Defs, node: Node): (r: set<string>)
    requires Resolved(defs) && Refs(node) <= defs.Keys
    ensures Refs(node) <= r <= defs.Keys && Closed(defs, r)
  {
    Close(defs, Refs(node))
  }

  lemma ReachThrough(defs: Defs, node: Node, name: string)
    requires Resolved(defs) && Refs(node) <= defs.Keys && name in Refs(node)
    ensures name in defs && Reach(defs, defs[name]) <= Reach(defs, node)
  {
    var all := Reach(defs, node);
    forall r | r in Refs(defs[name]) ensures r in all { assert r in Next(defs, all); }
    CloseIsLeast(defs, Refs(defs[name]), all);
  }

  /** A definition that reaches itself. */
  ghost predicate Recursive(defs: Defs, name: string)
    requires Resolved(defs)
  {
    name in defs && name in Reach(defs, defs[name])
  }

  /** Following a reference to a definition that is not recursive loses that definition. */
  lemma ReachShrinks(defs: Defs, node: Node, name: string)
    requires Resolved(defs) && Refs(node) <= defs.Keys && name in Refs(node) && !Recursive(defs, name)
    ensures Reach(defs, defs[name]) < Reach(defs, node)
    ensures |Reach(defs, defs[name])| < |Reach(defs, node)|
  {
    ReachThrough(defs, node, name);
    assert name in Reach(defs, node);
    Smaller(Reach(defs, defs[name]), Reach(defs, node));
  }

  lemma {:induction false} Smaller(a: set<string>, b: set<string>)
    requires a < b
    ensures |a| < |b|
  {
    var x :| x in b && x !in a;
    NoLarger(a, b - {x});
  }

  lemma {:induction false} NoLarger(a: set<string>, b: set<string>)
    requires a <= b
    ensures |a| <= |b|
    decreases a
  {
    if a != {} {
      var x :| x in a;
      NoLarger(a - {x}, b - {x});
    }
  }

  lemma ReachOfPart(defs: Defs, node: Node, part: Node)
    requires Resolved(defs) && Refs(node) <= defs.Keys && Refs(part) <= Refs(node)
    ensures Reach(defs, part) <= Reach(defs, node) && |Reach(defs, part)| <= |Reach(defs, node)|
  {
    CloseMonotone(defs, Refs(part), Refs(node));
    NoLarger(Reach(defs, part), Reach(defs, node));
  }

  /* ---- the source's worklist ---- */

  /** What is seen or queued lies in `all`, contains the names it began with, and holds every
      reference of what is seen. */
  ghost predicate Underway(defs: Defs, names: set<string>, all: set<string>, seen: set<string>, pending: multiset<string>) {
    && seen <= all && all <= defs.Keys
    && (forall x :: x in pending ==> x in all)
    && (forall x :: x in names ==> x in seen || x in pending)
    && (forall n, r :: n in seen && r in Refs(defs[n]) ==> r in seen || r in pending)
  }

  lemma SeeNext(defs: Defs, names: set<string>, all: set<string>, seen: set<string>, pending: multiset<string>, name: string)
    requires Underway(defs, names, all, seen, pending) && name in pending && name !in seen && Closed(defs, all)
    ensures Underway(defs, names, all, seen + {name}, pending - multiset{name} + multiset(Refs(defs[name])))
  {
    forall r | r in Refs(defs[name]) ensures r in all { assert r in Next(defs, all); }
  }

  lemma SeeAgain(defs: Defs, names: set<string>, all: set<string>, seen: set<string>, pending: multiset<string>, name: string)
    requires Underway(defs, names, all, seen, pending) && name in pending && name in seen
    ensures Underway(defs, names, all, seen, pending - multiset{name})
  {
  }

  lemma NothingPending(defs: Defs, names: set<string>, all: set<string>, seen: set<string>)
    requires Resolved(defs) && names <= defs.Keys && all == Close(defs, names) && Underway(defs, names, all, seen, multiset{})
    ensures seen == all
  {
    assert Closed(defs, seen);
    CloseIsLeast(defs, names, seen);
  }

  /** `reachable`: pop a name, and queue its references the first time it is seen. */
  method Reachable(defs: Defs, start: string) returns (seen: set<string>)
    requires Resolved(defs) && start in defs
    ensures seen == Reach(defs, defs[start])
  {
    seen := {};
    var pending := multiset(Refs(defs[start]));
    ghost var all := Reach(defs, defs[start]);
    while pending != multiset{}
      invariant Underway(defs, Refs(defs[start]), all, seen, pending)
      decreases |all - seen|, |pending|
    {
      var name :| name in pending;
      if name in seen {
        SeeAgain(defs, Refs(defs[start]), all, seen, pending, name);
        pending := pending - multiset{name};
      } else {
        SeeNext(defs, Refs(defs[start]), all, seen, pending, name);
        Smaller(all - (seen + {name}), all - seen);
        pending := pending - multiset{name} + multiset(Refs(defs[name]));
        seen := seen + {name};
      }
    }
    NothingPending(defs, Refs(defs[start]), all, seen);
  }

  /** `_recursive_defs`. */
  method RecursiveDefs(defs: Defs) returns (names: set<string>)
    requires Resolved(defs)
    ensures forall name :: name in names <==> Recursive(defs, name)
  {
    names := {};
    var left := defs.Keys;
    while left != {}
      invariant left <= defs.Keys
      invariant forall name :: name in names <==> name in defs.Keys - left && Recursive(defs, name)
      decreases left
    {
      var name :| name in left;
      left := left - {name};
      var reached := Reachable(defs, name);
      if name in reached { names := names + {name}; }
    }
  }
}
