/** Commands a root accepts: sends, deliveries, answers and cancels, their retries, and the
    writer token that all but deliveries must carry. */
module Commands {
  import opened Basics
  import opened Journal

  type Connection = nat

  predicate IsCommand(e: Entry, id: TurnId) {
    (e.Queued? && e.id == id) || (e.CancelRequested? && e.command == id) || (e.AskAnswered? && e.command == id)
  }

  predicate Carries(e: Entry) {
    e.Queued? || e.CancelRequested? || e.AskAnswered?
  }

  predicate HasCommand(j: Log, id: TurnId) {
    exists i :: 0 <= i < |j| && IsCommand(j[i], id)
  }

  /** Some actor of the tree has journaled the command. */
  predicate InTree(js: Journals, id: TurnId) {
    exists a :: a in js && HasCommand(js[a], id)
  }

  function Anything(e: Entry): bool { true }
  function UserInput(e: Entry): bool { e.Queued? && e.origin == User }

  /** The recorded cancellation with this command id. */
  function Recorded(j: Log, command: TurnId): (r: Option<Entry>)
    ensures r.Some? ==> r.value in j && r.value.CancelRequested? && r.value.command == command
    ensures r.None? ==> forall e :: e in j ==> !(e.CancelRequested? && e.command == command)
  {
    if j == [] then None
    else if j[0].CancelRequested? && j[0].command == command then Some(j[0])
    else Recorded(j[1..], command)
  }

  /** The live turns of the chosen actors, actors without any left out. */
  function TargetMap(js: Journals, actors: set<ActorId>, wanted: Entry -> bool): map<ActorId, seq<TurnId>> {
    map a | a in actors && TargetsOf(LogOf(js, a), wanted) != [] :: TargetsOf(LogOf(js, a), wanted)
  }

  /** The targets of a cancel: those recorded at its first acceptance; else, for a command id
      the tree has not seen, the live turns now; `None` is a reused command id. */
  function CancelTargets(js: Journals, root: ActorId, command: TurnId, requestedBy: Option<string>,
                         descendants: bool): Option<map<ActorId, seq<TurnId>>>
  {
    match Recorded(LogOf(js, root), command)
    case Some(e) => if e.requestedBy == requestedBy && e.descendants == descendants then Some(e.targets) else None
    case None =>
      if InTree(js, command) then None
      else if descendants then Some(TargetMap(js, js.Keys, Anything))
      else Some(TargetMap(js, {root}, UserInput))
  }

  /** The record of a cancel, unless the root journal has it already. */
  function Note(js: Journals, root: ActorId, record: Entry, a: ActorId): Log
    requires record.CancelRequested?
  {
    if a == root && Recorded(LogOf(js, root), record.command).None? then [record] else []
  }

  /** An end for each target that is still live. */
  function TargetEnds(js: Journals, targets: map<ActorId, seq<TurnId>>, a: ActorId): Log {
    if a in targets then Ends(LiveOf(LogOf(js, a), targets[a])) else []
  }

  /** What an accepted cancel appends to actor `a`: the record, once, in the root journal,
      then the ends. */
  function CancelAppends(js: Journals, root: ActorId, command: TurnId, requestedBy: Option<string>,
                         descendants: bool, a: ActorId): Log
  {
    match CancelTargets(js, root, command, requestedBy, descendants)
    case None => []
    case Some(targets) =>
      Note(js, root, CancelRequested(command, targets, requestedBy, descendants), a) + TargetEnds(js, targets, a)
  }

  lemma RecordDistinct(j: Log, command: TurnId)
    requires WellFormed(j) && Recorded(j, command).Some?
    ensures forall a :: a in Recorded(j, command).value.targets ==> Distinct(Recorded(j, command).value.targets[a])
  {
    var i :| 0 <= i < |j| && j[i] == Recorded(j, command).value;
  }

  lemma LiveDistinct(js: Journals, a: ActorId, wanted: Entry -> bool)
    requires AllWellFormed(js)
    ensures Distinct(TargetsOf(LogOf(js, a), wanted))
  {
    assert WellFormed(LogOf(js, a));
    TargetsProperties(LogOf(js, a), wanted);
  }

  lemma TargetDistinct(js: Journals, root: ActorId, command: TurnId, requestedBy: Option<string>, descendants: bool, a: ActorId)
    requires AllWellFormed(js)
    ensures var targets := CancelTargets(js, root, command, requestedBy, descendants);
            targets.Some? && a in targets.value ==> Distinct(targets.value[a])
  {
    if Recorded(LogOf(js, root), command).Some? {
      assert WellFormed(LogOf(js, root));
      RecordDistinct(LogOf(js, root), command);
    } else {
      LiveDistinct(js, a, if descendants then Anything else UserInput);
    }
  }

  lemma CancelTargetsDistinct(js: Journals, root: ActorId, command: TurnId, requestedBy: Option<string>, descendants: bool)
    requires AllWellFormed(js)
    ensures var targets := CancelTargets(js, root, command, requestedBy, descendants);
            targets.Some? ==> forall a :: a in targets.value ==> Distinct(targets.value[a])
  {
    var targets := CancelTargets(js, root, command, requestedBy, descendants);
    if targets.Some? {
      forall a | a in targets.value ensures Distinct(targets.value[a]) {
        TargetDistinct(js, root, command, requestedBy, descendants, a);
      }
    }
  }

  /* ---- the command machine of one tree ---- */

  /** A question an actor waits on: what kind of response it needs, and whether it asks for a
      permission. */
  datatype Ask = Ask(actor: ActorId, kind: string, permission: bool)

  /** `asks` are the live ones, by their id. */
  datatype Tree = Tree(root: ActorId, journals: Journals, writer: Option<Connection>, asks: map<string, Ask>)

  datatype Command =
    | Send(id: TurnId, input: string, submittedBy: Option<string>)
    | Stop(id: TurnId, requestedBy: Option<string>, descendants: bool)
    | Deliver(target: ActorId, id: TurnId, input: string)
    | Respond(ask: string, id: TurnId, kind: string, approval: bool, response: string, submittedBy: Option<string>)

  datatype Outcome = Accepted(duplicate: bool) | Reused | ActorFinished | WriterReplaced | Expired | Mismatched

  function QueuedFor(t: Tree, c: Command): (ActorId, Entry)
    requires c.Send? || c.Deliver?
  {
    if c.Send? then (t.root, Queued(c.id, c.input, c.submittedBy, User))
    else (c.target, Queued(c.id, c.input, None, External))
  }

  function AppendTo(js: Journals, a: ActorId, es: Log): Journals {
    js[a := LogOf(js, a) + es]
  }

  function Cancelled(js: Journals, root: ActorId, id: TurnId, requestedBy: Option<string>, descendants: bool,
                     targets: map<ActorId, seq<TurnId>>): Journals {
    map a | a in js.Keys + {root} + targets.Keys ::
      LogOf(js, a) + (Note(js, root, CancelRequested(id, targets, requestedBy, descendants), a) + TargetEnds(js, targets, a))
  }

  predicate Journaled(js: Journals, e: Entry) {
    exists a :: a in js && e in js[a]
  }

  /** An answer goes to the actor whose question it settles. */
  function Answer(t: Tree, c: Command): (Tree, Outcome)
    requires c.Respond?
  {
    var e := AskAnswered(c.ask, c.id, c.response, c.submittedBy);
    if InTree(t.journals, c.id) then (t, if Journaled(t.journals, e) then Accepted(true) else Reused)
    else if c.ask !in t.asks then (t, Expired)
    else
      var live := t.asks[c.ask];
      if live.kind != c.kind || (live.permission && !c.approval) then (t, Mismatched)
      else (t.(journals := AppendTo(t.journals, live.actor, [e]), asks := t.asks - {c.ask}), Accepted(false))
  }

  /** One command in one committed transaction: `token` is the submitter's writer token
      (deliveries carry none). */
  function Submit(t: Tree, token: Option<Connection>, c: Command): (Tree, Outcome)
  {
    if !c.Deliver? && (token.None? || t.writer != token) then (t, WriterReplaced)
    else match c
    case Stop(id, requester, descendants) =>
      (match CancelTargets(t.journals, t.root, id, requester, descendants)
       case None => (t, Reused)
       case Some(targets) =>
         (t.(journals := Cancelled(t.journals, t.root, id, requester, descendants, targets)),
          Accepted(Recorded(LogOf(t.journals, t.root), id).Some?)))
    case Respond(_, _, _, _, _, _) => Answer(t, c)
    case _ =>
      var (a, e) := QueuedFor(t, c);
      if InTree(t.journals, c.id) then
        (if e in LogOf(t.journals, a) then (t, Accepted(true)) else (t, Reused))
      else if Finished in LogOf(t.journals, a) then (t, ActorFinished)
      else (t.(journals := AppendTo(t.journals, a, [e])), Accepted(false))
  }

  /** What else happens to a tree: connections claim and release the writer, the runtime
      enqueues its own inputs (once per actor), questions are raised and expire, engines and
      recovery append the rest. */
  datatype Action =
    | Apply(token: Option<Connection>, command: Command)
    | ClaimWriter(connection: Connection)
    | ReleaseWriter(connection: Connection)
    | Internal(actor: ActorId, entry: Entry)
    | Append(actor: ActorId, entries: Log)
    | Raise(id: string, ask: Ask)
    | Expire(id: string)

  function After(t: Tree, x: Action): Tree {
    match x
    case Apply(token, c) => Submit(t, token, c).0
    case ClaimWriter(n) => t.(writer := Some(n))
    case ReleaseWriter(n) => if t.writer == Some(n) then t.(writer := None) else t
    case Internal(a, e) =>
      if e.Queued? && !HasCommand(LogOf(t.journals, a), e.id) then t.(journals := AppendTo(t.journals, a, [e])) else t
    case Append(a, es) => t.(journals := AppendTo(t.journals, a, es))
    case Raise(id, ask) => t.(asks := t.asks[id := ask])
    case Expire(id) => t.(asks := t.asks - {id})
  }

  function AfterAll(t: Tree, xs: seq<Action>): Tree {
    if xs == [] then t else After(AfterAll(t, xs[..|xs| - 1]), xs[|xs| - 1])
  }

  /** Ids the runtime makes for itself belong to one actor; user command ids belong to none. */
  ghost predicate Respects(x: Action, home: TurnId -> Option<ActorId>) {
    match x
    case Apply(_, c) => home(c.id).None?
    case Internal(a, e) => e.Queued? && home(e.id) == Some(a)
    case Append(_, es) => forall e :: e in es ==> !Carries(e)
    case _ => true
  }

  ghost predicate AllRespect(xs: seq<Action>, home: TurnId -> Option<ActorId>) {
    forall i :: 0 <= i < |xs| ==> Respects(xs[i], home)
  }

  /** At most one entry of the whole tree carries a given command id, and runtime-made ids
      appear only in their actor. */
  ghost predicate OncePerTree(js: Journals, home: TurnId -> Option<ActorId>) {
    && (forall a, b, i, k, id ::
          a in js && b in js && 0 <= i < |js[a]| && 0 <= k < |js[b]| && IsCommand(js[a][i], id) && IsCommand(js[b][k], id)
          ==> a == b && i == k)
    && (forall a, i, id ::
          a in js && 0 <= i < |js[a]| && IsCommand(js[a][i], id) && home(id).Some? ==> home(id) == Some(a))
  }

  lemma AppendPlain(js: Journals, a: ActorId, es: Log, home: TurnId -> Option<ActorId>)
    requires OncePerTree(js, home)
    requires forall e :: e in es ==> !Carries(e)
    ensures OncePerTree(AppendTo(js, a, es), home)
  {
    var n := AppendTo(js, a, es);
    assert forall i :: |LogOf(js, a)| <= i < |n[a]| ==> n[a][i] in es;
    assert forall b, i, id :: b in n && 0 <= i < |n[b]| && IsCommand(n[b][i], id) ==>
      b in js && i < |js[b]| && js[b][i] == n[b][i];
  }

  lemma AppendCommand(js: Journals, a: ActorId, e: Entry, id: TurnId, home: TurnId -> Option<ActorId>)
    requires OncePerTree(js, home)
    requires IsCommand(e, id) && !InTree(js, id)
    requires home(id).Some? ==> home(id) == Some(a)
    ensures OncePerTree(AppendTo(js, a, [e]), home)
  {
    var n := AppendTo(js, a, [e]);
    forall b, i, x | b in n && 0 <= i < |n[b]| && IsCommand(n[b][i], x)
      ensures (b == a && i == |LogOf(js, a)| && x == id) || (b in js && i < |js[b]| && js[b][i] == n[b][i] && x != id)
    {
      if !(b == a && i == |LogOf(js, a)|) {
        assert b in js && js[b][i] == n[b][i];
        assert HasCommand(js[b], x);
      }
    }
  }

  /** A cancel appends at most one command entry: its record, first in the root journal. */
  lemma CancelShape(js: Journals, root: ActorId, record: Entry, targets: map<ActorId, seq<TurnId>>, a: ActorId, i: nat, x: TurnId)
    requires record.CancelRequested?
    requires var more := Note(js, root, record, a) + TargetEnds(js, targets, a); i < |more| && IsCommand(more[i], x)
    ensures i == 0 && a == root && x == record.command && Recorded(LogOf(js, root), record.command).None?
  {
    var note, ends := Note(js, root, record, a), TargetEnds(js, targets, a);
    assert forall k :: 0 <= k < |ends| ==> !IsCommand(ends[k], x);
    assert forall k :: |note| <= k < |note + ends| ==> (note + ends)[k] == ends[k - |note|];
  }

  /** Where the commands of a cancelled tree come from. */
  lemma CancelledCommand(js: Journals, root: ActorId, id: TurnId, requestedBy: Option<string>, descendants: bool,
                         targets: map<ActorId, seq<TurnId>>, b: ActorId, i: nat, x: TurnId)
    requires CancelTargets(js, root, id, requestedBy, descendants) == Some(targets)
    requires var n := Cancelled(js, root, id, requestedBy, descendants, targets);
             b in n && i < |n[b]| && IsCommand(n[b][i], x)
    ensures var n := Cancelled(js, root, id, requestedBy, descendants, targets);
            || (!InTree(js, id) && b == root && i == |LogOf(js, root)| && x == id)
            || (b in js && i < |js[b]| && js[b][i] == n[b][i] && (!InTree(js, id) ==> x != id))
  {
    var n := Cancelled(js, root, id, requestedBy, descendants, targets);
    if i < |LogOf(js, b)| {
      assert IsCommand(js[b][i], x);
    } else {
      CancelShape(js, root, CancelRequested(id, targets, requestedBy, descendants), targets, b, i - |LogOf(js, b)|, x);
    }
  }

  lemma CancelledOnce(js: Journals, root: ActorId, id: TurnId, requestedBy: Option<string>, descendants: bool,
                      home: TurnId -> Option<ActorId>)
    requires OncePerTree(js, home) && home(id).None?
    requires CancelTargets(js, root, id, requestedBy, descendants).Some?
    ensures OncePerTree(Cancelled(js, root, id, requestedBy, descendants,
                                  CancelTargets(js, root, id, requestedBy, descendants).value), home)
  {
    var targets := CancelTargets(js, root, id, requestedBy, descendants).value;
    var n := Cancelled(js, root, id, requestedBy, descendants, targets);
    forall a, b, i, k, x |
      a in n && b in n && 0 <= i < |n[a]| && 0 <= k < |n[b]| && IsCommand(n[a][i], x) && IsCommand(n[b][k], x)
      ensures a == b && i == k
    {
      CancelledCommand(js, root, id, requestedBy, descendants, targets, a, i, x);
      CancelledCommand(js, root, id, requestedBy, descendants, targets, b, k, x);
    }
    forall a, i, x | a in n && 0 <= i < |n[a]| && IsCommand(n[a][i], x) && home(x).Some? ensures home(x) == Some(a) {
      CancelledCommand(js, root, id, requestedBy, descendants, targets, a, i, x);
    }
  }

  lemma AnsweredOnce(t: Tree, c: Command, home: TurnId -> Option<ActorId>)
    requires c.Respond? && OncePerTree(t.journals, home) && home(c.id).None?
    ensures OncePerTree(Answer(t, c).0.journals, home)
  {
    if !InTree(t.journals, c.id) && c.ask in t.asks {
      AppendCommand(t.journals, t.asks[c.ask].actor, AskAnswered(c.ask, c.id, c.response, c.submittedBy), c.id, home);
    }
  }

  lemma StepOnce(t: Tree, x: Action, home: TurnId -> Option<ActorId>)
    requires OncePerTree(t.journals, home) && Respects(x, home)
    ensures OncePerTree(After(t, x).journals, home)
  {
    match x
    case Apply(token, c) =>
      if c.Deliver? || (token.Some? && t.writer == token) {
        if c.Stop? {
          if CancelTargets(t.journals, t.root, c.id, c.requestedBy, c.descendants).Some? {
            CancelledOnce(t.journals, t.root, c.id, c.requestedBy, c.descendants, home);
          }
        } else if c.Respond? {
          AnsweredOnce(t, c, home);
        } else {
          var (a, e) := QueuedFor(t, c);
          if !InTree(t.journals, c.id) { AppendCommand(t.journals, a, e, c.id, home); }
        }
      }
    case Internal(a, e) =>
      if e.Queued? && !HasCommand(LogOf(t.journals, a), e.id) {
        assert !InTree(t.journals, e.id);
        AppendCommand(t.journals, a, e, e.id, home);
      }
    case Append(a, es) => AppendPlain(t.journals, a, es, home);
    case _ =>
  }

  /** Over every history of sends, cancels, deliveries, answers and retries on a tree, a command id is
      journaled at most once in the whole tree. */
  lemma {:induction false} CommandsJournaledOnce(t: Tree, xs: seq<Action>, home: TurnId -> Option<ActorId>)
    requires OncePerTree(t.journals, home) && AllRespect(xs, home)
    ensures OncePerTree(AfterAll(t, xs).journals, home)
  {
    if xs != [] {
      var init := xs[..|xs| - 1];
      assert forall i :: 0 <= i < |init| ==> init[i] == xs[i];
      CommandsJournaledOnce(t, init, home);
      StepOnce(AfterAll(t, init), xs[|xs| - 1], home);
    }
  }

  /* ---- later successes are duplicates ---- */

  lemma StepKeepsEntries(t: Tree, x: Action)
    ensures After(t, x).root == t.root
    ensures forall a :: a in t.journals ==> a in After(t, x).journals && t.journals[a] <= After(t, x).journals[a]
  {
  }

  lemma KeepsCommand(t: Tree, x: Action, id: TurnId)
    requires InTree(t.journals, id)
    ensures InTree(After(t, x).journals, id)
  {
    StepKeepsEntries(t, x);
    var a :| a in t.journals && HasCommand(t.journals[a], id);
    var i :| 0 <= i < |t.journals[a]| && IsCommand(t.journals[a][i], id);
    assert IsCommand(After(t, x).journals[a][i], id);
  }

  lemma AnsweredIsJournaled(t: Tree, c: Command)
    requires c.Respond? && Answer(t, c).1.Accepted?
    ensures InTree(Answer(t, c).0.journals, c.id)
  {
    if !InTree(t.journals, c.id) {
      var a := t.asks[c.ask].actor;
      assert IsCommand(Answer(t, c).0.journals[a][|LogOf(t.journals, a)|], c.id);
      assert HasCommand(Answer(t, c).0.journals[a], c.id);
    }
  }

  lemma AcceptedIsJournaled(t: Tree, token: Option<Connection>, c: Command)
    requires Submit(t, token, c).1.Accepted?
    ensures InTree(Submit(t, token, c).0.journals, c.id)
  {
    var n := Submit(t, token, c).0;
    if c.Stop? {
      var targets := CancelTargets(t.journals, t.root, c.id, c.requestedBy, c.descendants).value;
      var r := Recorded(LogOf(t.journals, t.root), c.id);
      if r.Some? {
        var i :| 0 <= i < |LogOf(t.journals, t.root)| && LogOf(t.journals, t.root)[i] == r.value;
        assert IsCommand(n.journals[t.root][i], c.id);
      } else {
        assert IsCommand(n.journals[t.root][|LogOf(t.journals, t.root)|], c.id);
      }
      assert HasCommand(n.journals[t.root], c.id);
    } else if c.Respond? {
      AnsweredIsJournaled(t, c);
    } else if !InTree(t.journals, c.id) {
      var (a, e) := QueuedFor(t, c);
      assert IsCommand(n.journals[a][|LogOf(t.journals, a)|], c.id);
      assert HasCommand(n.journals[a], c.id);
    }
  }

  lemma {:induction false} StaysJournaled(t: Tree, xs: seq<Action>, id: TurnId)
    requires InTree(t.journals, id)
    ensures InTree(AfterAll(t, xs).journals, id)
  {
    if xs != [] {
      StaysJournaled(t, xs[..|xs| - 1], id);
      KeepsCommand(AfterAll(t, xs[..|xs| - 1]), xs[|xs| - 1], id);
    }
  }

  /** After a command id has been accepted once, every later acceptance of it is a duplicate
      and leaves the set of commands as it was: a send or delivery changes nothing at all. */
  lemma {:induction false} RetriesAreDuplicates(t: Tree, token: Option<Connection>, c: Command, xs: seq<Action>,
                                                token': Option<Connection>, c': Command)
    requires Submit(t, token, c).1.Accepted? && c'.id == c.id
    ensures var later := AfterAll(Submit(t, token, c).0, xs);
            Submit(later, token', c').1.Accepted? ==>
              Submit(later, token', c').1.duplicate && (!c'.Stop? ==> Submit(later, token', c').0 == later)
  {
    AcceptedIsJournaled(t, token, c);
    StaysJournaled(Submit(t, token, c).0, xs, c.id);
  }

  /** A writer token that is not the current one never changes the tree. */
  lemma ReplacedWriterAppliesNothing(t: Tree, token: Connection, other: Connection, xs: seq<Action>, c: Command)
    requires other != token && !c.Deliver?
    requires forall i :: 0 <= i < |xs| ==> xs[i] != ClaimWriter(token)
    ensures var later := AfterAll(t.(writer := Some(other)), xs);
            Submit(later, Some(token), c) == (later, WriterReplaced)
  {
    NotWriter(t.(writer := Some(other)), xs, token);
  }

  lemma {:induction false} NotWriter(t: Tree, xs: seq<Action>, token: Connection)
    requires t.writer != Some(token)
    requires forall i :: 0 <= i < |xs| ==> xs[i] != ClaimWriter(token)
    ensures AfterAll(t, xs).writer != Some(token)
  {
    if xs != [] {
      var init := xs[..|xs| - 1];
      assert forall i :: 0 <= i < |init| ==> init[i] == xs[i];
      NotWriter(t, init, token);
    }
  }

  /* ---- a cancel ends only what it recorded ---- */

  /** The root journal records this cancellation. */
  ghost predicate Records(t: Tree, id: TurnId, targets: map<ActorId, seq<TurnId>>) {
    Recorded(LogOf(t.journals, t.root), id).Some? && Recorded(LogOf(t.journals, t.root), id).value.targets == targets
  }

  lemma {:induction false} RecordedPrefix(j: Log, more: Log, id: TurnId)
    requires Recorded(j, id).Some?
    ensures Recorded(j + more, id) == Recorded(j, id)
  {
    if !(j[0].CancelRequested? && j[0].command == id) {
      assert (j + more)[1..] == j[1..] + more;
      RecordedPrefix(j[1..], more, id);
    }
  }

  lemma {:induction false} RecordedAppended(j: Log, e: Entry, more: Log, id: TurnId)
    requires Recorded(j, id).None? && e.CancelRequested? && e.command == id
    ensures Recorded(j + [e] + more, id) == Some(e)
  {
    if j == [] {
      assert j + [e] + more == [e] + more;
    } else {
      assert (j + [e] + more)[1..] == j[1..] + [e] + more;
      assert forall x :: x in j[1..] ==> x in j;
      RecordedAppended(j[1..], e, more, id);
    }
  }

  lemma {:induction false} RecordStays(t: Tree, xs: seq<Action>, id: TurnId, targets: map<ActorId, seq<TurnId>>)
    requires Records(t, id, targets)
    ensures Records(AfterAll(t, xs), id, targets)
  {
    if xs != [] {
      var m := AfterAll(t, xs[..|xs| - 1]);
      RecordStays(t, xs[..|xs| - 1], id, targets);
      StepKeepsEntries(m, xs[|xs| - 1]);
      assert m.root in m.journals;
      var j, n := LogOf(m.journals, m.root), LogOf(After(m, xs[|xs| - 1]).journals, m.root);
      assert n == j + n[|j|..];
      RecordedPrefix(j, n[|j|..], id);
    }
  }

  /** Carrying out a cancel leaves its record in the root journal. */
  lemma CarriedOutIsRecorded(j: Log, e: Entry, ends: Log)
    requires e.CancelRequested?
    requires Recorded(j, e.command).Some? ==> Recorded(j, e.command).value.targets == e.targets
    ensures var r := Recorded(j + ((if Recorded(j, e.command).None? then [e] else []) + ends), e.command);
            r.Some? && r.value.targets == e.targets
  {
    if Recorded(j, e.command).Some? {
      assert [] + ends == ends;
      RecordedPrefix(j, ends, e.command);
    } else {
      assert j + ([e] + ends) == j + [e] + ends;
      RecordedAppended(j, e, ends, e.command);
    }
  }

  /** The first acceptance of a cancel leaves its record in the root journal. */
  lemma AcceptedCancelIsRecorded(t: Tree, token: Option<Connection>, c: Command)
    requires c.Stop? && Submit(t, token, c).1.Accepted?
    ensures Records(Submit(t, token, c).0, c.id,
                    CancelTargets(t.journals, t.root, c.id, c.requestedBy, c.descendants).value)
  {
    var targets := CancelTargets(t.journals, t.root, c.id, c.requestedBy, c.descendants).value;
    CarriedOutIsRecorded(LogOf(t.journals, t.root), CancelRequested(c.id, targets, c.requestedBy, c.descendants),
                         TargetEnds(t.journals, targets, t.root));
  }

  /** Every retry of a cancel, however late and whatever happened in between, appends to each
      actor exactly one end for each turn recorded at the first acceptance that is still live
      there, in the recorded order, and nothing else. */
  lemma {:induction false} RetriedCancelEndsOnlyRecordedTurns(t: Tree, token: Option<Connection>, c: Command,
                                                              xs: seq<Action>, token': Option<Connection>, a: ActorId)
    requires c.Stop? && Submit(t, token, c).1.Accepted?
    requires Submit(AfterAll(Submit(t, token, c).0, xs), token', c).1.Accepted?
    ensures var recorded := CancelTargets(t.journals, t.root, c.id, c.requestedBy, c.descendants).value;
            var later := AfterAll(Submit(t, token, c).0, xs);
            LogOf(Submit(later, token', c).0.journals, a) ==
            LogOf(later.journals, a) + TargetEnds(later.journals, recorded, a)
  {
    var recorded := CancelTargets(t.journals, t.root, c.id, c.requestedBy, c.descendants).value;
    var first := Submit(t, token, c).0;
    AcceptedCancelIsRecorded(t, token, c);
    RecordStays(first, xs, c.id, recorded);
    RetryEnds(AfterAll(first, xs), token', c, recorded, a);
  }

  lemma RetryEnds(later: Tree, token: Option<Connection>, c: Command, recorded: map<ActorId, seq<TurnId>>, a: ActorId)
    requires c.Stop? && Records(later, c.id, recorded) && Submit(later, token, c).1.Accepted?
    ensures LogOf(Submit(later, token, c).0.journals, a) == LogOf(later.journals, a) + TargetEnds(later.journals, recorded, a)
  {
    var record := CancelRequested(c.id, recorded, c.requestedBy, c.descendants);
    var ends := TargetEnds(later.journals, recorded, a);
    assert CancelTargets(later.journals, later.root, c.id, c.requestedBy, c.descendants) == Some(recorded);
    assert Note(later.journals, later.root, record, a) + ends == ends;
  }
}
