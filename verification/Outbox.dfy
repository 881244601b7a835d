/** One session of the client: its outbox, and the prompts it sends over connections that come
    and go. */
module Outbox {
  import opened Basics

  /** `serial` numbers the session's prompts in the order they were made. */
  datatype Entry = Entry(serial: nat, commandId: string, sent: bool)

  /** How a prompt's promise is settled. */
  datatype Verdict = Resolved | Refused | ClosedError | Uncertain
  datatype Settlement = Settlement(serial: nat, verdict: Verdict)

  /** The server's answer to a prompt. */
  datatype Answer = Accepted | WriterRequired | Failed

  /** The request in flight, with whether it repeats an earlier transmission. */
  datatype Flight = Flight(serial: nat, retry: bool)

  /* ---- what must hold of the traffic ---- */

  /** Transmissions follow the prompts' order; only repeats of one prompt are consecutive. */
  ghost predicate InOrder(sent: seq<nat>) {
    forall i, k :: 0 <= i < k < |sent| ==> sent[i] <= sent[k]
  }

  ghost predicate Increasing(outbox: seq<Entry>) {
    forall i, k :: 0 <= i < k < |outbox| ==> outbox[i].serial < outbox[k].serial
  }

  ghost predicate SettledOnce(settled: seq<Settlement>) {
    forall i, k :: 0 <= i < k < |settled| ==> settled[i].serial != settled[k].serial
  }

  /** A prompt is called closed only if it was never transmitted; any other verdict means that
      it was. */
  ghost predicate Honest(settled: seq<Settlement>, sent: seq<nat>) {
    forall i :: 0 <= i < |settled| ==> (settled[i].verdict == ClosedError <==> settled[i].serial !in sent)
  }

  /** Every transmission is of a prompt that is settled or heads the outbox, and nothing
      settled is still in the outbox. */
  ghost predicate Accounted(outbox: seq<Entry>, sent: seq<nat>, settled: seq<Settlement>, next: nat) {
    && (forall i :: 0 <= i < |outbox| ==> outbox[i].serial < next && (outbox[i].sent <==> outbox[i].serial in sent))
    && (forall i :: 0 <= i < |sent| ==> sent[i] < next && (outbox != [] ==> sent[i] <= outbox[0].serial))
    && (forall i :: 0 <= i < |settled| ==> settled[i].serial < next && (outbox != [] ==> settled[i].serial < outbox[0].serial))
  }

  lemma OnlyHeadSent(outbox: seq<Entry>, sent: seq<nat>, settled: seq<Settlement>, next: nat, i: nat)
    requires Increasing(outbox) && Accounted(outbox, sent, settled, next) && 0 < i < |outbox|
    ensures !outbox[i].sent
  {
  }

  /** What stays queued once a request has been answered. */
  function Left(outbox: seq<Entry>, f: Flight): seq<Entry> {
    if outbox != [] && outbox[0].serial == f.serial then outbox[1..] else outbox
  }

  /** The same prompts in the same order, though some may have been transmitted since. */
  ghost predicate SameQueue(was: seq<Entry>, now: seq<Entry>) {
    |now| == |was| && forall i :: 0 <= i < |now| ==> now[i] == was[i].(sent := now[i].sent)
  }

  /** The server refuses a repeated prompt because the session is not the writer. */
  predicate NeedsWriter(answer: Answer, f: Flight) {
    answer == WriterRequired && f.retry
  }

  class Session {
    var outbox: seq<Entry>
    var busy: bool
    var paused: bool
    var writer: bool
    var next: nat
    /** The client's connection as this session sees it: a peer, and whether it is open. */
    var peer: bool
    var open: bool
    var flight: Option<Flight>
    ghost var sent: seq<nat>
    ghost var settled: seq<Settlement>

    ghost predicate Valid()
      reads this
    {
      && Increasing(outbox) && InOrder(sent) && SettledOnce(settled) && Honest(settled, sent)
      && Accounted(outbox, sent, settled, next)
      && (busy <==> flight.Some?)
      && (flight.Some? ==> flight.value.serial in sent && (outbox != [] ==> flight.value.serial <= outbox[0].serial))
      && (open ==> peer)
    }

    constructor (writer: bool, open: bool)
      ensures Valid() && outbox == [] && sent == [] && settled == [] && this.writer == writer && this.open == open && this.peer == open
      ensures !paused && flight.None?
    {
      outbox, busy, paused, this.writer, next, peer, this.open, flight := [], false, false, writer, 0, open, open, None;
      sent, settled := [], [];
    }

    /** `pump`: transmit the head, unless something is in flight.  `accepted` is whether the
        socket takes the frame. */
    method Pump(accepted: bool)
      requires Valid()
      modifies this`outbox, this`busy, this`flight, this`sent
      ensures Valid() && SameQueue(old(outbox), outbox)
      ensures if old(outbox) != [] && peer && open && !old(busy) && !paused && accepted
              then sent == old(sent) + [old(outbox)[0].serial] && flight == Some(Flight(old(outbox)[0].serial, old(outbox)[0].sent))
              else sent == old(sent) && flight == old(flight) && outbox == old(outbox)
    {
      if outbox == [] || !peer || busy || paused || !open { return; }
      if !accepted { return; }
      var head := outbox[0];
      Transmitted(outbox, sent, settled, next);
      busy, flight := true, Some(Flight(head.serial, head.sent));
      sent := sent + [head.serial];
      outbox := outbox[0 := head.(sent := true)];
    }

    /** `prompt`. */
    method Prompt(commandId: string, connected: bool, tooLarge: bool, accepted: bool) returns (queued: bool)
      requires Valid()
      modifies this`outbox, this`busy, this`flight, this`sent, this`next
      ensures Valid() && queued == (connected && !tooLarge)
      ensures queued ==> next == old(next) + 1 && |outbox| == |old(outbox)| + 1
                         && SameQueue(old(outbox) + [Entry(old(next), commandId, false)], outbox)
      ensures !queued ==> outbox == old(outbox) && sent == old(sent) && next == old(next) && flight == old(flight)
      ensures queued ==> if old(peer && open && !busy && !paused) && accepted
                         then sent == old(sent) + [outbox[0].serial] && flight == Some(Flight(outbox[0].serial, old(outbox != [] && outbox[0].sent)))
                         else sent == old(sent) && flight == old(flight)
    {
      queued := connected && !tooLarge;
      if queued {
        Queued(outbox, sent, settled, next, commandId);
        outbox := outbox + [Entry(next, commandId, false)];
        next := next + 1;
        Pump(accepted);
      }
    }

    /** The answer to the request in flight. */
    method Answered(answer: Answer, accepted: bool)
      requires Valid() && peer && flight.Some?
      modifies this`outbox, this`busy, this`flight, this`sent, this`settled, this`paused, this`writer
      ensures Valid()
      ensures if NeedsWriter(answer, old(flight).value)
              then settled == old(settled) && paused && !writer && flight.None? && outbox == old(outbox)
              else paused == old(paused) && writer == old(writer) && SameQueue(Left(old(outbox), old(flight).value), outbox)
      ensures !NeedsWriter(answer, old(flight).value) ==>
                if old(outbox) != [] && old(outbox)[0].serial == old(flight).value.serial
                then settled == old(settled) + [Settlement(old(flight).value.serial, if answer == Accepted then Resolved else Refused)]
                else settled == old(settled)
      ensures if open && !paused && accepted && Left(old(outbox), old(flight).value) != []
              then var head := Left(old(outbox), old(flight).value)[0];
                   sent == old(sent) + [head.serial] && flight == Some(Flight(head.serial, head.sent))
              else sent == old(sent) && flight.None?
    {
      var f := flight.value;
      busy, flight := false, None;
      if NeedsWriter(answer, f) {
        writer, paused := false, true;
        return;
      }
      if outbox != [] && outbox[0].serial == f.serial {
        Shift(if answer == Accepted then Resolved else Refused);
      }
      Pump(accepted);
    }

    /** Take the head from the outbox and settle it. */
    method Shift(verdict: Verdict)
      requires Valid() && outbox != [] && (verdict == ClosedError <==> !outbox[0].sent)
      modifies this`outbox, this`settled
      ensures Valid() && outbox == old(outbox)[1..] && settled == old(settled) + [Settlement(old(outbox)[0].serial, verdict)]
    {
      HeadSettled(outbox, sent, settled, next, verdict);
      settled := settled + [Settlement(outbox[0].serial, verdict)];
      outbox := outbox[1..];
    }

    /** The rejection of a request whose peer was closed. */
    method Landed()
      requires Valid() && !peer && flight.Some?
      modifies this`busy, this`flight
      ensures Valid() && !busy && flight.None?
    {
      busy, flight := false, None;
    }

    /** `lost`, then `retire`. */
    method Lost()
      requires Valid()
      modifies this`paused, this`writer, this`peer, this`open
      ensures Valid() && !peer && !open && !writer && paused == (old(writer) || old(paused))
    {
      if writer { paused := true; }
      writer, peer, open := false, false, false;
    }

    /** A new connection, the rejections of the old peer landed: `resumeAll` resumes the session in
        read mode before the connection is open, or drops it if the server no longer knows it;
        then the queue is pumped. */
    method Opened(known: bool, accepted: bool)
      requires Valid() && !peer && flight.None?
      modifies this`outbox, this`busy, this`flight, this`sent, this`settled, this`writer, this`peer, this`open
      ensures Valid() && peer && open == known && paused == old(paused)
      ensures !known ==> outbox == [] && sent == old(sent) && settled == old(settled) + Drained(old(outbox))
                         && writer == old(writer) && flight.None?
      ensures known ==> !writer && settled == old(settled) && SameQueue(old(outbox), outbox)
      ensures known ==> if old(outbox) != [] && !paused && accepted
                        then sent == old(sent) + [old(outbox)[0].serial] && flight == Some(Flight(old(outbox)[0].serial, old(outbox)[0].sent))
                        else sent == old(sent) && flight.None? && outbox == old(outbox)
    {
      peer := true;
      if !known {
        Reject();
        return;
      }
      Resumed(accepted);
      open := true;
      Pump(accepted);
    }

    /** A resume in read mode. */
    method Resumed(accepted: bool)
      requires Valid()
      modifies this`outbox, this`busy, this`flight, this`sent, this`writer
      ensures Valid() && !writer && SameQueue(old(outbox), outbox)
      ensures if old(outbox) != [] && peer && open && !old(busy) && !paused && accepted
              then sent == old(sent) + [old(outbox)[0].serial] && flight == Some(Flight(old(outbox)[0].serial, old(outbox)[0].sent))
              else sent == old(sent) && flight == old(flight) && outbox == old(outbox)
    {
      writer := false;
      Pump(accepted);
    }

    /** `claimed`, and a resume in write mode. */
    method Claimed(accepted: bool)
      requires Valid()
      modifies this`outbox, this`busy, this`flight, this`sent, this`writer, this`paused
      ensures Valid() && writer && !paused && SameQueue(old(outbox), outbox)
      ensures if old(outbox) != [] && peer && open && !old(busy) && accepted
              then sent == old(sent) + [old(outbox)[0].serial] && flight == Some(Flight(old(outbox)[0].serial, old(outbox)[0].sent))
              else sent == old(sent) && flight == old(flight) && outbox == old(outbox)
    {
      writer, paused := true, false;
      Pump(accepted);
    }

    /** `reject`: drain the outbox. */
    method Reject()
      requires Valid()
      modifies this`outbox, this`settled
      ensures Valid() && outbox == []
      ensures settled == old(settled) + Drained(old(outbox))
    {
      ghost var was := outbox;
      while outbox != []
        invariant Valid() && settled + Drained(outbox) == old(settled) + Drained(was)
        decreases |outbox|
      {
        var head := outbox[0];
        var verdict := if head.sent then Uncertain else ClosedError;
        DrainedHead(outbox, settled);
        Shift(verdict);
      }
    }

    /** `shutdown` and `retire`, for this session. */
    method Shutdown()
      requires Valid()
      modifies this`outbox, this`settled, this`writer, this`paused, this`peer, this`open
      ensures Valid() && outbox == [] && !peer && !open && !writer && !paused && settled == old(settled) + Drained(old(outbox))
    {
      writer, paused := false, false;
      Reject();
      peer, open := false, false;
    }
  }

  /** What draining an outbox reports. */
  function Drained(outbox: seq<Entry>): seq<Settlement> {
    if outbox == [] then []
    else [Settlement(outbox[0].serial, if outbox[0].sent then Uncertain else ClosedError)] + Drained(outbox[1..])
  }

  /** It reports each prompt once, in order: as uncertain if it was transmitted, else as closed. */
  lemma {:induction false} DrainedIsExact(outbox: seq<Entry>, i: nat)
    requires i < |outbox|
    ensures |Drained(outbox)| == |outbox| && Drained(outbox)[i].serial == outbox[i].serial
    ensures Drained(outbox)[i].verdict == Uncertain <==> outbox[i].sent
    ensures Drained(outbox)[i].verdict == ClosedError <==> !outbox[i].sent
  {
    if |outbox| > 1 { DrainedIsExact(outbox[1..], if i == 0 then 0 else i - 1); }
  }

  lemma DrainedHead(outbox: seq<Entry>, settled: seq<Settlement>)
    requires outbox != []
    ensures settled + [Settlement(outbox[0].serial, if outbox[0].sent then Uncertain else ClosedError)] + Drained(outbox[1..])
            == settled + Drained(outbox)
  {
  }

  lemma Transmitted(outbox: seq<Entry>, sent: seq<nat>, settled: seq<Settlement>, next: nat)
    requires Increasing(outbox) && InOrder(sent) && Honest(settled, sent) && Accounted(outbox, sent, settled, next) && outbox != []
    ensures var sent', outbox' := sent + [outbox[0].serial], outbox[0 := outbox[0].(sent := true)];
            Increasing(outbox') && InOrder(sent') && Honest(settled, sent') && Accounted(outbox', sent', settled, next)
  {
    var sent' := sent + [outbox[0].serial];
    assert forall x :: x in sent' <==> x in sent || x == outbox[0].serial;
    forall i | 0 <= i < |settled| ensures settled[i].serial in sent' <==> settled[i].serial in sent { }
  }

  lemma Queued(outbox: seq<Entry>, sent: seq<nat>, settled: seq<Settlement>, next: nat, commandId: string)
    requires Increasing(outbox) && Accounted(outbox, sent, settled, next)
    ensures Increasing(outbox + [Entry(next, commandId, false)])
    ensures Accounted(outbox + [Entry(next, commandId, false)], sent, settled, next + 1)
  {
  }

  /** The head may be settled, with a verdict that says whether it was transmitted. */
  lemma HeadSettled(outbox: seq<Entry>, sent: seq<nat>, settled: seq<Settlement>, next: nat, verdict: Verdict)
    requires Increasing(outbox) && InOrder(sent) && SettledOnce(settled) && Honest(settled, sent)
    requires Accounted(outbox, sent, settled, next) && outbox != []
    requires verdict == ClosedError <==> !outbox[0].sent
    ensures var settled' := settled + [Settlement(outbox[0].serial, verdict)];
            Increasing(outbox[1..]) && SettledOnce(settled') && Honest(settled', sent) && Accounted(outbox[1..], sent, settled', next)
  {
    assert forall i :: 0 <= i < |outbox| - 1 ==> outbox[1..][i] == outbox[i + 1];
  }
}
