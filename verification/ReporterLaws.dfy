/** What each part of the reporter does to its environment's answers, field by field and with
    the numbers of the source written out: which bytes a flush hands over, when an event closes
    the socket and what that costs, how an attempt ends, what a pass leaves behind. */
module ReporterLaws {
  import opened ReporterSpec

  // ---------------------------------------------------------------- what send takes

  /** The bytes the send answers are ready to take before one of them stops the flush. */
  function Offered(sends: seq<SendResult>): nat {
    if sends == [] then 0
    else match sends[0]
      case Sent(k) => (if k == 0 then 1 else k) + Offered(sends[1..])
      case Interrupted => Offered(sends[1..])
      case _ => 0
  }

  /** How many of the answers take something, until all of len bytes are gone. */
  function SendsUsed(sends: seq<SendResult>, len: nat): nat {
    if sends == [] || len == 0 then 0
    else match sends[0]
      case Sent(k) => 1 + SendsUsed(sends[1..], if k >= len then 0 else len - (if k == 0 then 1 else k))
      case Interrupted => SendsUsed(sends[1..], len)
      case _ => 0
  }

  /** The first answer that neither takes bytes nor is an interruption is a failure. */
  predicate Fails(sends: seq<SendResult>) {
    exists i :: 0 <= i < |sends| && sends[i].SendFailed?
                && forall j :: 0 <= j < i ==> sends[j].Sent? || sends[j].Interrupted?
  }

  lemma FailsNext(sends: seq<SendResult>)
    requires sends != []
    ensures sends[0].SendFailed? ==> Fails(sends)
    ensures sends[0].WouldBlock? ==> !Fails(sends)
    ensures sends[0].Sent? || sends[0].Interrupted? ==> (Fails(sends) <==> Fails(sends[1..]))
  {
    if sends[0].Sent? || sends[0].Interrupted? {
      if Fails(sends) {
        var i :| 0 <= i < |sends| && sends[i].SendFailed?
                 && forall j :: 0 <= j < i ==> sends[j].Sent? || sends[j].Interrupted?;
        assert sends[1..][i - 1].SendFailed?;
      }
      if Fails(sends[1..]) {
        var i :| 0 <= i < |sends| - 1 && sends[1..][i].SendFailed?
                 && forall j :: 0 <= j < i ==> sends[1..][j].Sent? || sends[1..][j].Interrupted?;
        assert sends[i + 1].SendFailed?;
        forall j | 0 <= j < i + 1
          ensures sends[j].Sent? || sends[j].Interrupted?
        {
          assert j > 0 ==> sends[j] == sends[1..][j - 1];
        }
      }
    }
  }

  /** How many bytes a flush of buf hands over. */
  function Handed(buf: string, sends: seq<SendResult>): (m: nat)
    ensures m <= |buf|
  {
    if Offered(sends) < |buf| then Offered(sends) else |buf|
  }

  /** r with everything a counted failure at time `at` changes, numbers written out. */
  ghost predicate Failed(r: R, at: nat, f: R) {
    && !f.open && !f.connecting && !f.want
    && f.nextRetry == at + r.backoff
    && f.backoff == (if 2 * r.backoff <= 30000 then 2 * r.backoff else 30000)
    && f.reconnects == r.reconnects + 1
    && f.log == r.log + [Failure(at, r.backoff)]
  }

  /** A connection that lives on: nothing of its retry state has changed. */
  ghost predicate Alive(r: R, f: R) {
    && f.open == r.open && f.connecting == r.connecting && f.nextRetry == r.nextRetry
    && f.backoff == r.backoff && f.reconnects == r.reconnects && f.log == r.log
  }

  lemma HandTwice(kernel: string, buf: string, n: nat, m: nat)
    requires n + m <= |buf|
    ensures (kernel + buf[..n]) + buf[n..][..m] == kernel + buf[..n + m]
    ensures buf[n..][m..] == buf[n + m..]
  {
    assert buf[..n] + buf[n..][..m] == buf[..n + m];
    Assoc(kernel, buf[..n], buf[n..][..m]);
  }

  lemma HandNone(kernel: string, buf: string)
    ensures kernel + buf[..0] == kernel && buf[0..] == buf
  {
  }

  lemma HandedNext(buf: string, sends: seq<SendResult>)
    requires buf != [] && sends != []
    ensures sends[0].Sent? ==>
      var n := Taken(sends[0].k, |buf|); Handed(buf, sends) == n + Handed(buf[n..], sends[1..])
    ensures sends[0].Interrupted? ==> Handed(buf, sends) == Handed(buf, sends[1..])
    ensures sends[0].WouldBlock? || sends[0].SendFailed? ==> Handed(buf, sends) == 0
  {
  }

  lemma {:induction false} FlushBytes(r: R, sends: seq<SendResult>, at: nat)
    requires r.open
    ensures var f, m := Flush(r, sends, at), Handed(r.buf, sends);
      f.kernel == r.kernel + r.buf[..m] && f.buf == r.buf[m..]
    decreases |sends|
  {
    HandNone(r.kernel, r.buf);
    if r.buf != [] && sends != [] {
      HandedNext(r.buf, sends);
      hide Handed;
      match sends[0] {
        case Sent(k) =>
          var n := Taken(k, |r.buf|);
          FlushBytes(r.(buf := r.buf[n..], kernel := r.kernel + r.buf[..n], sent := r.sent + 1), sends[1..], at);
          HandTwice(r.kernel, r.buf, n, Handed(r.buf[n..], sends[1..]));
        case Interrupted => FlushBytes(r, sends[1..], at);
        case _ =>
      }
    }
  }

  lemma {:induction false} FlushCountsSends(r: R, sends: seq<SendResult>, at: nat)
    requires r.open
    ensures Flush(r, sends, at).sent == r.sent + SendsUsed(sends, |r.buf|)
    decreases |sends|
  {
    if r.buf != [] && sends != [] {
      match sends[0] {
        case Sent(k) =>
          var n := Taken(k, |r.buf|);
          FlushCountsSends(r.(buf := r.buf[n..], kernel := r.kernel + r.buf[..n], sent := r.sent + 1), sends[1..], at);
        case Interrupted => FlushCountsSends(r, sends[1..], at);
        case _ =>
      }
    }
  }

  /** What becomes of the connection. */
  ghost predicate FlushFate(r: R, sends: seq<SendResult>, at: nat, f: R) {
    var m := Handed(r.buf, sends);
    if Fails(sends) && m < |r.buf| then Failed(r, at, f)
    else Alive(r, f) && f.want == (r.want && m < |r.buf|) && f.out == (r.out && !(r.want && m == |r.buf|))
  }

  lemma {:induction false} FlushEnds(r: R, sends: seq<SendResult>, at: nat)
    requires r.open
    ensures FlushFate(r, sends, at, Flush(r, sends, at))
    decreases |sends|
  {
    if r.buf != [] && sends != [] {
      FailsNext(sends);
      HandedNext(r.buf, sends);
      hide Fails, Handed;
      match sends[0] {
        case Sent(k) =>
          var n := Taken(k, |r.buf|);
          var r' := r.(buf := r.buf[n..], kernel := r.kernel + r.buf[..n], sent := r.sent + 1);
          FlushEnds(r', sends[1..], at);
        case Interrupted => FlushEnds(r, sends[1..], at);
        case _ =>
      }
    }
  }

  lemma {:induction false} FlushLeaves(r: R, sends: seq<SendResult>, at: nat)
    ensures var f := Flush(r, sends, at);
      && f.queue == r.queue && f.popped == r.popped && f.arrived == r.arrived && f.looks == r.looks
      && f.nextSample == r.nextSample
    decreases |sends|
  {
    if r.buf != [] && r.open && sends != [] {
      match sends[0] {
        case Sent(k) =>
          var n := Taken(k, |r.buf|);
          FlushLeaves(r.(buf := r.buf[n..], kernel := r.kernel + r.buf[..n], sent := r.sent + 1), sends[1..], at);
        case Interrupted => FlushLeaves(r, sends[1..], at);
        case _ =>
      }
    }
  }

  /** A flush on an open socket: the bytes handed over are the first of the buffer, as many as
      the answers take; the rest stays.  It fails, and closes, exactly if a failing answer comes
      while bytes are left; would-block keeps the socket open.  When all is gone the interest in
      writing goes too. */
  lemma FlushTakes(r: R, sends: seq<SendResult>, at: nat)
    requires r.open
    ensures var f, m := Flush(r, sends, at), Handed(r.buf, sends);
      && f.kernel == r.kernel + r.buf[..m] && f.buf == r.buf[m..]
      && f.sent == r.sent + SendsUsed(sends, |r.buf|)
      && (if Fails(sends) && m < |r.buf| then Failed(r, at, f)
          else Alive(r, f) && f.want == (r.want && m < |r.buf|) && f.out == (r.out && !(r.want && m == |r.buf|)))
      && f.queue == r.queue && f.popped == r.popped && f.arrived == r.arrived && f.looks == r.looks
      && f.nextSample == r.nextSample
  {
    hide Flush;
    FlushBytes(r, sends, at);
    FlushCountsSends(r, sends, at);
    FlushEnds(r, sends, at);
    FlushLeaves(r, sends, at);
  }

  /** A flush on a closed socket hands nothing over; it is a failure if anything is buffered. */
  lemma FlushOnClosed(r: R, sends: seq<SendResult>, at: nat)
    requires !r.open
    ensures var f := Flush(r, sends, at);
      f.kernel == r.kernel && f.buf == r.buf && f.sent == r.sent
      && if r.buf != [] then Failed(r, at, f) else Alive(r, f) && !f.want
  {
  }

  // ---------------------------------------------------------------- what an event does

  /** The connect under way turns out well with this event, or badly. */
  predicate Completes(r: R, ev: Event) {
    !ev.lost && r.connecting && ev.writable && !ev.soError
  }

  predicate Breaks(r: R, ev: Event) {
    ev.lost || (r.connecting && ev.writable && ev.soError)
  }

  /** The event's flush is on an open socket. */
  predicate Flushes(r: R, ev: Event) {
    r.open && ev.writable && !Breaks(r, ev) && !(ev.readable && Closes(ev.recvs))
  }

  /** A lost connection, or a connect that failed, is closed and counted at once. */
  lemma BrokenIsCounted(r: R, ev: Event)
    requires Breaks(r, ev)
    ensures var f := OnEvent(r, ev);
      Failed(r, ev.at, f) && f.kernel == r.kernel && f.buf == r.buf && f.sent == r.sent && f.nextSample == r.nextSample
  {
  }

  /** r after the connect has completed, as far as the event's reading and flushing see it. */
  function AfterConnect(r: R, ev: Event): R {
    if Completes(r, ev)
    then r.(connecting := false, backoff := 1000, nextSample := ev.at, log := r.log + [Up(ev.at)]) else r
  }

  /** Reading comes before writing, and closing stops both. */
  lemma EventCases(r: R, ev: Event)
    requires r.open && !Breaks(r, ev)
    ensures var c := AfterConnect(r, ev);
      OnEvent(r, ev) ==
        if ev.readable && Closes(ev.recvs)
        then (if ev.writable then Flush(Close(c), ev.sends, ev.sendAt) else Close(c))
        else (if ev.writable then Flush(c, ev.sends, ev.sendAt) else c)
  {
    hide Flush, Receive, Closes;
    var c := AfterConnect(r, ev);
    ReceiveCloses(c, ev.recvs);
    ReceiveSame(c, ev.recvs);
  }

  lemma FailedIsClosed(r: R, at: nat, f: R)
    requires Failed(r, at, f)
    ensures !f.open
  {
  }

  lemma FlushOpens(r: R, sends: seq<SendResult>, at: nat)
    ensures Flush(r, sends, at).open <==> r.open && !(Fails(sends) && Handed(r.buf, sends) < |r.buf|)
  {
    if r.open {
      FlushTakes(r, sends, at);
    } else {
      FlushOnClosed(r, sends, at);
    }
  }

  /** When an event closes an open socket: exactly if the connection is lost, the connect has
      failed, a recv closes, or a send fails with bytes left. */
  lemma EventCloses(r: R, ev: Event)
    requires r.open
    ensures !OnEvent(r, ev).open <==>
      || ev.lost
      || (r.connecting && ev.writable && ev.soError)
      || (ev.readable && Closes(ev.recvs))
      || (ev.writable && Fails(ev.sends) && Handed(r.buf, ev.sends) < |r.buf|)
  {
    hide Flush, Closes, Fails, OnEvent, Handed, Failed, Alive;
    if Breaks(r, ev) {
      BrokenIsCounted(r, ev);
      FailedIsClosed(r, ev.at, OnEvent(r, ev));
    } else {
      EventCases(r, ev);
      var c := AfterConnect(r, ev);
      FlushOpens(c, ev.sends, ev.sendAt);
      FlushOpens(Close(c), ev.sends, ev.sendAt);
    }
  }

  /** What leaves the buffer in an event: exactly what its send answers take, if the flush is on
      an open socket, and nothing otherwise. */
  lemma EventHands(r: R, ev: Event)
    requires r.open
    ensures var f, m := OnEvent(r, ev), if Flushes(r, ev) then Handed(r.buf, ev.sends) else 0;
      f.kernel == r.kernel + r.buf[..m] && f.buf == r.buf[m..]
      && f.sent == r.sent + (if Flushes(r, ev) then SendsUsed(ev.sends, |r.buf|) else 0)
  {
    hide Flush, Closes, OnEvent, Handed, SendsUsed;
    assert r.kernel + r.buf[..0] == r.kernel;
    if Breaks(r, ev) {
      BrokenIsCounted(r, ev);
    } else {
      EventCases(r, ev);
      var c := AfterConnect(r, ev);
      FlushTakes(c, ev.sends, ev.sendAt);
      FlushOnClosed(Close(c), ev.sends, ev.sendAt);
    }
  }

  /** A writable event without error ends the connect that was under way: the record shows it,
      the backoff is back at 1000 ms (or 2000 if the connection breaks in the same event), and
      sampling may start at once.  No other event completes a connect. */
  lemma EventConnects(r: R, ev: Event)
    requires r.open
    ensures Completes(r, ev) ==>
      var f := OnEvent(r, ev);
      && !f.connecting && f.nextSample == ev.at && r.log + [Up(ev.at)] <= f.log
      && f.backoff == (if f.reconnects == r.reconnects then 1000 else 2000)
    ensures !Completes(r, ev) ==>
      var f := OnEvent(r, ev);
      && f.nextSample == r.nextSample
      && (f.log == r.log || (|f.log| == |r.log| + 1 && r.log <= f.log && f.log[|r.log|].Failure?))
      && (f.open ==> f.connecting == r.connecting)
  {
    hide Flush, Closes, OnEvent, Handed, SendsUsed, Fails;
    if Breaks(r, ev) {
      BrokenIsCounted(r, ev);
    } else {
      EventCases(r, ev);
      var c := AfterConnect(r, ev);
      FlushTakes(c, ev.sends, ev.sendAt);
      FlushOnClosed(Close(c), ev.sends, ev.sendAt);
      FlushLeaves(Close(c), ev.sends, ev.sendAt);
    }
  }

  /** A batch of events is handled one after the other, all of them. */
  lemma {:induction false} EventsJoin(r: R, first: seq<Event>, more: seq<Event>)
    ensures OnEvents(r, first + more) == OnEvents(OnEvents(r, first), more)
    ensures forall ev :: OnEvents(r, [ev]) == OnEvent(r, ev)
    decreases |first|
  {
    hide OnEvent;
    forall ev
      ensures OnEvents(r, [ev]) == OnEvent(r, ev)
    {
      assert [ev][1..] == [];
    }
    if first == [] {
      assert first + more == more;
    } else {
      assert (first + more)[1..] == first[1..] + more;
      EventsJoin(OnEvent(r, first[0]), first[1..], more);
    }
  }

  // ---------------------------------------------------------------- what a pass does

  /** DrainPopped speaks of the queue and the record only. */
  lemma SameQueue(r0: R, r: R, d: R, taken: seq<Popped>)
    requires r.queue == r0.queue && r.popped == r0.popped && DrainPopped(r0, 128, d, taken)
    ensures DrainPopped(r, 128, d, taken)
  {
  }

  /** Sampling: exactly when 50 ms have passed since the last drain, or a connect has just
      completed, messages are taken - at most 128, in order, as DrainPopped says - and the next
      drain is 50 ms away. */
  lemma SampledTakes(r: R, t: Turn) returns (taken: seq<Popped>)
    ensures t.sampleNow < r.nextSample ==> Sampled(r, t) == r
    ensures t.sampleNow >= r.nextSample ==>
      && DrainPopped(r, 128, Sampled(r, t), taken)
      && Sampled(r, t).nextSample == t.sampleNow + 50 && Sampled(r, t).log == r.log + [Drained(t.sampleNow)]
  {
    hide Drain, DrainPopped;
    taken := [];
    if t.sampleNow >= r.nextSample {
      var r0 := r.(nextSample := t.sampleNow + 50, log := r.log + [Drained(t.sampleNow)]);
      taken := DrainPops(r0, 128);
      DrainInterest(r0, 128);
      SameQueue(r0, r, Drain(r0, 128), taken);
    }
  }

  /** The socket is there to wait on: it was open, or the attempt of this pass made it so. */
  predicate Waits(r: R, t: Turn) {
    r.open || (t.now >= r.nextRetry && Connects(t.connect))
  }

  lemma SampledKeeps(r: R, t: Turn)
    ensures var s := Sampled(r, t);
      && s.open == r.open && s.connecting == r.connecting && s.looks == r.looks
      && s.reconnects == r.reconnects && s.nextRetry == r.nextRetry && s.backoff == r.backoff
      && r.log <= s.log
  {
    hide Drain;
    DrainInterest(r.(nextSample := t.sampleNow + 50, log := r.log + [Drained(t.sampleNow)]), BUDGET);
  }

  lemma EventLeaves(r: R, ev: Event)
    ensures OnEvent(r, ev).looks == r.looks && OnEvent(r, ev).arrived == r.arrived
  {
    hide Flush, Receive;
    var c := if r.connecting && ev.writable
             then r.(connecting := false, backoff := 1000, nextSample := ev.at, log := r.log + [Up(ev.at)]) else r;
    ReceiveSame(c, ev.recvs);
    FlushLeaves(if ev.readable then Receive(c, ev.recvs) else c, ev.sends, ev.sendAt);
  }

  lemma {:induction false} EventsLeave(r: R, events: seq<Event>)
    ensures OnEvents(r, events).looks == r.looks && OnEvents(r, events).arrived == r.arrived
    decreases |events|
  {
    hide OnEvent;
    if events != [] {
      EventLeaves(r, events[0]);
      EventsLeave(OnEvent(r, events[0]), events[1..]);
    }
  }

  /** The loop goes on after every pass but one that fails in epoll_wait for good; it reaches
      epoll_wait exactly if there is a socket, once, and that look shows whether a connect is
      under way: the one before, or the one just begun if it did not succeed at once. */
  lemma PassWaits(r: R, t: Turn)
    ensures Pass(r, t).1 <==> !(Waits(r, t) && t.wait.WaitFailed?)
    ensures var p := Pass(r, t).0;
      if Waits(r, t)
      then r.looks <= p.looks && |p.looks| == |r.looks| + 1
           && p.looks[|r.looks|].connecting == (if r.open then r.connecting else t.connect.InProgress?)
      else p.looks == r.looks
  {
    hide Sampled, OnEvents, Discard;
    var a := Arrive(r, t);
    var (c, ok) := if r.open then (a, true) else TryConnect(a.(log := a.log + [Attempt(t.now)]), t.connect);
    SampledKeeps(c, t);
    DiscardInterest(Fail(c, t.now));
    if t.wait.Events? {
      EventsLeave(Waiting(Arm(Sampled(c, t))), t.wait.events);
    }
  }

  /** An attempt that fails is a counted failure at the time of the attempt. */
  lemma FailedAttempt(r: R, t: Turn)
    requires !r.open && t.now >= r.nextRetry && !Connects(t.connect)
    ensures var p := Pass(r, t).0;
      && !p.open && p.nextRetry == t.now + r.backoff && p.reconnects == r.reconnects + 1
      && p.backoff == (if 2 * r.backoff <= 30000 then 2 * r.backoff else 30000)
      && p.log == r.log + [Attempt(t.now), Failure(t.now, r.backoff)]
      && p.buf == r.buf && p.kernel == r.kernel && p.sent == r.sent
  {
    var a := Arrive(r, t);
    var c := TryConnect(a.(log := a.log + [Attempt(t.now)]), t.connect).0;
    DiscardAll(Fail(c, t.now));
    assert [Attempt(t.now)] + [Failure(t.now, r.backoff)] == [Attempt(t.now), Failure(t.now, r.backoff)];
    Assoc(r.log, [Attempt(t.now)], [Failure(t.now, r.backoff)]);
  }

  /** An attempt that does not fail leaves an open socket and an unchanged retry state. */
  lemma GoodAttempt(r: R, t: Turn)
    requires !r.open && t.now >= r.nextRetry && Connects(t.connect) && !t.wait.Events?
    ensures var p := Pass(r, t).0;
      && p.open && (p.connecting <==> t.connect.InProgress?)
      && p.nextRetry == r.nextRetry && p.backoff == r.backoff && p.reconnects == r.reconnects
      && r.log + [Attempt(t.now)] <= p.log
  {
    hide Sampled;
    var a := Arrive(r, t);
    SampledKeeps(TryConnect(a.(log := a.log + [Attempt(t.now)]), t.connect).0, t);
  }

  lemma SameSample(r: R, t: Turn)
    ensures Sampled(r, t.(wait := WaitInterrupted)) == Sampled(r, t)
  {
    hide Drain;
  }

  /** The events of a pass meet the state that it waited in. */
  lemma PassEvents(r: R, t: Turn)
    requires Waits(r, t) && t.wait.Events?
    ensures Pass(r, t).0 == OnEvents(Pass(r, t.(wait := WaitInterrupted)).0, t.wait.events)
    ensures Pass(r, t.(wait := WaitInterrupted)).0.open
  {
    hide Sampled, OnEvents;
    var a := Arrive(r, t);
    var (c, _) := if r.open then (a, true) else TryConnect(a.(log := a.log + [Attempt(t.now)]), t.connect);
    SampledKeeps(c, t);
    SameSample(c, t);
  }

  // ---------------------------------------------------------------- the whole run

  /** What the send answers of a batch of events take, in order. */
  function TakenIn(r: R, events: seq<Event>): string
    decreases |events|
  {
    if events == [] then []
    else (if Flushes(r, events[0]) then r.buf[..Handed(r.buf, events[0].sends)] else [])
         + TakenIn(OnEvent(r, events[0]), events[1..])
  }

  /** What the send answers of a whole run take, in order. */
  function TakenOver(r: R, turns: seq<Turn>): string
    decreases |turns|
  {
    if turns == [] then []
    else
      var t := turns[0];
      (if Waits(r, t) && t.wait.Events? then TakenIn(Pass(r, t.(wait := WaitInterrupted)).0, t.wait.events) else [])
      + (if Pass(r, t).1 then TakenOver(Pass(r, t).0, turns[1..]) else [])
  }

  lemma ClosedEventHands(r: R, ev: Event)
    requires !r.open
    ensures OnEvent(r, ev).kernel == r.kernel
  {
    hide Flush, Receive;
    var r1 := if r.connecting && ev.writable
              then r.(connecting := false, backoff := 1000, nextSample := ev.at, log := r.log + [Up(ev.at)]) else r;
    ReceiveSame(r1, ev.recvs);
    FlushOnClosed(if ev.readable then Receive(r1, ev.recvs) else r1, ev.sends, ev.sendAt);
  }

  lemma NotOnClosed(r: R, ev: Event)
    requires !r.open
    ensures !Flushes(r, ev)
  {
  }

  lemma {:induction false} EventsHand(r: R, events: seq<Event>)
    ensures OnEvents(r, events).kernel == r.kernel + TakenIn(r, events)
    decreases |events|
  {
    hide OnEvent, Handed, Flushes;
    if events == [] {
      assert r.kernel + [] == r.kernel;
    } else {
      var ev := events[0];
      var now := if Flushes(r, ev) then r.buf[..Handed(r.buf, ev.sends)] else [];
      if r.open {
        EventHands(r, ev);
      } else {
        ClosedEventHands(r, ev);
        NotOnClosed(r, ev);
      }
      assert OnEvent(r, ev).kernel == r.kernel + now;
      EventsHand(OnEvent(r, ev), events[1..]);
      Assoc(r.kernel, now, TakenIn(OnEvent(r, ev), events[1..]));
    }
  }

  lemma {:induction false} DrainLeaves(r: R, budget: nat)
    ensures Drain(r, budget).kernel == r.kernel && Drain(r, budget).arrived == r.arrived
    decreases budget
  {
    if budget > 0 && r.queue != [] && |r.buf| < MAX_BUF {
      DrainLeaves(Pop(r, true), budget - 1);
    }
  }

  lemma SampledLeaves(r: R, t: Turn)
    ensures Sampled(r, t).kernel == r.kernel && Sampled(r, t).arrived == r.arrived
  {
    hide Drain;
    DrainLeaves(r.(nextSample := t.sampleNow + 50, log := r.log + [Drained(t.sampleNow)]), BUDGET);
  }

  /** Outside the events the kernel gets nothing. */
  lemma QuietPass(r: R, t: Turn)
    requires !(Waits(r, t) && t.wait.Events?)
    ensures Pass(r, t).0.kernel == r.kernel
  {
    hide Sampled, Discard;
    var a := Arrive(r, t);
    var (c, ok) := if r.open then (a, true) else TryConnect(a.(log := a.log + [Attempt(t.now)]), t.connect);
    SampledLeaves(c, t);
    DiscardAll(Fail(c, t.now));
  }

  lemma PassHands(r: R, t: Turn)
    ensures Pass(r, t).0.kernel ==
      r.kernel + (if Waits(r, t) && t.wait.Events?
                  then TakenIn(Pass(r, t.(wait := WaitInterrupted)).0, t.wait.events) else [])
  {
    hide Pass, TakenIn;
    if Waits(r, t) && t.wait.Events? {
      PassEvents(r, t);
      QuietPass(r, t.(wait := WaitInterrupted));
      EventsHand(Pass(r, t.(wait := WaitInterrupted)).0, t.wait.events);
    } else {
      QuietPass(r, t);
      assert r.kernel + [] == r.kernel;
    }
  }

  /** The kernel has got, over all connections, exactly what the send answers took. */
  lemma {:induction false} KernelIsTaken(r: R, turns: seq<Turn>)
    ensures Loop(r, turns).kernel == r.kernel + TakenOver(r, turns)
    decreases |turns|
  {
    hide Pass, TakenIn, Waits;
    if turns == [] {
      assert r.kernel + [] == r.kernel;
    } else {
      var t := turns[0];
      PassHands(r, t);
      var now := if Waits(r, t) && t.wait.Events?
                 then TakenIn(Pass(r, t.(wait := WaitInterrupted)).0, t.wait.events) else [];
      if Pass(r, t).1 {
        KernelIsTaken(Pass(r, t).0, turns[1..]);
        Assoc(r.kernel, now, TakenOver(Pass(r, t).0, turns[1..]));
      } else {
        assert now + [] == now;
      }
    }
  }

  /** The loop makes a pass for every turn, until epoll_wait fails for good. */
  lemma {:induction false} LoopJoins(r: R, first: seq<Turn>, more: seq<Turn>)
    requires forall t :: t in first ==> !t.wait.WaitFailed?
    ensures Loop(r, first + more) == Loop(Loop(r, first), more)
    decreases |first|
  {
    hide Pass;
    if first == [] {
      assert first + more == more;
    } else {
      assert (first + more)[1..] == first[1..] + more;
      assert first[0] in first && forall t :: t in first[1..] ==> t in first;
      PassWaits(r, first[0]);
      LoopJoins(Pass(r, first[0]).0, first[1..], more);
    }
  }

  lemma LoopOne(r: R, t: Turn, more: seq<Turn>)
    ensures Loop(r, [t]) == Pass(r, t).0
    ensures Waits(r, t) && t.wait.WaitFailed? ==> Loop(r, [t] + more) == Pass(r, t).0
  {
    PassWaits(r, t);
    hide Pass, Waits;
    assert [t][1..] == [] && ([t] + more)[1..] == more;
  }

  lemma PassArrives(r: R, t: Turn)
    ensures Pass(r, t).0.arrived == r.arrived + t.arrivals
  {
    hide Sampled, Discard, OnEvents;
    var a := Arrive(r, t);
    var (c, ok) := if r.open then (a, true) else TryConnect(a.(log := a.log + [Attempt(t.now)]), t.connect);
    SampledLeaves(c, t);
    DiscardAll(Fail(c, t.now));
    if t.wait.Events? {
      EventsLeave(Waiting(Arm(Sampled(c, t))), t.wait.events);
    }
  }

  /** Every message that came in while the loop ran has arrived. */
  lemma {:induction false} AllArrive(r: R, turns: seq<Turn>)
    requires forall t :: t in turns ==> !t.wait.WaitFailed?
    ensures Loop(r, turns).arrived == r.arrived + Arrivals(turns)
    decreases |turns|
  {
    hide Pass;
    if turns == [] {
      assert r.arrived + [] == r.arrived;
    } else {
      assert turns[0] in turns && forall t :: t in turns[1..] ==> t in turns;
      PassWaits(r, turns[0]);
      PassArrives(r, turns[0]);
      AllArrive(Pass(r, turns[0]).0, turns[1..]);
      Assoc(r.arrived, turns[0].arrivals, Arrivals(turns[1..]));
    }
  }
}
