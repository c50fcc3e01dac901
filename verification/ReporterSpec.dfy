/** The non-blocking TCP reporter as a state machine driven by its environment: what arrives
    in its queue, what connect, send and recv answer, which events epoll reports, and what the
    clock says are all inputs.  Every property is proved for every input. */
module ReporterSpec {
  import opened Words

  const MAX_BUF: nat := 1024 * 1024
  const MAX_BACKOFF: nat := 30000
  const BUDGET: nat := 128

  /** send: the kernel takes some bytes (at least one, at most all), or does not. */
  datatype SendResult = Sent(k: nat) | WouldBlock | Interrupted | SendFailed
  datatype RecvResult = Data | NoMore | Closing

  /** How an attempt to connect goes: before connect, at connect, or at epoll registration. */
  datatype ConnectResult = SocketFails | BadAddress | Refused | Connected | InProgress | AddFails(inProgress: bool)

  /** One epoll event with everything its handling meets: SO_ERROR, the recv and send answers
      (no further answer means EAGAIN), and the clock at its two possible readings. */
  datatype Event = Event(lost: bool, readable: bool, writable: bool, soError: bool,
                         recvs: seq<RecvResult>, sends: seq<SendResult>, at: nat, sendAt: nat)

  datatype WaitResult = WaitInterrupted | WaitFailed | Events(events: seq<Event>)

  /** One pass of the main loop. */
  datatype Turn = Turn(now: nat, arrivals: seq<string>, connect: ConnectResult, sampleNow: nat, wait: WaitResult)

  /** What happened to a message taken from the queue. */
  datatype Popped = Popped(msg: string, kept: bool)

  datatype Mark = Attempt(at: nat) | Failure(at: nat, wait: nat) | Up(at: nat) | Drained(at: nat)

  /** What holds at an epoll_wait. */
  datatype Look = Look(open: bool, out: bool, want: bool, connecting: bool, buffered: bool)

  /** The reporter's fields, the epoll registration (out: EPOLLOUT is in the mask), its queue,
      and the record of what it did: arrived and popped messages, bytes the kernel took over all
      connections, connection marks, and the looks at each epoll_wait. */
  datatype R = R(open: bool, connecting: bool, want: bool, out: bool, buf: string,
                 nextRetry: nat, nextSample: nat, backoff: nat, sent: nat, reconnects: nat, queue: seq<string>,
                 arrived: seq<string>, popped: seq<Popped>, kernel: string, log: seq<Mark>, looks: seq<Look>)

  const START := R(false, false, false, false, [], 0, 0, 1000, 0, 0, [], [], [], [], [], [])

  function Min(a: nat, b: nat): nat { if a < b then a else b }

  /** How many of len > 0 bytes the kernel takes. */
  function Taken(k: nat, len: nat): (n: nat)
    requires len > 0
    ensures 1 <= n <= len
  {
    if k == 0 then 1 else Min(k, len)
  }

  function Close(r: R): R {
    r.(open := false, connecting := false, want := false)
  }

  /** A counted failure: retry after the current backoff, then double it. */
  function Fail(r: R, at: nat): R {
    r.(nextRetry := at + r.backoff, backoff := Min(r.backoff * 2, MAX_BACKOFF), reconnects := r.reconnects + 1,
       log := r.log + [Failure(at, r.backoff)])
  }

  function Modify(r: R, out: bool): R {
    if r.open then r.(out := out) else r
  }

  function Flush(r: R, sends: seq<SendResult>, at: nat): R
    decreases |sends|
  {
    if r.buf == [] then (if r.want then Modify(r, false).(want := false) else r)
    else if !r.open then Fail(Close(r), at)
    else if sends == [] then r
    else match sends[0]
      case Sent(k) =>
        var n := Taken(k, |r.buf|);
        Flush(r.(buf := r.buf[n..], kernel := r.kernel + r.buf[..n], sent := r.sent + 1), sends[1..], at)
      case WouldBlock => r
      case Interrupted => Flush(r, sends[1..], at)
      case SendFailed => Fail(Close(r), at)
  }

  function Receive(r: R, recvs: seq<RecvResult>): R
    decreases |recvs|
  {
    if !r.open then Close(r)
    else if recvs == [] then r
    else match recvs[0]
      case Data => Receive(r, recvs[1..])
      case NoMore => r
      case Closing => Close(r)
  }

  function OnEvent(r: R, ev: Event): R {
    if ev.lost then Fail(Close(r), ev.at)
    else if r.connecting && ev.writable && ev.soError then Fail(Close(r), ev.at)
    else
      var r1 := if r.connecting && ev.writable
                then r.(connecting := false, backoff := 1000, nextSample := ev.at, log := r.log + [Up(ev.at)]) else r;
      var r2 := if ev.readable then Receive(r1, ev.recvs) else r1;
      if ev.writable && !r2.connecting then Flush(r2, ev.sends, ev.sendAt) else r2
  }

  function OnEvents(r: R, events: seq<Event>): R
    decreases |events|
  {
    if events == [] then r else OnEvents(OnEvent(r, events[0]), events[1..])
  }

  /** One message taken from the queue, kept or not. */
  function Pop(r: R, kept: bool): R
    requires r.queue != []
  {
    r.(queue := r.queue[1..], popped := r.popped + [Popped(r.queue[0], kept)],
       buf := if kept then r.buf + r.queue[0] + "\n" else r.buf)
  }

  function Drain(r: R, budget: nat): R
    decreases budget
  {
    if budget == 0 || r.queue == [] then r
    else if |r.buf| >= MAX_BUF then Pop(r, false)
    else Drain(Pop(r, true), budget - 1)
  }

  lemma DrainOnce(r: R, budget: nat)
    requires budget > 0 && r.queue != []
    ensures Drain(r, budget) == if |r.buf| >= MAX_BUF then Pop(r, false) else Drain(Pop(r, true), budget - 1)
  {
  }

  lemma DrainNone(r: R, budget: nat)
    requires budget == 0 || r.queue == []
    ensures Drain(r, budget) == r
  {
  }

  /** Emptying the queue after a failed attempt: everything is thrown away. */
  function Discard(r: R): R
    decreases |r.queue|
  {
    if r.queue == [] then r else Discard(Pop(r, false))
  }

  /** tryConnect; when registration fails `connecting` keeps what connect made of it. */
  function TryConnect(r: R, c: ConnectResult): (R, bool) {
    match c
    case SocketFails => (r, false)
    case BadAddress => (r, false)
    case Refused => (r, false)
    case Connected => (r.(open := true, connecting := false, want := false, out := false), true)
    case InProgress => (r.(open := true, connecting := true, want := true, out := true), true)
    case AddFails(p) => (r.(connecting := p), false)
  }

  function Arm(r: R): R {
    if r.buf != [] && !r.want then Modify(r, true).(want := true) else r
  }

  function Waiting(r: R): R {
    r.(looks := r.looks + [Look(r.open, r.out, r.want, r.connecting, r.buf != [])])
  }

  /** The 50 ms sampling of the queue. */
  function Sampled(r: R, t: Turn): R {
    if t.sampleNow >= r.nextSample
    then Drain(r.(nextSample := t.sampleNow + 50, log := r.log + [Drained(t.sampleNow)]), BUDGET) else r
  }

  /** From an open socket through sampling and arming to the events. */
  function Serve(r: R, t: Turn): (R, bool) {
    var r1 := Waiting(Arm(Sampled(r, t)));
    match t.wait
    case WaitInterrupted => (r1, true)
    case WaitFailed => (r1, false)
    case Events(es) => (OnEvents(r1, es), true)
  }

  function Arrive(r: R, t: Turn): R {
    r.(queue := r.queue + t.arrivals, arrived := r.arrived + t.arrivals)
  }

  /** One pass of the loop, and whether the loop goes on. */
  function Pass(r0: R, t: Turn): (R, bool) {
    var r := Arrive(r0, t);
    if r.open then Serve(r, t)
    else if t.now < r.nextRetry then (r, true)
    else
      var (r1, ok) := TryConnect(r.(log := r.log + [Attempt(t.now)]), t.connect);
      if ok then Serve(r1, t) else (Discard(Fail(r1, t.now)), true)
  }

  function Loop(r: R, turns: seq<Turn>): R
    decreases |turns|
  {
    if turns == [] then r
    else
      var (r1, more) := Pass(r, turns[0]);
      if more then Loop(r1, turns[1..]) else r1
  }

  // ---------------------------------------------------------------- byte-stream conservation

  function Lines(ps: seq<Popped>): string {
    if ps == [] then []
    else Lines(ps[..|ps| - 1]) + (if ps[|ps| - 1].kept then ps[|ps| - 1].msg + "\n" else [])
  }

  function Messages(ps: seq<Popped>): (ms: seq<string>)
    ensures |ms| == |ps| && forall i :: 0 <= i < |ps| ==> ms[i] == ps[i].msg
  {
    if ps == [] then [] else Messages(ps[..|ps| - 1]) + [ps[|ps| - 1].msg]
  }

  /** Bytes: taken by the kernel plus buffered is what was appended.  Messages: popped plus
      still queued is what arrived.  The buffer holds at most 1 MiB plus one line. */
  ghost predicate Conserved(r: R, longest: nat) {
    && r.kernel + r.buf == Lines(r.popped)
    && r.arrived == Messages(r.popped) + r.queue
    && |r.buf| <= 1024 * 1024 + longest
    && forall m :: m in r.queue ==> |m| <= longest
  }

  lemma PopNext(ps: seq<Popped>, p: Popped)
    ensures Lines(ps + [p]) == Lines(ps) + (if p.kept then p.msg + "\n" else [])
    ensures Messages(ps + [p]) == Messages(ps) + [p.msg]
  {
    assert (ps + [p])[..|ps|] == ps;
  }

  lemma {:induction false} FlushConserves(r: R, sends: seq<SendResult>, at: nat, longest: nat)
    requires Conserved(r, longest)
    ensures Conserved(Flush(r, sends, at), longest)
    decreases |sends|
  {
    if r.buf != [] && r.open && sends != [] {
      match sends[0] {
        case Sent(k) =>
          var n := Taken(k, |r.buf|);
          assert r.kernel + r.buf[..n] + r.buf[n..] == r.kernel + r.buf;
          var r' := r.(buf := r.buf[n..], kernel := r.kernel + r.buf[..n], sent := r.sent + 1);
          FlushConserves(r', sends[1..], at, longest);
        case Interrupted => FlushConserves(r, sends[1..], at, longest);
        case _ =>
      }
    }
  }

  lemma {:induction false} ReceiveSame(r: R, recvs: seq<RecvResult>)
    ensures Receive(r, recvs) == r || Receive(r, recvs) == Close(r)
    decreases |recvs|
  {
    if r.open && recvs != [] && recvs[0].Data? {
      ReceiveSame(r, recvs[1..]);
    }
  }

  lemma EventConserves(r: R, ev: Event, longest: nat)
    requires Conserved(r, longest)
    ensures Conserved(OnEvent(r, ev), longest)
  {
    var r1 := if r.connecting && ev.writable
              then r.(connecting := false, backoff := 1000, nextSample := ev.at, log := r.log + [Up(ev.at)]) else r;
    ReceiveSame(r1, ev.recvs);
    var r2 := if ev.readable then Receive(r1, ev.recvs) else r1;
    FlushConserves(r2, ev.sends, ev.sendAt, longest);
  }

  lemma {:induction false} EventsConserve(r: R, events: seq<Event>, longest: nat)
    requires Conserved(r, longest)
    ensures Conserved(OnEvents(r, events), longest)
    decreases |events|
  {
    if events != [] {
      EventConserves(r, events[0], longest);
      EventsConserve(OnEvent(r, events[0]), events[1..], longest);
    }
  }

  lemma SameBytes(r: R, r': R, longest: nat)
    requires Conserved(r, longest)
    requires r'.kernel == r.kernel && r'.buf == r.buf && r'.popped == r.popped
    requires r'.arrived == r.arrived && r'.queue == r.queue
    ensures Conserved(r', longest)
  {
  }

  lemma Assoc<X>(a: seq<X>, b: seq<X>, c: seq<X>)
    ensures (a + b) + c == a + (b + c)
  {
  }

  lemma PopConserves(r: R, kept: bool, longest: nat)
    requires Conserved(r, longest) && r.queue != [] && (kept ==> |r.buf| < MAX_BUF)
    ensures Conserved(Pop(r, kept), longest)
  {
    hide Lines, Messages;
    var msg := r.queue[0];
    PopNext(r.popped, Popped(msg, kept));
    assert r.queue == [msg] + r.queue[1..];
    Assoc(Messages(r.popped), [msg], r.queue[1..]);
    Assoc(r.buf, msg, "\n");
    Assoc(r.kernel, r.buf, msg + "\n");
    assert forall m :: m in r.queue[1..] ==> m in r.queue;
  }

  lemma {:induction false} DrainConserves(r: R, budget: nat, longest: nat)
    requires Conserved(r, longest)
    ensures Conserved(Drain(r, budget), longest)
    decreases budget
  {
    hide Conserved;
    if budget > 0 && r.queue != [] {
      if |r.buf| >= MAX_BUF {
        PopConserves(r, false, longest);
      } else {
        PopConserves(r, true, longest);
        DrainConserves(Pop(r, true), budget - 1, longest);
      }
    }
  }

  lemma {:induction false} DiscardConserves(r: R, longest: nat)
    requires Conserved(r, longest)
    ensures Conserved(Discard(r), longest)
    decreases |r.queue|
  {
    hide Conserved;
    if r.queue != [] {
      PopConserves(r, false, longest);
      DiscardConserves(Pop(r, false), longest);
    }
  }

  ghost predicate Short(t: Turn, longest: nat) {
    forall m :: m in t.arrivals ==> |m| <= longest
  }

  lemma SampledConserves(r: R, t: Turn, longest: nat)
    requires Conserved(r, longest)
    ensures Conserved(Sampled(r, t), longest)
  {
    hide Conserved, Drain;
    var r0 := r.(nextSample := t.sampleNow + 50, log := r.log + [Drained(t.sampleNow)]);
    SameBytes(r, r0, longest);
    DrainConserves(r0, BUDGET, longest);
  }

  lemma ServeConserves(r: R, t: Turn, longest: nat)
    requires Conserved(r, longest)
    ensures Conserved(Serve(r, t).0, longest)
  {
    hide Conserved, Sampled;
    SampledConserves(r, t, longest);
    var r1 := Waiting(Arm(Sampled(r, t)));
    SameBytes(Sampled(r, t), r1, longest);
    if t.wait.Events? {
      EventsConserve(r1, t.wait.events, longest);
    }
  }

  lemma ArriveConserves(r: R, t: Turn, longest: nat)
    requires Conserved(r, longest) && Short(t, longest)
    ensures Conserved(Arrive(r, t), longest)
  {
    hide Lines, Messages;
    assert Messages(r.popped) + r.queue + t.arrivals == Messages(r.popped) + (r.queue + t.arrivals);
  }

  lemma PassConserves(r0: R, t: Turn, longest: nat)
    requires Conserved(r0, longest) && Short(t, longest)
    ensures Conserved(Pass(r0, t).0, longest)
  {
    hide Conserved;
    var r := Arrive(r0, t);
    ArriveConserves(r0, t, longest);
    if r.open {
      ServeConserves(r, t, longest);
    } else if t.now >= r.nextRetry {
      var (r1, ok) := TryConnect(r.(log := r.log + [Attempt(t.now)]), t.connect);
      SameBytes(r, r1, longest);
      if ok {
        ServeConserves(r1, t, longest);
      } else {
        SameBytes(r1, Fail(r1, t.now), longest);
        DiscardConserves(Fail(r1, t.now), longest);
      }
    }
  }

  /** Byte-stream conservation for every environment: the bytes the kernel took over all
      connections followed by the buffer are the newline-terminated kept messages, every
      message that arrived is kept, discarded or still queued, and the buffer is bounded. */
  lemma {:induction false} ByteStreamConserved(r: R, turns: seq<Turn>, longest: nat)
    requires Conserved(r, longest) && forall t :: t in turns ==> Short(t, longest)
    ensures Conserved(Loop(r, turns), longest)
    decreases |turns|
  {
    if turns != [] {
      PassConserves(r, turns[0], longest);
      ByteStreamConserved(Pass(r, turns[0]).0, turns[1..], longest);
    }
  }

  lemma StartConserved(longest: nat)
    ensures Conserved(START, longest)
  {
  }

  /** One drain pops at most `budget` messages, in queue order; all but possibly the last one
      are kept, and the last is discarded only because the buffer is full.  It stops early only
      for that or when the queue is empty. */
  ghost predicate DrainPopped(r: R, budget: nat, d: R, taken: seq<Popped>) {
    && |taken| <= budget && |taken| <= |r.queue|
    && d.popped == r.popped + taken && d.queue == r.queue[|taken|..]
    && (forall i :: 0 <= i < |taken| ==> taken[i].msg == r.queue[i])
    && (forall i :: 0 <= i < |taken| ==> taken[i].kept || i == |taken| - 1)
    && (taken != [] && !taken[|taken| - 1].kept ==> |d.buf| >= 1024 * 1024)
    && (|taken| == budget || d.queue == [] || (taken != [] && !taken[|taken| - 1].kept))
  }

  lemma DrainMore(r: R, budget: nat, d: R, rest: seq<Popped>)
    requires r.queue != [] && budget > 0 && DrainPopped(Pop(r, true), budget - 1, d, rest)
    ensures DrainPopped(r, budget, d, [Popped(r.queue[0], true)] + rest)
  {
    var taken := [Popped(r.queue[0], true)] + rest;
    assert r.popped + [Popped(r.queue[0], true)] + rest == r.popped + taken;
    assert rest != [] ==> taken[|taken| - 1] == rest[|rest| - 1];
    forall i | 0 <= i < |taken|
      ensures taken[i].msg == r.queue[i]
      ensures taken[i].kept || i == |taken| - 1
    {
      if i > 0 {
        assert rest[i - 1].msg == Pop(r, true).queue[i - 1];
      }
    }
  }

  lemma {:induction false} DrainPops(r: R, budget: nat) returns (taken: seq<Popped>)
    ensures DrainPopped(r, budget, Drain(r, budget), taken)
    decreases budget
  {
    if budget == 0 || r.queue == [] {
      taken := [];
    } else if |r.buf| >= MAX_BUF {
      taken := [Popped(r.queue[0], false)];
    } else {
      hide DrainPopped;
      var rest := DrainPops(Pop(r, true), budget - 1);
      DrainMore(r, budget, Drain(r, budget), rest);
      taken := [Popped(r.queue[0], true)] + rest;
    }
  }

  // ---------------------------------------------------------------- EPOLLOUT interest

  /** While events are handled: the mask agrees with want, want has a reason, and a closed
      socket wants nothing. */
  ghost predicate Interest(r: R) {
    && (r.open ==> r.out == r.want)
    && (r.connecting ==> r.open && r.want)
    && (r.want ==> r.open && (r.connecting || r.buf != []))
  }

  /** Between passes a failed registration may leave connecting set on a closed socket. */
  ghost predicate Rest(r: R) {
    if r.open then Interest(r) else !r.want
  }

  ghost predicate Exact(l: Look) {
    l.open && (l.out <==> l.want) && (l.want <==> l.connecting || l.buffered)
  }

  ghost predicate LooksExact(r: R) {
    forall i :: 0 <= i < |r.looks| ==> Exact(r.looks[i])
  }

  lemma {:induction false} FlushInterest(r: R, sends: seq<SendResult>, at: nat)
    requires !r.connecting && (r.open ==> r.out == r.want) && (!r.open ==> !r.want)
    ensures Interest(Flush(r, sends, at)) && Flush(r, sends, at).looks == r.looks
    decreases |sends|
  {
    if r.buf != [] && r.open && sends != [] {
      match sends[0] {
        case Sent(k) =>
          var n := Taken(k, |r.buf|);
          FlushInterest(r.(buf := r.buf[n..], kernel := r.kernel + r.buf[..n], sent := r.sent + 1), sends[1..], at);
        case Interrupted => FlushInterest(r, sends[1..], at);
        case _ =>
      }
    }
  }

  lemma EventInterest(r: R, ev: Event)
    requires Interest(r)
    ensures Interest(OnEvent(r, ev)) && OnEvent(r, ev).looks == r.looks
  {
    if !ev.lost && !(r.connecting && ev.writable && ev.soError) {
      var r1 := if r.connecting && ev.writable
                then r.(connecting := false, backoff := 1000, nextSample := ev.at, log := r.log + [Up(ev.at)]) else r;
      ReceiveSame(r1, ev.recvs);
      var r2 := if ev.readable then Receive(r1, ev.recvs) else r1;
      if ev.writable && !r2.connecting {
        FlushInterest(r2, ev.sends, ev.sendAt);
      }
    }
  }

  lemma {:induction false} EventsInterest(r: R, events: seq<Event>)
    requires Interest(r)
    ensures Interest(OnEvents(r, events)) && OnEvents(r, events).looks == r.looks
    decreases |events|
  {
    if events != [] {
      EventInterest(r, events[0]);
      EventsInterest(OnEvent(r, events[0]), events[1..]);
    }
  }

  lemma {:induction false} DrainInterest(r: R, budget: nat)
    ensures var d := Drain(r, budget);
      && d.open == r.open && d.connecting == r.connecting && d.want == r.want && d.out == r.out && d.looks == r.looks
      && d.log == r.log && d.nextRetry == r.nextRetry && d.backoff == r.backoff && d.reconnects == r.reconnects
      && d.nextSample == r.nextSample
      && (r.buf != [] ==> d.buf != [])
    decreases budget
  {
    if budget > 0 && r.queue != [] && |r.buf| < MAX_BUF {
      DrainInterest(Pop(r, true), budget - 1);
    }
  }

  lemma {:induction false} DiscardInterest(r: R)
    ensures var d := Discard(r);
      && d.open == r.open && d.want == r.want && d.looks == r.looks
      && d.log == r.log && d.nextRetry == r.nextRetry && d.backoff == r.backoff && d.reconnects == r.reconnects
      && d.nextSample == r.nextSample
    decreases |r.queue|
  {
    if r.queue != [] {
      DiscardInterest(Pop(r, false));
    }
  }

  lemma SampledInterest(r: R, t: Turn)
    requires r.open && Interest(r) && LooksExact(r)
    ensures var s := Sampled(r, t); s.open && Interest(s) && s.looks == r.looks
  {
    hide Drain;
    DrainInterest(r.(nextSample := t.sampleNow + 50, log := r.log + [Drained(t.sampleNow)]), BUDGET);
  }

  lemma ArmedInterest(r: R)
    requires r.open && Interest(r) && LooksExact(r)
    ensures Interest(Waiting(Arm(r))) && LooksExact(Waiting(Arm(r)))
  {
  }

  lemma ServeInterest(r: R, t: Turn)
    requires r.open && Interest(r) && LooksExact(r)
    ensures Interest(Serve(r, t).0) && LooksExact(Serve(r, t).0)
  {
    hide Interest, Sampled, Arm, Waiting;
    SampledInterest(r, t);
    ArmedInterest(Sampled(r, t));
    if t.wait.Events? {
      EventsInterest(Waiting(Arm(Sampled(r, t))), t.wait.events);
    }
  }

  lemma PassInterest(r0: R, t: Turn)
    requires Rest(r0) && LooksExact(r0)
    ensures Rest(Pass(r0, t).0) && LooksExact(Pass(r0, t).0)
  {
    var r := Arrive(r0, t);
    if r.open {
      ServeInterest(r, t);
    } else if t.now >= r.nextRetry {
      var (r1, ok) := TryConnect(r.(log := r.log + [Attempt(t.now)]), t.connect);
      if ok {
        ServeInterest(r1, t);
      } else {
        DiscardInterest(Fail(r1, t.now));
      }
    }
  }

  /** EPOLLOUT interest is exact at every epoll_wait: the socket is open, the mask contains
      EPOLLOUT iff want_write_, and want_write_ iff connecting or something is buffered. */
  lemma {:induction false} InterestExact(r: R, turns: seq<Turn>)
    requires Rest(r) && LooksExact(r)
    ensures Rest(Loop(r, turns)) && LooksExact(Loop(r, turns))
    decreases |turns|
  {
    if turns != [] {
      PassInterest(r, turns[0]);
      InterestExact(Pass(r, turns[0]).0, turns[1..]);
    }
  }

  // ---------------------------------------------------------------- the backoff law

  /** Failures since the last completed asynchronous connect. */
  function Streak(log: seq<Mark>): nat {
    if log == [] then 0
    else match log[|log| - 1]
      case Up(_) => 0
      case Failure(_, _) => Streak(log[..|log| - 1]) + 1
      case _ => Streak(log[..|log| - 1])
  }

  function Failures(log: seq<Mark>): nat {
    if log == [] then 0 else Failures(log[..|log| - 1]) + (if log[|log| - 1].Failure? then 1 else 0)
  }

  /** The end of the wait imposed by the last failure. */
  function Deadline(log: seq<Mark>): nat {
    if log == [] then 0
    else match log[|log| - 1]
      case Failure(at, wait) => at + wait
      case _ => Deadline(log[..|log| - 1])
  }

  /** When the queue may be drained again: 50 ms after the last drain, at once after a
      completed asynchronous connect. */
  function NextDrain(log: seq<Mark>): nat {
    if log == [] then 0
    else match log[|log| - 1]
      case Up(at) => at
      case Drained(at) => at + 50
      case _ => NextDrain(log[..|log| - 1])
  }

  /** 1000 * 2^k milliseconds, at most 30000. */
  function BackoffAfter(k: nat): nat { Min(1000 * Pow2(k), 30000) }

  /** Every failure imposes the wait of its streak, no attempt comes before the deadline, and
      no drain before its time. */
  ghost predicate LawOk(log: seq<Mark>) {
    forall i :: 0 <= i < |log| ==>
      && (log[i].Failure? ==> log[i].wait == BackoffAfter(Streak(log[..i])))
      && (log[i].Attempt? ==> log[i].at >= Deadline(log[..i]))
      && (log[i].Drained? ==> log[i].at >= NextDrain(log[..i]))
  }

  ghost predicate Paced(r: R) {
    && r.backoff == BackoffAfter(Streak(r.log))
    && r.nextRetry == Deadline(r.log)
    && r.nextSample == NextDrain(r.log)
    && r.reconnects == Failures(r.log)
    && LawOk(r.log)
  }

  lemma LogNext(log: seq<Mark>, m: Mark)
    requires LawOk(log)
    requires m.Failure? ==> m.wait == BackoffAfter(Streak(log))
    requires m.Attempt? ==> m.at >= Deadline(log)
    requires m.Drained? ==> m.at >= NextDrain(log)
    ensures LawOk(log + [m])
    ensures Streak(log + [m]) == if m.Up? then 0 else Streak(log) + (if m.Failure? then 1 else 0)
    ensures NextDrain(log + [m]) == if m.Up? then m.at else if m.Drained? then m.at + 50 else NextDrain(log)
    ensures Deadline(log + [m]) == if m.Failure? then m.at + m.wait else Deadline(log)
    ensures Failures(log + [m]) == Failures(log) + (if m.Failure? then 1 else 0)
  {
    var log' := log + [m];
    assert log'[..|log|] == log;
    forall i | 0 <= i < |log'|
      ensures log'[i].Failure? ==> log'[i].wait == BackoffAfter(Streak(log'[..i]))
      ensures log'[i].Attempt? ==> log'[i].at >= Deadline(log'[..i])
      ensures log'[i].Drained? ==> log'[i].at >= NextDrain(log'[..i])
    {
      assert i < |log| ==> log'[..i] == log[..i];
    }
  }

  lemma FailPaced(r: R, at: nat)
    requires Paced(r)
    ensures Paced(Fail(r, at))
  {
    LogNext(r.log, Failure(at, r.backoff));
    assert Pow2(Streak(r.log) + 1) == 2 * Pow2(Streak(r.log));
  }

  lemma SamePace(r: R, r': R)
    requires Paced(r) && r'.log == r.log && r'.backoff == r.backoff && r'.nextRetry == r.nextRetry
    requires r'.reconnects == r.reconnects && r'.nextSample == r.nextSample
    ensures Paced(r')
  {
  }

  lemma CloseFailPaced(r: R, at: nat)
    requires Paced(r)
    ensures Paced(Fail(Close(r), at))
  {
    SamePace(r, Close(r));
    FailPaced(Close(r), at);
  }

  lemma {:induction false} FlushPaced(r: R, sends: seq<SendResult>, at: nat)
    requires Paced(r)
    ensures Paced(Flush(r, sends, at))
    decreases |sends|
  {
    hide Paced;
    if r.buf != [] {
      CloseFailPaced(r, at);
      if r.open && sends != [] {
        match sends[0] {
          case Sent(k) =>
            var n := Taken(k, |r.buf|);
            var r' := r.(buf := r.buf[n..], kernel := r.kernel + r.buf[..n], sent := r.sent + 1);
            SamePace(r, r');
            FlushPaced(r', sends[1..], at);
          case Interrupted => FlushPaced(r, sends[1..], at);
          case _ =>
        }
      }
    } else {
      SamePace(r, Flush(r, sends, at));
    }
  }

  lemma EventPaced(r: R, ev: Event)
    requires Paced(r)
    ensures Paced(OnEvent(r, ev))
  {
    if ev.lost || (r.connecting && ev.writable && ev.soError) {
      CloseFailPaced(r, ev.at);
    } else {
      var r1 := if r.connecting && ev.writable
                then r.(connecting := false, backoff := 1000, nextSample := ev.at, log := r.log + [Up(ev.at)]) else r;
      LogNext(r.log, Up(ev.at));
      assert Paced(r1) by { assert Pow2(0) == 1; }
      ReceiveSame(r1, ev.recvs);
      SamePace(r1, Close(r1));
      var r2 := if ev.readable then Receive(r1, ev.recvs) else r1;
      FlushPaced(r2, ev.sends, ev.sendAt);
    }
  }

  lemma {:induction false} EventsPaced(r: R, events: seq<Event>)
    requires Paced(r)
    ensures Paced(OnEvents(r, events))
    decreases |events|
  {
    hide Paced;
    if events != [] {
      EventPaced(r, events[0]);
      EventsPaced(OnEvent(r, events[0]), events[1..]);
    }
  }

  lemma SampledPaced(r: R, t: Turn)
    requires Paced(r)
    ensures Paced(Sampled(r, t))
  {
    hide Drain;
    if t.sampleNow >= r.nextSample {
      LogNext(r.log, Drained(t.sampleNow));
      var r0 := r.(nextSample := t.sampleNow + 50, log := r.log + [Drained(t.sampleNow)]);
      DrainInterest(r0, BUDGET);
      SamePace(r0, Drain(r0, BUDGET));
    }
  }

  lemma ServePaced(r: R, t: Turn)
    requires Paced(r)
    ensures Paced(Serve(r, t).0)
  {
    hide Paced, Sampled;
    SampledPaced(r, t);
    var r1 := Waiting(Arm(Sampled(r, t)));
    SamePace(Sampled(r, t), r1);
    if t.wait.Events? {
      EventsPaced(r1, t.wait.events);
    }
  }

  lemma AttemptPaced(r: R, at: nat)
    requires Paced(r) && at >= r.nextRetry
    ensures Paced(r.(log := r.log + [Attempt(at)]))
  {
    LogNext(r.log, Attempt(at));
  }

  lemma PassPaced(r0: R, t: Turn)
    requires Paced(r0)
    ensures Paced(Pass(r0, t).0)
  {
    hide Paced;
    var r := Arrive(r0, t);
    SamePace(r0, r);
    if r.open {
      ServePaced(r, t);
    } else if t.now >= r.nextRetry {
      AttemptPaced(r, t.now);
      var ra := r.(log := r.log + [Attempt(t.now)]);
      var (r1, ok) := TryConnect(ra, t.connect);
      SamePace(ra, r1);
      if ok {
        ServePaced(r1, t);
      } else {
        FailPaced(r1, t.now);
        DiscardInterest(Fail(r1, t.now));
        SamePace(Fail(r1, t.now), Discard(Fail(r1, t.now)));
      }
    }
  }

  /** The backoff law for every environment: backoff_ms is 1000 * 2^k capped at 30000, k the
      counted failures since the last completed asynchronous connect; every failure imposes the
      value before doubling, no attempt is made before that wait is over, and drains keep to
      their 50 ms pace. */
  lemma {:induction false} BackoffLaw(r: R, turns: seq<Turn>)
    requires Paced(r)
    ensures Paced(Loop(r, turns))
    decreases |turns|
  {
    hide Paced;
    if turns != [] {
      PassPaced(r, turns[0]);
      BackoffLaw(Pass(r, turns[0]).0, turns[1..]);
    }
  }

  lemma {:induction false} DeadlineStays(log: seq<Mark>, i: nat, j: nat)
    requires i < j <= |log| && log[i].Failure?
    requires forall k :: i < k < j ==> !log[k].Failure?
    ensures Deadline(log[..j]) == log[i].at + log[i].wait
    decreases j
  {
    assert log[..j][..j - 1] == log[..j - 1];
    if j > i + 1 {
      DeadlineStays(log, i, j - 1);
    }
  }

  /** After a counted failure the next attempt waits out the backoff it imposed. */
  lemma NoEarlyAttempt(log: seq<Mark>, i: nat, j: nat)
    requires LawOk(log) && i < j < |log| && log[i].Failure? && log[j].Attempt?
    requires forall k :: i < k < j ==> !log[k].Failure?
    ensures log[j].at >= log[i].at + log[i].wait && log[i].wait == BackoffAfter(Streak(log[..i]))
  {
    DeadlineStays(log, i, j);
  }

  lemma {:induction false} NextDrainStays(log: seq<Mark>, i: nat, j: nat)
    requires i < j <= |log| && log[i].Drained?
    requires forall k :: i < k < j ==> !log[k].Drained? && !log[k].Up?
    ensures NextDrain(log[..j]) == log[i].at + 50
    decreases j
  {
    assert log[..j][..j - 1] == log[..j - 1];
    if j > i + 1 {
      NextDrainStays(log, i, j - 1);
    }
  }

  /** Sampling law: two drains with no completed asynchronous connect between them are at
      least 50 ms apart. */
  lemma DrainsApart(log: seq<Mark>, i: nat, j: nat)
    requires LawOk(log) && i < j < |log| && log[i].Drained? && log[j].Drained?
    requires forall k :: i < k < j ==> !log[k].Drained? && !log[k].Up?
    ensures log[j].at >= log[i].at + 50
  {
    NextDrainStays(log, i, j);
  }

  /** A freshly constructed reporter, whatever happens to it. */
  lemma ReporterIsSound(turns: seq<Turn>, longest: nat)
    requires forall t :: t in turns ==> Short(t, longest)
    ensures var r := Loop(START, turns);
      && r.kernel + r.buf == Lines(r.popped) && r.arrived == Messages(r.popped) + r.queue
      && |r.buf| <= 1024 * 1024 + longest
      && (forall i :: 0 <= i < |r.looks| ==> Exact(r.looks[i]))
      && r.backoff == BackoffAfter(Streak(r.log)) && LawOk(r.log) && r.reconnects == Failures(r.log)
  {
    StartConserved(longest);
    ByteStreamConserved(START, turns, longest);
    InterestExact(START, turns);
    assert Paced(START) by { assert Pow2(0) == 1; }
    BackoffLaw(START, turns);
  }

  // ---------------------------------------------------------------- the queue during the backoff

  /** The attempt leads to an open socket, at once or in progress. */
  predicate Connects(c: ConnectResult) { c.Connected? || c.InProgress? }

  function Thrown(ms: seq<string>): (ps: seq<Popped>)
    ensures |ps| == |ms|
  {
    seq(|ms|, i requires 0 <= i < |ms| => Popped(ms[i], false))
  }

  lemma {:induction false} DiscardAll(r: R)
    ensures Discard(r) == r.(queue := [], popped := r.popped + Thrown(r.queue))
    decreases |r.queue|
  {
    if r.queue != [] {
      DiscardAll(Pop(r, false));
      assert Thrown(r.queue) == [Popped(r.queue[0], false)] + Thrown(r.queue[1..]);
      assert (r.popped + [Popped(r.queue[0], false)]) + Thrown(r.queue[1..]) == r.popped + Thrown(r.queue);
    } else {
      assert r.popped + Thrown(r.queue) == r.popped;
    }
  }

  lemma {:induction false} FlushKeepsQueue(r: R, sends: seq<SendResult>, at: nat)
    ensures Flush(r, sends, at).popped == r.popped
    decreases |sends|
  {
    if r.buf != [] && r.open && sends != [] {
      match sends[0] {
        case Sent(k) =>
          var n := Taken(k, |r.buf|);
          FlushKeepsQueue(r.(buf := r.buf[n..], kernel := r.kernel + r.buf[..n], sent := r.sent + 1), sends[1..], at);
        case Interrupted => FlushKeepsQueue(r, sends[1..], at);
        case _ =>
      }
    }
  }

  lemma EventKeepsQueue(r: R, ev: Event)
    ensures OnEvent(r, ev).popped == r.popped
  {
    hide Flush, Receive;
    var r1 := if r.connecting && ev.writable
              then r.(connecting := false, backoff := 1000, nextSample := ev.at, log := r.log + [Up(ev.at)]) else r;
    ReceiveSame(r1, ev.recvs);
    var r2 := if ev.readable then Receive(r1, ev.recvs) else r1;
    FlushKeepsQueue(r2, ev.sends, ev.sendAt);
  }

  lemma {:induction false} EventsKeepQueue(r: R, events: seq<Event>)
    ensures OnEvents(r, events).popped == r.popped
    decreases |events|
  {
    hide OnEvent;
    if events != [] {
      EventKeepsQueue(r, events[0]);
      EventsKeepQueue(OnEvent(r, events[0]), events[1..]);
    }
  }

  lemma ServePops(r: R, t: Turn)
    requires r.queue != []
    ensures Serve(r, t).0.popped != r.popped <==> t.sampleNow >= r.nextSample
  {
    hide Drain;
    if t.wait.Events? {
      EventsKeepQueue(Waiting(Arm(Sampled(r, t))), t.wait.events);
    }
    if t.sampleNow >= r.nextSample {
      var taken := DrainPops(r.(nextSample := t.sampleNow + 50, log := r.log + [Drained(t.sampleNow)]), BUDGET);
      assert r.queue[0..] == r.queue;
      assert |r.popped + taken| > |r.popped|;
    }
  }

  /** A pass without a connection.  It takes messages from a non-empty queue exactly if the
      backoff is over and the attempt fails, in which case they are all thrown away, or
      succeeds at a time to sample.  During the backoff it only lets them pile up. */
  lemma ClosedPass(r: R, t: Turn)
    requires !r.open
    ensures t.now < r.nextRetry ==> Pass(r, t).0 == Arrive(r, t)
    ensures t.now >= r.nextRetry && !Connects(t.connect) ==>
      Pass(r, t).0.queue == [] && Pass(r, t).0.popped == r.popped + Thrown(r.queue + t.arrivals)
    ensures r.queue + t.arrivals != [] ==>
      (Pass(r, t).0.popped != r.popped
       <==> t.now >= r.nextRetry && (!Connects(t.connect) || t.sampleNow >= r.nextSample))
  {
    hide Discard, Serve;
    var a := Arrive(r, t);
    var (r1, ok) := TryConnect(a.(log := a.log + [Attempt(t.now)]), t.connect);
    if t.now >= r.nextRetry {
      if ok {
        if r1.queue != [] {
          ServePops(r1, t);
        }
      } else {
        DiscardAll(Fail(r1, t.now));
        assert |r.popped + Thrown(r.queue + t.arrivals)| > |r.popped| || r.queue + t.arrivals == [];
      }
    }
  }

  function Arrivals(turns: seq<Turn>): seq<string> {
    if turns == [] then [] else turns[0].arrivals + Arrivals(turns[1..])
  }

  lemma {:induction false} NoArrivals(turns: seq<Turn>)
    ensures Arrivals(turns) == [] <==> forall t :: t in turns ==> t.arrivals == []
  {
    if turns != [] {
      NoArrivals(turns[1..]);
      assert forall t :: t in turns <==> t == turns[0] || t in turns[1..];
    }
  }

  function WithArrivals(r: R, ms: seq<string>): R {
    r.(queue := r.queue + ms, arrived := r.arrived + ms)
  }

  lemma WaitingLoop(r: R, turns: seq<Turn>)
    requires !r.open && turns != [] && turns[0].now < r.nextRetry
    ensures Loop(r, turns) == Loop(WithArrivals(r, turns[0].arrivals), turns[1..])
  {
  }

  lemma ArrivalsTwice(r: R, first: seq<string>, more: seq<string>)
    ensures WithArrivals(WithArrivals(r, first), more) == WithArrivals(r, first + more)
  {
    Assoc(r.queue, first, more);
    Assoc(r.arrived, first, more);
  }

  lemma ArrivalsNone(r: R)
    ensures WithArrivals(r, []) == r
  {
  }

  /** README.md:231 promises that the queue is emptied during the backoff.  It is empty after
      any stretch of the backoff if and only if it was empty and nothing arrived: nothing is
      taken from it. */
  lemma {:induction false} BackoffKeepsQueue(r: R, turns: seq<Turn>)
    requires !r.open && forall t :: t in turns ==> t.now < r.nextRetry
    ensures Loop(r, turns) == r.(queue := r.queue + Arrivals(turns), arrived := r.arrived + Arrivals(turns))
    ensures Loop(r, turns).queue == [] <==> r.queue == [] && forall t :: t in turns ==> t.arrivals == []
    decreases |turns|
  {
    hide Pass;
    NoArrivals(turns);
    if turns == [] {
      ArrivalsNone(r);
    } else {
      hide Loop;
      WaitingLoop(r, turns);
      BackoffKeepsQueue(WithArrivals(r, turns[0].arrivals), turns[1..]);
      ArrivalsTwice(r, turns[0].arrivals, Arrivals(turns[1..]));
    }
  }

  /** An instance: a refused connect at 0, a message at 500. */
  lemma QueueFills(m: string)
    ensures var turns := [Turn(0, [], Refused, 0, WaitInterrupted), Turn(500, [m], Refused, 0, WaitInterrupted)];
      Loop(START, turns).queue == [m]
  {
    var t0, t1 := Turn(0, [], Refused, 0, WaitInterrupted), Turn(500, [m], Refused, 0, WaitInterrupted);
    assert [t0, t1][1..] == [t1];
    ClosedPass(START, t0);
    DiscardAll(Fail(Arrive(START, t0).(log := [Attempt(0)]), 0));
    var r := Pass(START, t0).0;
    BackoffKeepsQueue(r, [t1]);
    assert Arrivals([t1][1..]) == [] && r.queue == [];
    assert Arrivals([t1]) == [m];
  }

  // ---------------------------------------------------------------- closing without a failure

  /** The recv loop ends with a recv that closes. */
  predicate Closes(recvs: seq<RecvResult>) {
    exists i :: 0 <= i < |recvs| && recvs[i].Closing? && forall j :: 0 <= j < i ==> recvs[j].Data?
  }

  lemma {:induction false} ReceiveCloses(r: R, recvs: seq<RecvResult>)
    requires r.open
    ensures !Receive(r, recvs).open <==> Closes(recvs)
    decreases |recvs|
  {
    if recvs != [] && recvs[0].Data? {
      ReceiveCloses(r, recvs[1..]);
      if Closes(recvs) {
        var i :| 0 <= i < |recvs| && recvs[i].Closing? && forall j :: 0 <= j < i ==> recvs[j].Data?;
        assert recvs[1..][i - 1].Closing? && forall j :: 0 <= j < i - 1 ==> recvs[1..][j].Data?;
      }
      if Closes(recvs[1..]) {
        var i :| 0 <= i < |recvs[1..]| && recvs[1..][i].Closing? && forall j :: 0 <= j < i ==> recvs[1..][j].Data?;
        assert recvs[i + 1].Closing?;
        forall j | 0 <= j < i + 1
          ensures recvs[j].Data?
        {
          assert j > 0 ==> recvs[j] == recvs[1..][j - 1];
        }
      }
    }
  }

  lemma {:induction false} FlushCounts(r: R, sends: seq<SendResult>, at: nat)
    ensures var f := Flush(r, sends, at);
      && (f.open ==> r.open && f.reconnects == r.reconnects)
      && (!f.open && r.open ==> f.reconnects == r.reconnects + 1 && f.nextRetry == at + r.backoff)
      && (!r.open ==> f.reconnects == r.reconnects + (if r.buf != [] then 1 else 0))
      && (!r.open && r.buf == [] ==> f.nextRetry == r.nextRetry)
      && (!r.open && r.buf != [] ==> f.nextRetry == at + r.backoff)
    decreases |sends|
  {
    if r.buf != [] && r.open && sends != [] {
      match sends[0] {
        case Sent(k) =>
          var n := Taken(k, |r.buf|);
          FlushCounts(r.(buf := r.buf[n..], kernel := r.kernel + r.buf[..n], sent := r.sent + 1), sends[1..], at);
        case Interrupted => FlushCounts(r, sends[1..], at);
        case _ =>
      }
    }
  }

  /** Not every closed connection is a counted failure.  An event closes the socket uncounted,
      and then without a retry deadline, exactly if it is no error, its recv loop closes, and
      the closed descriptor is not written to at once: the event is not writable or nothing is
      buffered.  Every other close counts one failure. */
  lemma UncountedClose(r: R, ev: Event)
    requires r.open
    ensures var r' := OnEvent(r, ev);
      (!r'.open && r'.reconnects == r.reconnects)
      <==> !ev.lost && !(r.connecting && ev.writable && ev.soError) && ev.readable && Closes(ev.recvs)
           && !(ev.writable && r.buf != [])
    ensures var r' := OnEvent(r, ev);
      !r'.open ==>
        if r'.reconnects == r.reconnects then r'.nextRetry == r.nextRetry else r'.reconnects == r.reconnects + 1
  {
    hide Flush, Receive, Closes;
    if !ev.lost && !(r.connecting && ev.writable && ev.soError) {
      var r1 := if r.connecting && ev.writable
                then r.(connecting := false, backoff := 1000, nextSample := ev.at, log := r.log + [Up(ev.at)]) else r;
      ReceiveSame(r1, ev.recvs);
      ReceiveCloses(r1, ev.recvs);
      var r2 := if ev.readable then Receive(r1, ev.recvs) else r1;
      FlushCounts(r2, ev.sends, ev.sendAt);
    }
  }

  /** An instance: connected at once, and the peer closes. */
  lemma PeerClosesUncounted()
    ensures var ev := Event(false, true, false, false, [Closing], [], 0, 0);
      var r := Loop(START, [Turn(0, [], Connected, 0, Events([ev]))]);
      !r.open && r.reconnects == 0 && r.nextRetry == 0
  {
    var ev := Event(false, true, false, false, [Closing], [], 0, 0);
    var t := Turn(0, [], Connected, 0, Events([ev]));
    var r1 := START.(open := true, log := [Attempt(0)]);
    var r0 := r1.(nextSample := 50, log := [Attempt(0), Drained(0)]);
    assert Arrive(START, t) == START;
    DrainNone(r0, BUDGET);
    hide Drain;
    assert r1.log + [Drained(0)] == r0.log;
    assert Sampled(r1, t) == r0;
    var r2 := Waiting(r0);
    assert Arm(r0) == r0;
    assert ev.recvs[0].Closing?;
    UncountedClose(r2, ev);
    hide OnEvent;
    assert [ev][1..] == [];
    assert OnEvents(r2, [ev]) == OnEvent(r2, ev);
    assert Serve(r1, t) == (OnEvent(r2, ev), true);
    assert START.log + [Attempt(0)] == [Attempt(0)];
    assert TryConnect(START.(log := START.log + [Attempt(0)]), Connected) == (r1, true);
    hide Serve;
    assert Pass(START, t) == Serve(r1, t);
    assert [t][1..] == [];
    assert Loop(START, [t]) == OnEvent(r2, ev);
  }

  // ---------------------------------------------------------------- connects that succeed at once

  /** No asynchronous connect has ever completed, and none is under way. */
  ghost predicate NeverUp(r: R) {
    (r.open ==> !r.connecting) && Streak(r.log) == Failures(r.log)
  }

  lemma MarkNext(log: seq<Mark>, m: Mark)
    requires Streak(log) == Failures(log) && !m.Up?
    ensures Streak(log + [m]) == Failures(log + [m])
  {
    assert (log + [m])[..|log|] == log;
  }

  lemma {:induction false} FlushNeverUp(r: R, sends: seq<SendResult>, at: nat)
    requires NeverUp(r)
    ensures NeverUp(Flush(r, sends, at))
    decreases |sends|
  {
    hide Streak, Failures;
    MarkNext(r.log, Failure(at, r.backoff));
    if r.buf != [] && r.open && sends != [] {
      match sends[0] {
        case Sent(k) =>
          var n := Taken(k, |r.buf|);
          FlushNeverUp(r.(buf := r.buf[n..], kernel := r.kernel + r.buf[..n], sent := r.sent + 1), sends[1..], at);
        case Interrupted => FlushNeverUp(r, sends[1..], at);
        case _ =>
      }
    }
  }

  lemma {:induction false} FlushConnected(r: R, sends: seq<SendResult>, at: nat)
    requires !r.connecting
    ensures !Flush(r, sends, at).connecting
    decreases |sends|
  {
    if r.buf != [] && r.open && sends != [] {
      match sends[0] {
        case Sent(k) =>
          var n := Taken(k, |r.buf|);
          FlushConnected(r.(buf := r.buf[n..], kernel := r.kernel + r.buf[..n], sent := r.sent + 1), sends[1..], at);
        case Interrupted => FlushConnected(r, sends[1..], at);
        case _ =>
      }
    }
  }

  /** An open socket that is connected meets an event, or a closed one the rest of a batch. */
  lemma EventNeverUp(r: R, ev: Event)
    requires NeverUp(r) && !r.connecting
    ensures NeverUp(OnEvent(r, ev)) && !OnEvent(r, ev).connecting
  {
    hide Flush, Receive, Streak, Failures;
    if ev.lost {
      MarkNext(r.log, Failure(ev.at, r.backoff));
    } else {
      ReceiveSame(r, ev.recvs);
      var r2 := if ev.readable then Receive(r, ev.recvs) else r;
      FlushNeverUp(r2, ev.sends, ev.sendAt);
      FlushConnected(r2, ev.sends, ev.sendAt);
    }
  }

  lemma {:induction false} EventsNeverUp(r: R, events: seq<Event>)
    requires NeverUp(r) && !r.connecting
    ensures NeverUp(OnEvents(r, events))
    decreases |events|
  {
    hide NeverUp, OnEvent;
    if events != [] {
      EventNeverUp(r, events[0]);
      EventsNeverUp(OnEvent(r, events[0]), events[1..]);
    }
  }

  lemma ServeNeverUp(r: R, t: Turn)
    requires NeverUp(r) && !r.connecting
    ensures NeverUp(Serve(r, t).0)
  {
    hide Drain, Streak, Failures;
    MarkNext(r.log, Drained(t.sampleNow));
    DrainInterest(r.(nextSample := t.sampleNow + 50, log := r.log + [Drained(t.sampleNow)]), BUDGET);
    if t.wait.Events? {
      EventsNeverUp(Waiting(Arm(Sampled(r, t))), t.wait.events);
    }
  }

  lemma PassNeverUp(r: R, t: Turn)
    requires NeverUp(r) && !t.connect.InProgress?
    ensures NeverUp(Pass(r, t).0)
  {
    hide Serve, Discard, Streak, Failures;
    var a := Arrive(r, t);
    if r.open {
      ServeNeverUp(a, t);
    } else if t.now >= r.nextRetry {
      MarkNext(a.log, Attempt(t.now));
      var (r1, ok) := TryConnect(a.(log := a.log + [Attempt(t.now)]), t.connect);
      if ok {
        ServeNeverUp(r1, t);
      } else {
        MarkNext(r1.log, Failure(t.now, r1.backoff));
        DiscardInterest(Fail(r1, t.now));
      }
    }
  }

  lemma {:induction false} LoopNeverUp(r: R, turns: seq<Turn>)
    requires NeverUp(r) && forall t :: t in turns ==> !t.connect.InProgress?
    ensures NeverUp(Loop(r, turns))
    decreases |turns|
  {
    hide NeverUp, Pass;
    if turns != [] {
      PassNeverUp(r, turns[0]);
      LoopNeverUp(Pass(r, turns[0]).0, turns[1..]);
    }
  }

  /** Connecting does not reset the backoff as such.  As long as every connect that succeeds
      does so at once, the backoff is that of all failures ever counted, however many
      connections were made in between. */
  lemma OnlyAsynchronousResets(turns: seq<Turn>)
    requires forall t :: t in turns ==> !t.connect.InProgress?
    ensures var r := Loop(START, turns);
      r.backoff == BackoffAfter(r.reconnects) && (r.backoff == 1000 <==> r.reconnects == 0)
  {
    LoopNeverUp(START, turns);
    Pow2Monotone(0, Loop(START, turns).reconnects);
    assert Paced(START) by { assert Pow2(0) == 1; }
    BackoffLaw(START, turns);
  }

  /** An instance: refused at 0, connected at once at 1000, and the next failure still waits
      for 2000 ms. */
  lemma ConnectedKeepsBackoff()
    ensures var turns := [Turn(0, [], Refused, 0, WaitInterrupted), Turn(1000, [], Connected, 0, WaitInterrupted)];
      var r := Loop(START, turns);
      r.open && !r.connecting && r.backoff == 2000
  {
    var t0, t1 := Turn(0, [], Refused, 0, WaitInterrupted), Turn(1000, [], Connected, 0, WaitInterrupted);
    assert [t0, t1][1..] == [t1];
    DiscardAll(Fail(Arrive(START, t0).(log := [Attempt(0)]), 0));
    var r := Pass(START, t0).0;
    assert !r.open && r.nextRetry == 1000 && r.backoff == 2000 && r.queue == [];
    assert [t1][1..] == [];
  }
}
