/** The reporter's code: one object whose methods update its fields in place.  Each method is
    proved to do what the function of the same name in ReporterSpec describes, so everything
    proved there holds of this code. */
module EpollReporter {
  import opened ReporterSpec
  import opened ReporterLaws

  class EpollReporter {
    var sockOpen: bool      // sock_fd_ >= 0
    var connecting: bool
    var wantWrite: bool
    var outMask: bool       // EPOLLOUT is in the registered event mask
    var sendBuf: string
    var nextRetry: nat
    var nextSample: nat
    var backoffMs: nat
    var sent: nat
    var reconnects: nat
    var queue: seq<string>
    ghost var arrived: seq<string>
    ghost var popped: seq<Popped>
    ghost var kernel: string
    ghost var log: seq<Mark>
    ghost var looks: seq<Look>

    ghost function View(): R
      reads this
    {
      R(sockOpen, connecting, wantWrite, outMask, sendBuf, nextRetry, nextSample, backoffMs, sent, reconnects, queue,
        arrived, popped, kernel, log, looks)
    }

    constructor ()
      ensures View() == START
    {
      sockOpen, connecting, wantWrite, outMask, sendBuf := false, false, false, false, [];
      nextRetry, nextSample, backoffMs, sent, reconnects, queue := 0, 0, 1000, 0, 0, [];
      arrived, popped, kernel, log, looks := [], [], [], [], [];
    }

    method CloseSocket()
      modifies this
      ensures View() == Close(old(View()))
    {
      sockOpen := false;
      connecting := false;
      wantWrite := false;
    }

    method ModifyEpoll(out: bool)
      modifies this
      ensures View() == Modify(old(View()), out)
    {
      if !sockOpen {
        return;
      }
      outMask := out;
    }

    /** The three lines every counted failure site runs. */
    method CountFailure(at: nat)
      modifies this
      ensures View() == Fail(old(View()), at)
    {
      log := log + [Failure(at, backoffMs)];
      nextRetry := at + backoffMs;
      backoffMs := Min(backoffMs * 2, MAX_BACKOFF);
      reconnects := reconnects + 1;
    }

    method FlushSendBuf(sends: seq<SendResult>, at: nat)
      modifies this
      ensures View() == Flush(old(View()), sends, at)
    {
      var i := 0;
      while sendBuf != []
        invariant 0 <= i <= |sends|
        invariant Flush(View(), sends[i..], at) == Flush(old(View()), sends, at)
        decreases |sends| - i, |sendBuf|
      {
        // send on a closed descriptor fails; with no further answer the kernel buffer is full
        var answer := if !sockOpen then SendFailed else if i == |sends| then WouldBlock else sends[i];
        assert i < |sends| ==> sends[i..][1..] == sends[i + 1..];
        match answer {
          case Sent(k) =>
            var n := Taken(k, |sendBuf|);
            kernel := kernel + sendBuf[..n];
            sendBuf := sendBuf[n..];
            sent := sent + 1;
            i := i + 1;
          case WouldBlock =>
            return;
          case Interrupted =>
            i := i + 1;
          case SendFailed =>
            CloseSocket();
            CountFailure(at);
            return;
        }
      }
      if wantWrite {
        ModifyEpoll(false);
        wantWrite := false;
      }
    }

    method ReadAll(recvs: seq<RecvResult>)
      modifies this
      ensures View() == Receive(old(View()), recvs)
    {
      var i := 0;
      while true
        invariant 0 <= i <= |recvs|
        invariant View() == old(View()) && Receive(View(), recvs[i..]) == Receive(View(), recvs)
        decreases |recvs| - i
      {
        var answer := if !sockOpen then Closing else if i == |recvs| then NoMore else recvs[i];
        assert i < |recvs| ==> recvs[i..][1..] == recvs[i + 1..];
        if answer.Data? {
          i := i + 1;
        } else {
          if answer.Closing? {
            CloseSocket();
          }
          break;
        }
      }
    }

    method HandleEvent(ev: Event)
      modifies this
      ensures View() == OnEvent(old(View()), ev)
    {
      if ev.lost {
        CloseSocket();
        CountFailure(ev.at);
        return;
      }
      if connecting && ev.writable {
        if ev.soError {
          CloseSocket();
          CountFailure(ev.at);
          return;
        }
        connecting := false;
        backoffMs := 1000;
        nextSample := ev.at;
        log := log + [Up(ev.at)];
      }
      if ev.readable {
        ReadAll(ev.recvs);
      }
      if ev.writable && !connecting {
        FlushSendBuf(ev.sends, ev.sendAt);
      }
    }

    method TryConsume() returns (ok: bool, msg: string)
      modifies `queue
      ensures ok <==> old(queue) != []
      ensures ok ==> msg == old(queue)[0] && queue == old(queue)[1..]
      ensures !ok ==> queue == old(queue)
    {
      if queue == [] {
        return false, [];
      }
      msg := queue[0];
      queue := queue[1..];
      return true, msg;
    }

    method DrainQueueToBuf()
      modifies this
      ensures View() == Drain(old(View()), BUDGET)
    {
      hide Drain;
      var budget := BUDGET;
      while budget > 0 && queue != []
        invariant 0 <= budget
        invariant Drain(View(), budget) == Drain(old(View()), BUDGET)
        decreases budget
      {
        ghost var r := View();
        DrainOnce(r, budget);
        budget := budget - 1;
        var _, msg := TryConsume();
        if |sendBuf| >= MAX_BUF {
          popped := popped + [Popped(msg, false)];
          assert View() == Pop(r, false);
          return;
        }
        popped := popped + [Popped(msg, true)];
        sendBuf := sendBuf + msg;
        sendBuf := sendBuf + "\n";
        assert View() == Pop(r, true);
      }
      DrainNone(View(), budget);
    }

    method ThrowAway()
      modifies this
      ensures View() == Discard(old(View()))
    {
      while queue != []
        invariant Discard(View()) == Discard(old(View()))
        decreases |queue|
      {
        var _, msg := TryConsume();
        popped := popped + [Popped(msg, false)];
      }
    }

    method Connect(c: ConnectResult) returns (ok: bool)
      modifies this
      ensures (View(), ok) == TryConnect(old(View()), c)
    {
      if c.SocketFails? || c.BadAddress? {
        return false;
      }
      match c {
        case Connected => connecting := false;
        case InProgress => connecting := true;
        case AddFails(inProgress) => connecting := inProgress;
        case _ => return false;
      }
      if c.AddFails? {
        return false;
      }
      sockOpen := true;
      outMask := connecting;
      wantWrite := connecting;
      return true;
    }

    /** One pass of the main loop; more is false when epoll_wait fails for good. */
    method OnePass(t: Turn) returns (more: bool)
      modifies this
      ensures (View(), more) == Pass(old(View()), t)
    {
      queue, arrived := queue + t.arrivals, arrived + t.arrivals;
      if !sockOpen {
        if t.now < nextRetry {
          return true;
        }
        log := log + [Attempt(t.now)];
        var ok := Connect(t.connect);
        if !ok {
          CountFailure(t.now);
          ThrowAway();
          return true;
        }
      }
      more := ServeSocket(t);
    }

    method Sample(t: Turn)
      modifies this
      ensures View() == Sampled(old(View()), t)
    {
      hide Drain;
      if t.sampleNow >= nextSample {
        nextSample := t.sampleNow + 50;
        log := log + [Drained(t.sampleNow)];
        DrainQueueToBuf();
      }
    }

    method ArmAndLook()
      modifies this
      ensures View() == Waiting(Arm(old(View())))
    {
      if sendBuf != [] && !wantWrite {
        ModifyEpoll(true);
        wantWrite := true;
      }
      looks := looks + [Look(sockOpen, outMask, wantWrite, connecting, sendBuf != [])];
    }

    method ServeSocket(t: Turn) returns (more: bool)
      modifies this
      ensures (View(), more) == Serve(old(View()), t)
    {
      hide Sampled, Arm, Waiting, OnEvents;
      Sample(t);
      ArmAndLook();
      match t.wait {
        case WaitInterrupted =>
          return true;
        case WaitFailed =>
          return false;
        case Events(events) =>
          HandleEvents(events);
          return true;
      }
    }

    method HandleEvents(events: seq<Event>)
      modifies this
      ensures View() == OnEvents(old(View()), events)
    {
      for i := 0 to |events|
        invariant OnEvents(View(), events[i..]) == OnEvents(old(View()), events)
      {
        assert events[i..][1..] == events[i + 1..];
        HandleEvent(events[i]);
      }
    }

    /** run, for as many passes as running_ stays set; the socket is closed at the end. */
    method Run(turns: seq<Turn>)
      modifies this
      ensures View() == Close(Loop(old(View()), turns))
    {
      var i := 0;
      var more := true;
      while i < |turns| && more
        invariant 0 <= i <= |turns|
        invariant (if more then Loop(View(), turns[i..]) else View()) == Loop(old(View()), turns)
        decreases |turns| - i
      {
        assert turns[i..][1..] == turns[i + 1..];
        more := OnePass(turns[i]);
        i := i + 1;
      }
      CloseSocket();
    }
  }

  /** A new reporter run against any environment: what ReporterSpec proves, of the code. */
  method RunReporter(turns: seq<Turn>, ghost longest: nat)
    returns (buf: string, backoffMs: nat, reconnects: nat, ghost r: R)
    requires forall t :: t in turns ==> Short(t, longest)
    ensures buf == r.buf && backoffMs == r.backoff && reconnects == r.reconnects && r == Close(Loop(START, turns))
    ensures r.kernel == TakenOver(START, turns)
    ensures r.kernel + buf == Lines(r.popped) && r.arrived == Messages(r.popped) + r.queue
    ensures |buf| <= 1024 * 1024 + longest
    ensures forall i :: 0 <= i < |r.looks| ==> Exact(r.looks[i])
    ensures backoffMs == BackoffAfter(Streak(r.log)) && reconnects == Failures(r.log) && LawOk(r.log)
  {
    var e := new EpollReporter();
    e.Run(turns);
    ReporterIsSound(turns, longest);
    KernelIsTaken(START, turns);
    r := e.View();
    buf, backoffMs, reconnects := e.sendBuf, e.backoffMs, e.reconnects;
  }
}
