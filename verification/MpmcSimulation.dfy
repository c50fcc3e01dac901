/** Every step of the slot protocol keeps the coupling invariant and performs either one
    step of the ticket queue or none. */
module MpmcSimulation {
  import opened Words
  import opened MpmcProtocol
  import T = TicketQueue

  predicate Owns<V>(pc: Pc<V>) {
    pc.PClaimed? || pc.PWritten? || pc.CClaimed? || pc.CCopied?
  }

  /** A step that changes only where thread t stands, and no ownership. */
  lemma LocalStep<V(!new)>(m: Machine<V>, q: T.State<V>, t: nat, pc: Pc<V>)
    requires Inv(m, q) && t < |m.pcs|
    requires !Owns(m.pcs[t]) && !Owns(pc) && PcOk(Goto(m, t, pc), q, t)
    ensures Inv(Goto(m, t, pc), q)
  {
    var m' := Goto(m, t, pc);
    forall k: int {:trigger CellOk(m', q, k)} | m.tail - m.cap <= k < m.tail
      ensures CellOk(m', q, k)
    {
      assert CellOk(m, q, k);
    }
    forall u: nat {:trigger PcOk(m', q, u)} | u < |m.pcs|
      ensures PcOk(m', q, u)
    {
      assert PcOk(m, q, u);
    }
    forall k: nat {:trigger OwnerOk(m', q, k)} | k < m.tail
      ensures OwnerOk(m', q, k)
    {
      assert OwnerOk(m, q, k);
    }
  }

  lemma CallStep<V(!new)>(m: Machine<V>, q: T.State<V>, a: Action<V>)
    requires Inv(m, q) && Enabled(m, a) && (a.CallProduce? || a.CallConsume? || a.LoadCounter?)
    ensures Inv(Step(Unbounded, m, a), q)
  {
    LocalStep(m, q, a.t, Step(Unbounded, m, a).pcs[a.t]);
  }

  lemma LoadSeqStep<V(!new)>(m: Machine<V>, q: T.State<V>, a: Action<V>)
    requires Inv(m, q) && Enabled(m, a) && a.LoadSeq?
    ensures Inv(Step(Unbounded, m, a), q)
  {
    assert PcOk(m, q, a.t);
    var pc := m.pcs[a.t];
    if pc.PLoaded? {
      ProducerSees(m, q, pc.pos);
    } else {
      ConsumerSees(m, q, pc.pos);
    }
    LocalStep(m, q, a.t, Step(Unbounded, m, a).pcs[a.t]);
  }

  lemma FailedCasStep<V(!new)>(m: Machine<V>, q: T.State<V>, a: Action<V>)
    requires Inv(m, q) && Enabled(m, a) && a.Cas? && Ticket(m, a) == []
    ensures Inv(Step(Unbounded, m, a), q)
  {
    LocalStep(m, q, a.t, Step(Unbounded, m, a).pcs[a.t]);
  }

  // ---------------------------------------------------------------- winning the tail

  lemma ClaimCells<V(!new)>(m: Machine<V>, q: T.State<V>, m': Machine<V>, q': T.State<V>, t: nat, v: V)
    requires Shape(m, q) && CellsOk(m, q) && !T.Refuses(q)
    requires q' == T.Step(q, T.Claim(t, v)) && Shape(m', q')
    requires m'.cells == m.cells && m'.cap == m.cap && m'.tail == m.tail + 1
    ensures CellsOk(m', q')
  {
    forall k: int {:trigger CellOk(m', q', k)} | m'.tail - m.cap <= k < m'.tail
      ensures CellOk(m', q', k)
    {
      if k == m.tail {
        ModShift(m.tail, m.cap, -1);
        assert CellOk(m, q, m.tail - m.cap);
      } else {
        assert CellOk(m, q, k);
      }
    }
  }

  lemma ClaimThreads<V(!new)>(m: Machine<V>, q: T.State<V>, m': Machine<V>, q': T.State<V>, t: nat, v: V)
    requires Shape(m, q) && ThreadsOk(m, q) && !T.Refuses(q)
    requires q' == T.Step(q, T.Claim(t, v)) && Shape(m', q')
    requires t < |m.pcs| && m.pcs[t] == PReady(v, m.tail)
    requires m' == Goto(m.(tail := m.tail + 1), t, PClaimed(v, m.tail))
    ensures ThreadsOk(m', q')
  {
    forall u: nat {:trigger PcOk(m', q', u)} | u < |m.pcs|
      ensures PcOk(m', q', u)
    {
      assert PcOk(m, q, u);
    }
    forall k: nat {:trigger OwnerOk(m', q', k)} | k < m'.tail
      ensures OwnerOk(m', q', k)
    {
      if k < m.tail {
        assert OwnerOk(m, q, k);
      }
    }
  }

  lemma ClaimStep<V(!new)>(m: Machine<V>, q: T.State<V>, a: Action<V>)
    requires Inv(m, q) && Enabled(m, a) && a.Cas? && Ticket(m, a) != [] && m.pcs[a.t].PReady?
    ensures TicketEnabled(m, q, a) && Inv(Step(Unbounded, m, a), Shadow(m, q, a))
  {
    assert PcOk(m, q, a.t);
    var m', q' := Step(Unbounded, m, a), Shadow(m, q, a);
    T.StepValid(q, Ticket(m, a)[0]);
    ClaimCells(m, q, m', q', a.t, m.pcs[a.t].v);
    ClaimThreads(m, q, m', q', a.t, m.pcs[a.t].v);
  }

  // ---------------------------------------------------------------- winning the head

  /** Where thread u stands fits the head that t has just taken. */
  lemma TakeThread<V(!new)>(m: Machine<V>, q: T.State<V>, m': Machine<V>, q': T.State<V>, t: nat, u: nat)
    requires Shape(m, q) && !T.NothingReady(q) && u < |m.pcs| && PcOk(m, q, u)
    requires q' == T.Step(q, T.Take(t)) && Shape(m', q')
    requires t < |m.pcs| && m.pcs[t] == CReady(m.head)
    requires m' == Goto(m.(head := m.head + 1), t, CClaimed(m.head))
    ensures PcOk(m', q', u)
  {
    assert u != t ==> m'.pcs[u] == m.pcs[u];
    assert forall k :: 0 <= k < |q.phase| && k != q.head ==> q'.phase[k] == q.phase[k];
    assert q.phase[q.head].Full?;
  }

  lemma TakeOwner<V(!new)>(m: Machine<V>, q: T.State<V>, m': Machine<V>, q': T.State<V>, t: nat, k: nat)
    requires Shape(m, q) && !T.NothingReady(q) && k < m.tail && OwnerOk(m, q, k)
    requires q' == T.Step(q, T.Take(t)) && Shape(m', q')
    requires t < |m.pcs| && m.pcs[t] == CReady(m.head)
    requires m' == Goto(m.(head := m.head + 1), t, CClaimed(m.head))
    ensures OwnerOk(m', q', k)
  {
    assert forall u :: 0 <= u < |m.pcs| && u != t ==> m'.pcs[u] == m.pcs[u];
  }

  lemma TakeThreads<V(!new)>(m: Machine<V>, q: T.State<V>, m': Machine<V>, q': T.State<V>, t: nat)
    requires Shape(m, q) && ThreadsOk(m, q) && !T.NothingReady(q)
    requires q' == T.Step(q, T.Take(t)) && Shape(m', q')
    requires t < |m.pcs| && m.pcs[t] == CReady(m.head)
    requires m' == Goto(m.(head := m.head + 1), t, CClaimed(m.head))
    ensures ThreadsOk(m', q')
  {
    hide PcOk, OwnerOk, T.NothingReady;
    forall u: nat {:trigger PcOk(m', q', u)} | u < |m.pcs|
      ensures PcOk(m', q', u)
    {
      TakeThread(m, q, m', q', t, u);
    }
    forall k: nat {:trigger OwnerOk(m', q', k)} | k < m'.tail
      ensures OwnerOk(m', q', k)
    {
      TakeOwner(m, q, m', q', t, k);
    }
  }

  lemma TakeStep<V(!new)>(m: Machine<V>, q: T.State<V>, a: Action<V>)
    requires Inv(m, q) && Enabled(m, a) && a.Cas? && Ticket(m, a) != [] && m.pcs[a.t].CReady?
    ensures TicketEnabled(m, q, a) && Inv(Step(Unbounded, m, a), Shadow(m, q, a))
  {
    assert PcOk(m, q, a.t);
    var m', q' := Step(Unbounded, m, a), Shadow(m, q, a);
    T.StepValid(q, Ticket(m, a)[0]);
    forall k: int {:trigger CellOk(m', q', k)} | m.tail - m.cap <= k < m.tail
      ensures CellOk(m', q', k)
    {
      assert CellOk(m, q, k);
    }
    TakeThreads(m, q, m', q', a.t);
  }

  // ---------------------------------------------------------------- at the owned cell

  /** A cell index shared by two tickets of the last lap belongs to one ticket. */
  lemma OwnCell<V>(m: Machine<V>, q: T.State<V>, pos: nat, k: int)
    requires Shape(m, q) && pos < m.tail && !q.phase[pos].Released?
    requires m.tail - m.cap <= k < m.tail && k != pos
    ensures m.tail - m.cap <= pos && k % m.cap != pos % m.cap
  {
    ModWindow(k, pos, m.cap);
  }

  /** Threads other than t keep their facts when only t's own cell and ticket change. */
  lemma OtherThreads<V(!new)>(m: Machine<V>, q: T.State<V>, m': Machine<V>, q': T.State<V>, t: nat, pos: nat, u: nat)
    requires Shape(m, q) && ThreadsOk(m, q) && Shape(m', q')
    requires t < |m.pcs| == |m'.pcs| && u < |m.pcs| && u != t && m'.pcs[u] == m.pcs[u]
    requires pos < m.tail && (q.phase[pos] == T.Writing(t) || q.phase[pos] == T.Reading(t))
    requires m'.cap == m.cap && m'.tail == m.tail && m'.head == m.head && q'.vals == q.vals
    requires forall i :: 0 <= i < m.cap && i != pos % m.cap ==> m'.cells[i] == m.cells[i]
    requires forall k :: 0 <= k < m.tail && k != pos ==> q'.phase[k] == q.phase[k]
    requires T.Refuses(q') ==> T.Refuses(q)
    requires T.NothingReady(q') ==> T.NothingReady(q)
    ensures PcOk(m', q', u)
  {
    assert PcOk(m, q, u);
    if m.pcs[u].PWritten? {
      var p := m.pcs[u].pos;
      assert m.tail - m.cap <= p;
      OwnCell(m, q, pos, p);
    }
  }

  lemma CopyStep<V(!new)>(m: Machine<V>, q: T.State<V>, a: Action<V>)
    requires Inv(m, q) && Enabled(m, a) && a.CopyData?
    ensures Inv(Step(Unbounded, m, a), q)
  {
    assert PcOk(m, q, a.t);
    var m', pos := Step(Unbounded, m, a), m.pcs[a.t].pos;
    assert CellOk(m, q, pos);
    forall k: int {:trigger CellOk(m', q, k)} | m.tail - m.cap <= k < m.tail
      ensures CellOk(m', q, k)
    {
      assert CellOk(m, q, k);
      if k != pos {
        OwnCell(m, q, pos, k);
      }
    }
    forall u: nat {:trigger PcOk(m', q, u)} | u < |m.pcs|
      ensures PcOk(m', q, u)
    {
      if u != a.t {
        OtherThreads(m, q, m', q, a.t, pos, u);
      }
    }
    forall k: nat {:trigger OwnerOk(m', q, k)} | k < m.tail
      ensures OwnerOk(m', q, k)
    {
      assert OwnerOk(m, q, k);
    }
  }

  lemma StoreCells<V(!new)>(m: Machine<V>, q: T.State<V>, a: Action<V>)
    requires Inv(m, q) && Enabled(m, a) && a.StoreSeq?
    ensures TicketEnabled(m, q, a)
    ensures Shape(Step(Unbounded, m, a), Shadow(m, q, a))
    ensures CellsOk(Step(Unbounded, m, a), Shadow(m, q, a))
  {
    assert PcOk(m, q, a.t);
    var m', q', pos := Step(Unbounded, m, a), Shadow(m, q, a), m.pcs[a.t].pos;
    T.StepValid(q, Ticket(m, a)[0]);
    assert CellOk(m, q, pos);
    forall k: int {:trigger CellOk(m', q', k)} | m.tail - m.cap <= k < m.tail
      ensures CellOk(m', q', k)
    {
      assert CellOk(m, q, k);
      if k != pos {
        OwnCell(m, q, pos, k);
      }
    }
  }

  lemma StoreThreads<V(!new)>(m: Machine<V>, q: T.State<V>, a: Action<V>)
    requires Inv(m, q) && Enabled(m, a) && a.StoreSeq? && TicketEnabled(m, q, a)
    requires Shape(Step(Unbounded, m, a), Shadow(m, q, a))
    ensures ThreadsOk(Step(Unbounded, m, a), Shadow(m, q, a))
  {
    assert PcOk(m, q, a.t);
    var m', q', pos := Step(Unbounded, m, a), Shadow(m, q, a), m.pcs[a.t].pos;
    forall u: nat {:trigger PcOk(m', q', u)} | u < |m.pcs|
      ensures PcOk(m', q', u)
    {
      if u != a.t {
        OtherThreads(m, q, m', q', a.t, pos, u);
      }
    }
    forall k: nat {:trigger OwnerOk(m', q', k)} | k < m.tail
      ensures OwnerOk(m', q', k)
    {
      assert OwnerOk(m, q, k);
    }
  }

  lemma StoreLogs<V(!new)>(m: Machine<V>, q: T.State<V>, a: Action<V>)
    requires Inv(m, q) && Enabled(m, a) && a.StoreSeq? && TicketEnabled(m, q, a)
    requires Shape(Step(Unbounded, m, a), Shadow(m, q, a))
    ensures LogsOk(Step(Unbounded, m, a), Shadow(m, q, a))
  {
    assert PcOk(m, q, a.t);
    var m', q', pos := Step(Unbounded, m, a), Shadow(m, q, a), m.pcs[a.t].pos;
    forall k: nat, v: V
      ensures m'.accepted[(k, v)] == Bit(Published(q', k, v))
      ensures m'.returned[(k, v)] == Bit(GivenBack(q', k, v))
    {
      assert m.accepted[(k, v)] == Bit(Published(q, k, v));
      assert m.returned[(k, v)] == Bit(GivenBack(q, k, v));
    }
  }

  /** Forward simulation: one step of the protocol is at most one step of the ticket queue. */
  lemma Simulation<V(!new)>(m: Machine<V>, q: T.State<V>, a: Action<V>)
    requires Inv(m, q) && Enabled(m, a)
    ensures |q.phase| == |q.vals| && TicketEnabled(m, q, a)
    ensures Inv(Step(Unbounded, m, a), Shadow(m, q, a))
  {
    match a
    case CallProduce(_, _) => CallStep(m, q, a);
    case CallConsume(_) => CallStep(m, q, a);
    case LoadCounter(_, _) => CallStep(m, q, a);
    case LoadSeq(_) => LoadSeqStep(m, q, a);
    case Cas(_, _) =>
      if Ticket(m, a) == [] {
        FailedCasStep(m, q, a);
      } else if m.pcs[a.t].PReady? {
        ClaimStep(m, q, a);
      } else {
        TakeStep(m, q, a);
      }
    case CopyData(_) => CopyStep(m, q, a);
    case StoreSeq(_) =>
      StoreCells(m, q, a);
      StoreThreads(m, q, a);
      StoreLogs(m, q, a);
  }
}
