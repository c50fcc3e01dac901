/** The bounded queue as its clients see it: values are numbered by tickets in the
    order in which producers claim them, and each ticket passes through four phases.
    The slot protocol of the lock-free rings is shown to implement exactly these
    steps (MpmcProtocol); the blocking queue, the topic bus and the logger are built on them. */
module TicketQueue {
  datatype Phase = Writing(owner: nat) | Full | Reading(owner: nat) | Released

  datatype State<V> = State(cap: nat, head: nat, vals: seq<V>, phase: seq<Phase>) {
    function Tail(): nat { |vals| }

    /** Claimed tickets not yet taken, oldest first. */
    function Contents(): seq<V>
      requires head <= |vals|
    {
      vals[head..]
    }
  }

  datatype Action<V> = Claim(owner: nat, v: V) | Publish(k: nat) | Take(owner: nat) | Release(k: nat)

  ghost predicate Valid<V>(q: State<V>) {
    && q.cap >= 1
    && |q.phase| == |q.vals|
    && q.head <= q.Tail() <= q.head + q.cap
    && (forall k :: 0 <= k < q.head ==> q.phase[k].Reading? || q.phase[k].Released?)
    && (forall k :: q.head <= k < q.Tail() ==> q.phase[k].Writing? || q.phase[k].Full?)
    && (forall k :: 0 <= k < q.Tail() - q.cap ==> q.phase[k].Released?)
  }

  function Init<V>(cap: nat): State<V> {
    State(cap, 0, [], [])
  }

  /** The ticket one lap behind the tail has not been given back. */
  predicate Refuses<V>(q: State<V>)
    requires |q.phase| == |q.vals|
  {
    q.Tail() >= q.cap > 0 && !q.phase[q.Tail() - q.cap].Released?
  }

  /** The head ticket is unclaimed, or claimed and not yet published. */
  predicate NothingReady<V>(q: State<V>)
    requires |q.phase| == |q.vals|
  {
    q.head >= q.Tail() || q.phase[q.head].Writing?
  }

  predicate Enabled<V>(q: State<V>, a: Action<V>)
    requires |q.phase| == |q.vals|
  {
    match a
    case Claim(_, _) => !Refuses(q)
    case Publish(k) => k < |q.phase| && q.phase[k].Writing?
    case Take(_) => !NothingReady(q)
    case Release(k) => k < |q.phase| && q.phase[k].Reading?
  }

  function Step<V>(q: State<V>, a: Action<V>): State<V>
    requires |q.phase| == |q.vals| && Enabled(q, a)
  {
    match a
    case Claim(t, v) => q.(vals := q.vals + [v], phase := q.phase + [Writing(t)])
    case Publish(k) => q.(phase := q.phase[k := Full])
    case Take(t) => q.(head := q.head + 1, phase := q.phase[q.head := Reading(t)])
    case Release(k) => q.(phase := q.phase[k := Released])
  }

  lemma StepValid<V>(q: State<V>, a: Action<V>)
    requires Valid(q) && Enabled(q, a)
    ensures Valid(Step(q, a))
  {
    if a.Claim? && q.Tail() >= q.cap {
      assert q.phase[q.Tail() - q.cap].Released?;
    }
  }

  /** No ticket is between claim and publication or between take and release. */
  ghost predicate Quiet<V>(q: State<V>)
    requires |q.phase| == |q.vals|
  {
    forall k :: 0 <= k < |q.phase| ==> q.phase[k].Full? || q.phase[k].Released?
  }

  /** With nobody mid-flight on the other side, refusal means exactly full and
      unreadiness means exactly empty. */
  lemma RefusalIsExact<V>(q: State<V>)
    requires Valid(q)
    ensures (forall k :: 0 <= k < |q.phase| ==> !q.phase[k].Reading?) ==>
              (Refuses(q) <==> q.Tail() - q.head == q.cap)
    ensures (forall k :: 0 <= k < |q.phase| ==> !q.phase[k].Writing?) ==>
              (NothingReady(q) <==> q.head == q.Tail())
  {
    if q.Tail() >= q.cap {
      var k := q.Tail() - q.cap;
      assert k <= q.head;
      if k < q.head {
        assert q.phase[k].Reading? || q.phase[k].Released?;
      } else if k < q.Tail() {
        assert q.phase[k].Writing? || q.phase[k].Full?;
      }
    }
  }
}
