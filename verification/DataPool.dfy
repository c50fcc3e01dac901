/** The history pool: one consumer thread drains a ring, keeps a down-sampled window of the
    stream and the latest point, and readers take snapshots at any moment in between. */
module DataPool {
  import opened Words

  type Stamp = x: nat | x < WORD

  datatype DataPoint = DataPoint(ts: Stamp, speed: real, temp: real)

  const INTERVAL: nat := 100
  const BLANK := DataPoint(0, 0.0, 0.0)

  /** The unsigned 64-bit difference of the code, at least the sampling interval. */
  predicate Due(d: DataPoint, last: Stamp) {
    (d.ts - last + WORD) % WORD >= INTERVAL
  }

  /** A stamp is due 100 ms after the last sample - or when time has gone back, unless it has
      gone back by more than 2^64 - 100 ms. */
  lemma DueMeans(d: DataPoint, last: Stamp)
    ensures Due(d, last) <==> d.ts >= last + 100 || (d.ts < last && last - d.ts <= WORD - 100)
  {
  }

  /** One sampling fold over a stream, starting from the stamp of the last sample. */
  function Sample(s: seq<DataPoint>, last: Stamp): seq<DataPoint> {
    if s == [] then []
    else if Due(s[0], last) then [s[0]] + Sample(s[1..], s[0].ts)
    else Sample(s[1..], last)
  }

  function LastStamp(s: seq<DataPoint>, last: Stamp): Stamp {
    if s == [] then last
    else if Due(s[0], last) then LastStamp(s[1..], s[0].ts)
    else LastStamp(s[1..], last)
  }

  /** The last n elements. */
  function Window(s: seq<DataPoint>, n: nat): seq<DataPoint> {
    if |s| <= n then s else s[|s| - n..]
  }

  lemma {:induction false} SampleAppend(s: seq<DataPoint>, d: DataPoint, last: Stamp)
    ensures Sample(s + [d], last) == Sample(s, last) + (if Due(d, LastStamp(s, last)) then [d] else [])
    ensures LastStamp(s + [d], last) == if Due(d, LastStamp(s, last)) then d.ts else LastStamp(s, last)
  {
    if s == [] {
      assert s + [d] == [d];
    } else {
      assert (s + [d])[1..] == s[1..] + [d];
      SampleAppend(s[1..], d, if Due(s[0], last) then s[0].ts else last);
    }
  }

  /** Appending to the history and dropping its front when it is too long keeps the window. */
  lemma WindowAppend(s: seq<DataPoint>, d: DataPoint, n: nat)
    ensures var h := Window(s, n) + [d];
      Window(s + [d], n) == if |h| > n then h[1..] else h
  {
  }

  // ---------------------------------------------------------------- greedy sampling is optimal

  ghost predicate Sorted(s: seq<DataPoint>) {
    forall i, j :: 0 <= i < j < |s| ==> s[i].ts <= s[j].ts
  }

  /** Increasing positions in s whose stamps are 100 ms apart. */
  ghost predicate Spaced(s: seq<DataPoint>, idx: seq<nat>) {
    && (forall i :: 0 <= i < |idx| ==> idx[i] < |s|)
    && (forall i, j :: 0 <= i < j < |idx| ==> idx[i] < idx[j] && s[idx[i]].ts + 100 <= s[idx[j]].ts)
  }

  /** The positions of idx from its k-th on, in s without its first element. */
  lemma Shift(s: seq<DataPoint>, idx: seq<nat>, k: nat) returns (rest: seq<nat>)
    requires s != [] && Spaced(s, idx) && k <= |idx| && (k < |idx| ==> idx[k] >= 1)
    ensures |rest| == |idx| - k && Spaced(s[1..], rest)
    ensures forall i :: 0 <= i < |rest| ==> s[1..][rest[i]] == s[idx[k + i]]
  {
    forall i | k <= i < |idx|
      ensures idx[i] >= 1
    {
      assert i > k ==> idx[k] < idx[i];
    }
    rest := seq(|idx| - k, i requires 0 <= i < |idx| - k => (idx[k + i] - 1) as nat);
  }

  lemma SortedTail(s: seq<DataPoint>)
    requires Sorted(s) && s != []
    ensures Sorted(s[1..]) && (|s| > 1 ==> s[0].ts <= s[1].ts)
  {
  }

  lemma SpacedHead(s: seq<DataPoint>, idx: seq<nat>)
    requires Sorted(s) && Spaced(s, idx) && idx != []
    ensures idx[0] < |s| && s[0].ts <= s[idx[0]].ts
    ensures |idx| > 1 ==> 1 <= idx[1] < |s| && s[0].ts + 100 <= s[idx[1]].ts
  {
  }

  lemma SampleNext(s: seq<DataPoint>, last: Stamp)
    requires s != []
    ensures |Sample(s, last)| == if Due(s[0], last) then 1 + |Sample(s[1..], s[0].ts)| else |Sample(s[1..], last)|
  {
  }

  lemma {:induction false} GreedyStaysAhead(s: seq<DataPoint>, last: Stamp, idx: seq<nat>)
    requires Sorted(s) && Spaced(s, idx) && (s != [] ==> last <= s[0].ts)
    requires idx != [] ==> s[idx[0]].ts >= last + 100
    ensures |idx| <= |Sample(s, last)|
    decreases |s|
  {
    hide *;
    if idx != [] {
      SpacedHead(s, idx);
      SortedTail(s);
      SampleNext(s, last);
      DueMeans(s[0], last);
      if Due(s[0], last) {
        var rest := Shift(s, idx, 1);
        GreedyStaysAhead(s[1..], s[0].ts, rest);
      } else {
        assert idx[0] != 0;
        var rest := Shift(s, idx, 0);
        GreedyStaysAhead(s[1..], last, rest);
      }
    }
  }

  /** The positions of a subsequence of s[1..], as positions in s. */
  lemma Lift(s: seq<DataPoint>, rest: seq<nat>) returns (up: seq<nat>)
    requires s != [] && Spaced(s[1..], rest)
    ensures |up| == |rest| && Spaced(s, up)
    ensures forall i :: 0 <= i < |up| ==> up[i] >= 1 && s[up[i]] == s[1..][rest[i]]
  {
    up := seq(|rest|, i requires 0 <= i < |rest| => rest[i] + 1);
    assert forall i :: 0 <= i < |up| ==> s[up[i]] == s[1..][rest[i]];
  }

  lemma Prepend(s: seq<DataPoint>, up: seq<nat>)
    requires s != [] && Spaced(s, up)
    requires forall i :: 0 <= i < |up| ==> up[i] >= 1 && s[up[i]].ts >= s[0].ts + 100
    ensures Spaced(s, [0] + up)
  {
  }

  /** idx picks exactly the sample out of s. */
  ghost predicate Picks(s: seq<DataPoint>, last: Stamp, idx: seq<nat>) {
    && Spaced(s, idx) && |idx| == |Sample(s, last)|
    && forall i :: 0 <= i < |idx| ==> s[idx[i]] == Sample(s, last)[i] && s[idx[i]].ts >= last + 100
  }

  lemma PickSkip(s: seq<DataPoint>, last: Stamp, rest: seq<nat>) returns (idx: seq<nat>)
    requires s != [] && !Due(s[0], last) && Picks(s[1..], last, rest)
    ensures Picks(s, last, idx)
  {
    idx := Lift(s, rest);
  }

  lemma PickTake(s: seq<DataPoint>, last: Stamp, rest: seq<nat>) returns (idx: seq<nat>)
    requires s != [] && s[0].ts >= last + 100 && Picks(s[1..], s[0].ts, rest)
    ensures Picks(s, last, idx)
  {
    DueMeans(s[0], last);
    var up := Lift(s, rest);
    Prepend(s, up);
    idx := [0] + up;
    var tail := Sample(s[1..], s[0].ts);
    assert Sample(s, last) == [s[0]] + tail;
    forall i | 0 <= i < |idx|
      ensures s[idx[i]] == Sample(s, last)[i] && s[idx[i]].ts >= last + 100
    {
      if i > 0 {
        assert idx[i] == up[i - 1];
      }
    }
  }

  /** The sample is itself a subsequence with stamps 100 ms apart. */
  lemma {:induction false} GreedyAttains(s: seq<DataPoint>, last: Stamp) returns (idx: seq<nat>)
    requires Sorted(s) && (s != [] ==> last <= s[0].ts)
    ensures Picks(s, last, idx)
    decreases |s|
  {
    if s == [] {
      idx := [];
    } else {
      hide Picks;
      DueMeans(s[0], last);
      if Due(s[0], last) {
        var rest := GreedyAttains(s[1..], s[0].ts);
        idx := PickTake(s, last, rest);
      } else {
        var rest := GreedyAttains(s[1..], last);
        idx := PickSkip(s, last, rest);
      }
    }
  }

  /** Optimality: for non-decreasing stamps no 100 ms-spaced subsequence is longer than the
      sample, if the stream starts at 100 ms or later; a stream that starts earlier can lose
      one point, and only to a subsequence that uses a stamp below 100 ms. */
  lemma GreedyIsOptimal(s: seq<DataPoint>, idx: seq<nat>)
    requires Sorted(s) && Spaced(s, idx)
    ensures s != [] && s[0].ts >= 100 ==> |idx| <= |Sample(s, 0)|
    ensures |idx| <= |Sample(s, 0)| + (if idx != [] && s[idx[0]].ts < 100 then 1 else 0)
  {
    if idx != [] {
      assert idx[0] > 0 ==> s[0].ts <= s[idx[0]].ts;
      if s[idx[0]].ts >= 100 {
        GreedyStaysAhead(s, 0, idx);
      } else {
        assert Spaced(s, idx[1..]) by {
          assert forall i :: 0 <= i < |idx[1..]| ==> idx[1..][i] == idx[i + 1];
        }
        GreedyStaysAhead(s, 0, idx[1..]);
      }
    }
  }

  /** Sampling is optimal for every stream that starts at this stamp. */
  ghost predicate SafeStart(start: Stamp) {
    forall s: seq<DataPoint>, idx: seq<nat> ::
      s != [] && s[0].ts == start && Sorted(s) && Spaced(s, idx) ==> |idx| <= |Sample(s, 0)|
  }

  /** Exactly the streams that start at 100 ms or later are safe: a lone earlier stamp is
      never sampled. */
  lemma SafeStarts(start: Stamp)
    ensures SafeStart(start) <==> start >= 100
  {
    if start >= 100 {
      forall s: seq<DataPoint>, idx: seq<nat> | s != [] && s[0].ts == start && Sorted(s) && Spaced(s, idx)
        ensures |idx| <= |Sample(s, 0)|
      {
        GreedyIsOptimal(s, idx);
      }
    } else {
      var s := [DataPoint(start, 0.0, 0.0)];
      DueMeans(s[0], 0);
      assert Sorted(s) && Spaced(s, [0]) && |Sample(s, 0)| == 0 && |[0]| == 1;
    }
  }

  // ---------------------------------------------------------------- drains and snapshots, step by step

  datatype Pc =
    | Between                                  // no drain in progress
    | Loop(n: nat, last: DataPoint)            // about to consume; n points so far in this drain
    | Append(n: nat, last: DataPoint)          // `last` is due: about to lock and append it
    | Latest(n: nat, last: DataPoint)          // loop done, n > 0: about to lock and set latest_
    | Total(n: nat)                            // about to add n to total_consumed_

  /** stream is every point consumed so far; shown is its length when latest_ was last set. */
  datatype State = State(cap: nat, history: seq<DataPoint>, latest: DataPoint, lastStamp: Stamp, total: nat,
                         pc: Pc, stream: seq<DataPoint>, shown: nat)

  datatype Action = BeginDrain | Consume(d: DataPoint) | FindEmpty | AppendPoint | SetLatest | AddTotal

  predicate Enabled(s: State, a: Action) {
    match a
    case BeginDrain => s.pc.Between?
    case Consume(_) => s.pc.Loop?
    case FindEmpty => s.pc.Loop?
    case AppendPoint => s.pc.Append?
    case SetLatest => s.pc.Latest?
    case AddTotal => s.pc.Total?
  }

  function Push(h: seq<DataPoint>, d: DataPoint, cap: nat): seq<DataPoint> {
    if |h| + 1 > cap then (h + [d])[1..] else h + [d]
  }

  function Step(s: State, a: Action): State
    requires Enabled(s, a)
  {
    match a
    case BeginDrain => s.(pc := Loop(0, BLANK))
    case Consume(d) =>
      var s' := s.(stream := s.stream + [d]);
      if Due(d, s.lastStamp) then s'.(lastStamp := d.ts, pc := Append(s.pc.n + 1, d))
      else s'.(pc := Loop(s.pc.n + 1, d))
    case FindEmpty => s.(pc := if s.pc.n > 0 then Latest(s.pc.n, s.pc.last) else Between)
    case AppendPoint => s.(history := Push(s.history, s.pc.last, s.cap), pc := Loop(s.pc.n, s.pc.last))
    case SetLatest => s.(latest := s.pc.last, shown := |s.stream|, pc := Total(s.pc.n))
    case AddTotal => s.(total := s.total + s.pc.n, pc := Between)
  }

  ghost predicate Init(s: State) {
    && s.history == [] && s.latest == BLANK && s.lastStamp == 0 && s.total == 0
    && s.pc.Between? && s.stream == [] && s.shown == 0
  }

  ghost predicate Run(ss: seq<State>, acts: seq<Action>) {
    && |ss| == |acts| + 1 && Init(ss[0])
    && forall i :: 0 <= i < |acts| ==> Enabled(ss[i], acts[i]) && ss[i + 1] == Step(ss[i], acts[i])
  }

  /** How much of the stream the history reflects. */
  function Reflected(s: State): int {
    |s.stream| - (if s.pc.Append? then 1 else 0)
  }

  ghost predicate HistoryOk(s: State) {
    && 0 <= Reflected(s)
    && s.history == Window(Sample(s.stream[..Reflected(s)], 0), s.cap)
    && s.lastStamp == LastStamp(s.stream, 0)
    && (s.pc.Append? ==> s.pc.last == s.stream[Reflected(s)] && Due(s.pc.last, LastStamp(s.stream[..Reflected(s)], 0)))
  }

  ghost predicate LatestOk(s: State) {
    && s.shown <= |s.stream|
    && s.latest == (if s.shown == 0 then BLANK else s.stream[s.shown - 1])
    && (s.pc.Between? ==> s.total == |s.stream| == s.shown)
    && (s.pc.Loop? || s.pc.Append? || s.pc.Latest? ==>
          s.total == s.shown == |s.stream| - s.pc.n && (s.pc.n > 0 ==> s.pc.last == s.stream[|s.stream| - 1]))
    && (s.pc.Append? || s.pc.Latest? ==> s.pc.n > 0)
    && (s.pc.Total? ==> s.shown == |s.stream| == s.total + s.pc.n)
  }

  ghost predicate Inv(s: State) {
    HistoryOk(s) && LatestOk(s)
  }

  lemma HistoryKeeps(s: State, a: Action)
    requires HistoryOk(s) && Enabled(s, a)
    ensures HistoryOk(Step(s, a))
  {
    var s' := Step(s, a);
    match a {
      case Consume(d) =>
        SampleAppend(s.stream, d, 0);
        assert s.stream[..|s.stream|] == s.stream;
        assert s'.stream[..|s.stream|] == s.stream;
        assert s'.stream[..|s'.stream|] == s.stream + [d];
      case AppendPoint =>
        var p := Reflected(s);
        assert s.stream[..p + 1] == s.stream[..p] + [s.stream[p]];
        SampleAppend(s.stream[..p], s.stream[p], 0);
        WindowAppend(Sample(s.stream[..p], 0), s.stream[p], s.cap);
      case _ =>
    }
  }

  lemma LatestKeeps(s: State, a: Action)
    requires LatestOk(s) && Enabled(s, a)
    ensures LatestOk(Step(s, a))
  {
  }

  lemma InitInv(s: State)
    requires Init(s)
    ensures Inv(s)
  {
  }

  lemma {:induction false} InvAt(ss: seq<State>, acts: seq<Action>, i: nat)
    requires Run(ss, acts) && i < |ss|
    ensures Inv(ss[i]) && ss[i].cap == ss[0].cap
  {
    hide HistoryOk, LatestOk;
    if i == 0 {
      InitInv(ss[0]);
    } else {
      InvAt(ss, acts, i - 1);
      HistoryKeeps(ss[i - 1], acts[i - 1]);
      LatestKeeps(ss[i - 1], acts[i - 1]);
      assert ss[i] == Step(ss[i - 1], acts[i - 1]);
    }
  }

  /** Snapshot consistency: whenever a reader looks, the history is the window of the sample of
      some prefix p of the stream, and the latest point ends a prefix q no longer than p. */
  lemma Snapshots(ss: seq<State>, acts: seq<Action>, i: nat) returns (p: nat, q: nat)
    requires Run(ss, acts) && i < |ss|
    ensures q <= p <= |ss[i].stream|
    ensures ss[i].history == Window(Sample(ss[i].stream[..p], 0), ss[0].cap) && |ss[i].history| <= ss[0].cap
    ensures ss[i].latest == if q == 0 then BLANK else ss[i].stream[q - 1]
    ensures ss[i].pc.Between? ==> ss[i].total == |ss[i].stream| == p == q
  {
    InvAt(ss, acts, i);
    p, q := Reflected(ss[i]), ss[i].shown;
  }

  // ---------------------------------------------------------------- the class

  class DataPool {
    var ring: seq<DataPoint>
    const ringCap: nat
    var history: seq<DataPoint>
    const historyCap: nat
    var latest: DataPoint
    var lastStamp: Stamp
    var total: nat
    ghost var s: State

    ghost predicate Mirrors()
      reads this
    {
      && Inv(s) && s.cap == historyCap
      && history == s.history && latest == s.latest && lastStamp == s.lastStamp && total == s.total
    }

    ghost predicate Valid()
      reads this
    {
      Mirrors() && s.pc.Between?
    }

    /** Everything consumed by the drains so far. */
    ghost function Consumed(): seq<DataPoint>
      reads this
    {
      s.stream
    }

    constructor (ringCap: nat, historyCap: nat)
      ensures Valid() && ring == [] && Consumed() == []
      ensures this.ringCap == ringCap && this.historyCap == historyCap
    {
      this.ringCap, this.historyCap := ringCap, historyCap;
      ring, history, latest, lastStamp, total := [], [], BLANK, 0, 0;
      s := State(historyCap, [], BLANK, 0, 0, Between, [], 0);
    }

    ghost method Tick(a: Action)
      requires Inv(s) && Enabled(s, a)
      modifies `s
      ensures s == Step(old(s), a) && Inv(s)
    {
      HistoryKeeps(s, a);
      LatestKeeps(s, a);
      s := Step(s, a);
    }

    method Produce(d: DataPoint) returns (ok: bool)
      requires Valid()
      modifies this
      ensures Valid() && Consumed() == old(Consumed())
      ensures ok <==> |old(ring)| < ringCap
      ensures ring == if ok then old(ring) + [d] else old(ring)
      ensures history == old(history) && latest == old(latest) && total == old(total)
    {
      ok := |ring| < ringCap;
      if ok {
        ring := ring + [d];
      }
    }

    method Drain() returns (n: nat)
      requires Valid()
      modifies this
      ensures Valid() && ring == [] && n == |old(ring)|
      ensures Consumed() == old(Consumed()) + old(ring)
      ensures history == Window(Sample(Consumed(), 0), historyCap)
      ensures |history| <= historyCap && (|history| == historyCap || history == Sample(Consumed(), 0))
      ensures |history| <= |Sample(Consumed(), 0)|
              && history == Sample(Consumed(), 0)[|Sample(Consumed(), 0)| - |history|..]
      ensures latest == (if Consumed() == [] then BLANK else Consumed()[|Consumed()| - 1])
      ensures total == |Consumed()|
    {
      hide Inv, Step, Enabled, Window, Sample;
      var last := BLANK;
      n := 0;
      Begin();
      while ring != []
        invariant Mirrors() && s.pc == Loop(n, last)
        invariant s.stream + ring == old(s.stream) + old(ring)
        invariant n + |ring| == |old(ring)|
        decreases |ring|
      {
        var d := ring[0];
        ring := ring[1..];
        n := n + 1;
        last := d;
        Accept(d);
      }
      Finish(n, last);
      AtRest();
    }

    method Begin()
      requires Valid()
      modifies this
      ensures Mirrors() && s.pc == Loop(0, BLANK) && s.stream == old(s.stream) && ring == old(ring)
    {
      hide Inv;
      Tick(BeginDrain);
    }

    /** One consumed point: into the history if it is due. */
    method Accept(d: DataPoint)
      requires Mirrors() && s.pc.Loop?
      modifies this
      ensures Mirrors() && s.pc == Loop(old(s.pc).n + 1, d) && s.stream == old(s.stream) + [d] && ring == old(ring)
    {
      hide Inv;
      Tick(Consume(d));
      if Due(d, lastStamp) {
        lastStamp := d.ts;
        history := history + [d];
        if |history| > historyCap {
          history := history[1..];
        }
        Tick(AppendPoint);
      }
    }

    /** After the loop: the latest point and the count, if anything was consumed. */
    method Finish(n: nat, last: DataPoint)
      requires Mirrors() && s.pc == Loop(n, last)
      modifies this
      ensures Valid() && s.stream == old(s.stream) && ring == old(ring)
    {
      hide Inv;
      Tick(FindEmpty);
      if n > 0 {
        latest := last;
        Tick(SetLatest);
        total := total + n;
        Tick(AddTotal);
      }
    }

    lemma AtRest()
      requires Valid()
      ensures history == Window(Sample(Consumed(), 0), historyCap)
      ensures |history| <= historyCap && (|history| == historyCap || history == Sample(Consumed(), 0))
      ensures |history| <= |Sample(Consumed(), 0)|
              && history == Sample(Consumed(), 0)[|Sample(Consumed(), 0)| - |history|..]
      ensures latest == (if Consumed() == [] then BLANK else Consumed()[|Consumed()| - 1])
      ensures total == |Consumed()|
    {
      assert s.stream[..|s.stream|] == s.stream;
    }
  }
}
