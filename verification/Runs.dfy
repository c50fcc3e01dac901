/** Sequences of steps of any transition system. */
module Runs {
  /** From s, the actions lead to s'. */
  ghost predicate Leads<S(!new), A>(next: (S, A, S) -> bool, s: S, acts: seq<A>, s': S)
    decreases acts
  {
    if acts == [] then s' == s
    else exists m: S :: next(s, acts[0], m) && Leads(next, m, acts[1..], s')
  }

  lemma {:induction false} LeadsOn<S(!new), A>(next: (S, A, S) -> bool, s: S, acts: seq<A>, m: S, a: A, s': S)
    requires Leads(next, s, acts, m) && next(m, a, s')
    ensures Leads(next, s, acts + [a], s')
    decreases acts
  {
    if acts == [] {
      assert (acts + [a])[1..] == [];
      assert Leads(next, s', [], s');
    } else {
      var n: S :| next(s, acts[0], n) && Leads(next, n, acts[1..], m);
      LeadsOn(next, n, acts[1..], m, a, s');
      assert (acts + [a])[1..] == acts[1..] + [a];
    }
  }

  /** Two stretches one after the other. */
  lemma {:induction false} Join<S(!new), A>(next: (S, A, S) -> bool, s: S, acts: seq<A>, m: S, more: seq<A>, s': S)
    requires Leads(next, s, acts, m) && Leads(next, m, more, s')
    ensures Leads(next, s, acts + more, s')
    decreases acts
  {
    if acts == [] {
      assert acts + more == more;
    } else {
      var n: S :| next(s, acts[0], n) && Leads(next, n, acts[1..], m);
      Join(next, n, acts[1..], m, more, s');
      assert (acts + more)[1..] == acts[1..] + more;
    }
  }

  lemma One<S(!new), A>(next: (S, A, S) -> bool, s: S, a: A, s': S)
    requires next(s, a, s')
    ensures Leads(next, s, [a], s')
  {
    assert Leads(next, s', [a][1..], s');
  }

  /** What is left of a run of deterministic steps after its first part. */
  lemma {:induction false} Rest<S(!new), A>(next: (S, A, S) -> bool, s: S, acts: seq<A>, m: S, more: seq<A>, s': S)
    requires forall x: S, a: A, y: S, z: S :: next(x, a, y) && next(x, a, z) ==> y == z
    requires Leads(next, s, acts, m) && Leads(next, s, acts + more, s')
    ensures Leads(next, m, more, s')
    decreases acts
  {
    if acts == [] {
      assert acts + more == more;
    } else {
      assert (acts + more)[1..] == acts[1..] + more;
      var n: S :| next(s, acts[0], n) && Leads(next, n, acts[1..], m);
      Rest(next, n, acts[1..], m, more, s');
    }
  }

  /** The stretch between two states of a run. */
  lemma {:induction false} Between<S(!new), A>(next: (S, A, S) -> bool, ss: seq<S>, acts: seq<A>, i: nat, j: nat)
    requires |ss| == |acts| + 1 && i <= j <= |acts|
    requires forall k :: 0 <= k < |acts| ==> next(ss[k], acts[k], ss[k + 1])
    ensures Leads(next, ss[i], acts[i..j], ss[j])
    decreases j - i
  {
    if i < j {
      assert next(ss[i], acts[i], ss[i + 1]);
      Between(next, ss, acts, i + 1, j);
      assert acts[i..j][1..] == acts[i + 1..j];
    }
  }

  /** The states passed through. */
  lemma {:induction false} Trace<S(!new), A>(next: (S, A, S) -> bool, s: S, acts: seq<A>, s': S) returns (ss: seq<S>)
    requires Leads(next, s, acts, s')
    ensures |ss| == |acts| + 1 && ss[0] == s && ss[|acts|] == s'
    ensures forall i :: 0 <= i < |acts| ==> next(ss[i], acts[i], ss[i + 1])
    decreases acts
  {
    if acts == [] {
      ss := [s];
    } else {
      var n: S :| next(s, acts[0], n) && Leads(next, n, acts[1..], s');
      var rest := Trace(next, n, acts[1..], s');
      ss := [s] + rest;
      forall i | 0 <= i < |acts|
        ensures next(ss[i], acts[i], ss[i + 1])
      {
        if i > 0 {
          assert ss[i] == rest[i - 1] && ss[i + 1] == rest[i] && acts[i] == acts[1..][i - 1];
        }
      }
    }
  }

  /** How many of the actions are of one kind. */
  function Tally<A>(kind: A -> bool, acts: seq<A>): nat {
    if acts == [] then 0
    else Tally(kind, acts[..|acts| - 1]) + (if kind(acts[|acts| - 1]) then 1 else 0)
  }

  lemma TallyNext<A>(kind: A -> bool, acts: seq<A>, a: A)
    ensures Tally(kind, acts + [a]) == Tally(kind, acts) + (if kind(a) then 1 else 0)
  {
    assert (acts + [a])[..|acts|] == acts;
  }

  lemma {:induction false} TallySplit<A>(kind: A -> bool, a: seq<A>, b: seq<A>)
    ensures Tally(kind, a + b) == Tally(kind, a) + Tally(kind, b)
    decreases |b|
  {
    if b == [] {
      assert a + b == a;
    } else {
      assert (a + b)[..|a + b| - 1] == a + b[..|b| - 1];
      TallySplit(kind, a, b[..|b| - 1]);
    }
  }
}
