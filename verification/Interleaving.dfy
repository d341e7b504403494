/**
 Threads that interleave. A machine says what one step of one thread does to the shared state
 and to the thread's program counter; a schedule lists who moves next and what the environment
 answers, so all schedules together are all interleavings of any number of threads.

 The rule proved here is rely-guarantee: a global invariant and a local invariant per thread
 hold in every run if each step keeps the global one, its own local one, and the local
 invariants of all the other threads.
 */
module Interleaving {

  type Tid = nat

  datatype State<H, P> = State(shared: H, pcs: map<Tid, P>)

  datatype Machine<!H, !P, !C> = Machine(idle: P, step: (H, Tid, P, C) -> (H, P))

  type Schedule<C> = seq<(Tid, C)>

  function PcOf<H, P, C>(m: Machine<H, P, C>, s: State<H, P>, t: Tid): P {
    if t in s.pcs then s.pcs[t] else m.idle
  }

  function Next<H, P, C>(m: Machine<H, P, C>, s: State<H, P>, t: Tid, c: C): State<H, P> {
    var r := m.step(s.shared, t, PcOf(m, s, t), c);
    State(r.0, s.pcs[t := r.1])
  }

  function Run<H, P, C>(m: Machine<H, P, C>, s: State<H, P>, schedule: Schedule<C>): State<H, P>
    decreases schedule
  {
    if schedule == [] then s
    else Run(m, Next(m, s, schedule[0].0, schedule[0].1), schedule[1..])
  }

  lemma {:induction false} RunAppend<H, P, C>(m: Machine<H, P, C>, s: State<H, P>, a: Schedule<C>, b: Schedule<C>)
    ensures Run(m, s, a + b) == Run(m, Run(m, s, a), b)
    decreases a
  {
    if a == [] {
      assert a + b == b;
    } else {
      assert (a + b)[1..] == a[1..] + b;
      RunAppend(m, Next(m, s, a[0].0, a[0].1), a[1..], b);
    }
  }

  lemma RunStep<H, P, C>(m: Machine<H, P, C>, s: State<H, P>, t: Tid, c: C, rest: Schedule<C>)
    ensures Run(m, s, [(t, c)] + rest) == Run(m, Next(m, s, t, c), rest)
  {
    assert ([(t, c)] + rest)[1..] == rest;
  }

  /** Every step of the run is one that `allowed` admits. */
  ghost predicate Follows<H, P, C>(
    m: Machine<H, P, C>, allowed: (H, Tid, P, C) -> bool, s: State<H, P>, schedule: Schedule<C>)
    decreases schedule
  {
    schedule != [] ==>
      && allowed(s.shared, schedule[0].0, PcOf(m, s, schedule[0].0), schedule[0].1)
      && Follows(m, allowed, Next(m, s, schedule[0].0, schedule[0].1), schedule[1..])
  }

  ghost predicate Satisfies<H(!new), P(!new), C>(
    m: Machine<H, P, C>, global: H -> bool, local: (H, Tid, P) -> bool, s: State<H, P>)
  {
    && global(s.shared)
    && forall t: Tid :: local(s.shared, t, PcOf(m, s, t))
  }

  /** An allowed step of `t` keeps the global invariant, `t`'s own, and everybody else's. */
  ghost predicate Guarantees<H(!new), P(!new), C(!new)>(
    m: Machine<H, P, C>, allowed: (H, Tid, P, C) -> bool, global: H -> bool, local: (H, Tid, P) -> bool)
  {
    forall h: H, t: Tid, p: P, c: C :: global(h) && local(h, t, p) && allowed(h, t, p, c) ==>
      var (h', p') := m.step(h, t, p, c);
      && global(h')
      && local(h', t, p')
      && forall u: Tid, q: P :: u != t && local(h, u, q) ==> local(h', u, q)
  }

  lemma {:induction false} RunSatisfies<H(!new), P(!new), C(!new)>(
    m: Machine<H, P, C>, allowed: (H, Tid, P, C) -> bool, global: H -> bool, local: (H, Tid, P) -> bool,
    s: State<H, P>, schedule: Schedule<C>)
    requires Guarantees(m, allowed, global, local)
    requires Satisfies(m, global, local, s) && Follows(m, allowed, s, schedule)
    ensures Satisfies(m, global, local, Run(m, s, schedule))
    decreases schedule
  {
    if schedule != [] {
      var t, c := schedule[0].0, schedule[0].1;
      var s1 := Next(m, s, t, c);
      assert local(s.shared, t, PcOf(m, s, t));
      forall u: Tid ensures local(s1.shared, u, PcOf(m, s1, u)) {
        assert local(s.shared, u, PcOf(m, s, u));
      }
      RunSatisfies(m, allowed, global, local, s1, schedule[1..]);
    }
  }

  lemma {:induction false} AnyRunFollows<H(!new), P(!new), C(!new)>(
    m: Machine<H, P, C>, allowed: (H, Tid, P, C) -> bool, s: State<H, P>, schedule: Schedule<C>)
    requires forall h, t, p, c :: allowed(h, t, p, c)
    ensures Follows(m, allowed, s, schedule)
    decreases schedule
  {
    if schedule != [] {
      AnyRunFollows(m, allowed, Next(m, s, schedule[0].0, schedule[0].1), schedule[1..]);
    }
  }

  lemma {:induction false} FollowsWeaker<H(!new), P(!new), C(!new)>(
    m: Machine<H, P, C>, strict: (H, Tid, P, C) -> bool, lax: (H, Tid, P, C) -> bool, s: State<H, P>,
    schedule: Schedule<C>)
    requires Follows(m, strict, s, schedule)
    requires forall h, t, p, c :: strict(h, t, p, c) ==> lax(h, t, p, c)
    ensures Follows(m, lax, s, schedule)
    decreases schedule
  {
    if schedule != [] {
      FollowsWeaker(m, strict, lax, Next(m, s, schedule[0].0, schedule[0].1), schedule[1..]);
    }
  }

  /** What each step relates, in states that satisfy the invariants, whole runs relate. */
  lemma {:induction false} RunRelates<H(!new), P(!new), C(!new)>(
    m: Machine<H, P, C>, allowed: (H, Tid, P, C) -> bool, global: H -> bool, local: (H, Tid, P) -> bool,
    relation: (H, H) -> bool, s: State<H, P>, schedule: Schedule<C>)
    requires Guarantees(m, allowed, global, local)
    requires Satisfies(m, global, local, s) && Follows(m, allowed, s, schedule)
    requires forall h :: relation(h, h)
    requires forall h1, h2, h3 :: relation(h1, h2) && relation(h2, h3) ==> relation(h1, h3)
    requires forall h, t, p, c :: global(h) && local(h, t, p) && allowed(h, t, p, c) ==>
        relation(h, m.step(h, t, p, c).0)
    ensures relation(s.shared, Run(m, s, schedule).shared)
    decreases schedule
  {
    if schedule != [] {
      var t, c := schedule[0].0, schedule[0].1;
      var s1 := Next(m, s, t, c);
      assert local(s.shared, t, PcOf(m, s, t));
      RunSatisfies(m, allowed, global, local, s, [schedule[0]]);
      assert Run(m, s1, []) == s1 && Run(m, s, [schedule[0]]) == s1;
      RunRelates(m, allowed, global, local, relation, s1, schedule[1..]);
      assert relation(s.shared, s1.shared);
    }
  }

  // ------------------------------------------------------------------ one thread alone

  /** Thread `t` moves alone, `n` steps, with the same choice each time. */
  function Alone<C>(t: Tid, n: nat, c: C): (schedule: Schedule<C>)
    ensures |schedule| == n && forall i :: 0 <= i < n ==> schedule[i] == (t, c)
  {
    if n == 0 then [] else [(t, c)] + Alone(t, n - 1, c)
  }

  lemma AloneSplits<C>(t: Tid, n: nat, k: nat, c: C)
    ensures Alone(t, n + k, c) == Alone(t, n, c) + Alone(t, k, c)
  {
  }

  lemma AloneStep<H, P, C>(m: Machine<H, P, C>, s: State<H, P>, t: Tid, n: nat, c: C)
    requires n > 0
    ensures Run(m, s, Alone(t, n, c)) == Run(m, Next(m, s, t, c), Alone(t, n - 1, c))
  {
    RunStep(m, s, t, c, Alone(t, n - 1, c));
  }

  /** The first of `n` steps alone, from any state. */
  lemma Depart<H, P, C>(m: Machine<H, P, C>, s: State<H, P>, t: Tid, n: nat, c: C, h': H, pc': P)
    requires n > 0 && m.step(s.shared, t, PcOf(m, s, t), c) == (h', pc')
    ensures Run(m, s, Alone(t, n, c)) == Run(m, State(h', s.pcs[t := pc']), Alone(t, n - 1, c))
  {
    AloneStep(m, s, t, n, c);
  }

  /** One of the later steps. */
  lemma Advance<H, P, C>(m: Machine<H, P, C>, h: H, pcs: map<Tid, P>, t: Tid, pc: P, n: nat, c: C, h': H, pc': P)
    requires n > 0 && m.step(h, t, pc, c) == (h', pc')
    ensures Run(m, State(h, pcs[t := pc]), Alone(t, n, c)) == Run(m, State(h', pcs[t := pc']), Alone(t, n - 1, c))
  {
    AloneStep(m, State(h, pcs[t := pc]), t, n, c);
    assert pcs[t := pc][t := pc'] == pcs[t := pc'];
  }

  // ------------------------------------------------------------------ counting along a run

  /** A number that the steps of thread `t` change, looking at its program counter before and after. */
  function Tally<H, P, C>(
    m: Machine<H, P, C>, s: State<H, P>, schedule: Schedule<C>, t: Tid, n: nat, count: (P, P, nat) -> nat): nat
    decreases schedule
  {
    if schedule == [] then n
    else
      var s1 := Next(m, s, schedule[0].0, schedule[0].1);
      var n1 := if schedule[0].0 == t then count(PcOf(m, s, t), PcOf(m, s1, t), n) else n;
      Tally(m, s1, schedule[1..], t, n1, count)
  }

  /** What each step of `t` keeps between its program counter and the number, whole runs keep. */
  lemma {:induction false} TallyKeeps<H(!new), P(!new), C(!new)>(
    m: Machine<H, P, C>, s: State<H, P>, schedule: Schedule<C>, t: Tid, n: nat, count: (P, P, nat) -> nat,
    keeps: (P, nat) -> bool)
    requires keeps(PcOf(m, s, t), n)
    requires forall h: H, p: P, c: C, k: nat :: keeps(p, k) ==>
        keeps(m.step(h, t, p, c).1, count(p, m.step(h, t, p, c).1, k))
    ensures keeps(PcOf(m, Run(m, s, schedule), t), Tally(m, s, schedule, t, n, count))
    decreases schedule
  {
    if schedule != [] {
      var s1 := Next(m, s, schedule[0].0, schedule[0].1);
      var n1 := if schedule[0].0 == t then count(PcOf(m, s, t), PcOf(m, s1, t), n) else n;
      TallyKeeps(m, s1, schedule[1..], t, n1, count, keeps);
    }
  }

  // ------------------------------------------------------------------ what can still happen

  /** Some continuation of admitted steps leads to a shared state with the property. */
  ghost predicate CanReach<H(!new), P(!new), C(!new)>(
    m: Machine<H, P, C>, allowed: (H, Tid, P, C) -> bool, goal: H -> bool, s: State<H, P>)
  {
    exists schedule: Schedule<C> :: Follows(m, allowed, s, schedule) && goal(Run(m, s, schedule).shared)
  }

  lemma ReachedNow<H(!new), P(!new), C(!new)>(
    m: Machine<H, P, C>, allowed: (H, Tid, P, C) -> bool, goal: H -> bool, s: State<H, P>)
    requires goal(s.shared)
    ensures CanReach(m, allowed, goal, s)
  {
    var none: Schedule<C> := [];
    assert Follows(m, allowed, s, none) && Run(m, s, none) == s;
  }

  lemma ReachedAfter<H(!new), P(!new), C(!new)>(
    m: Machine<H, P, C>, allowed: (H, Tid, P, C) -> bool, goal: H -> bool, s: State<H, P>, t: Tid, c: C)
    requires allowed(s.shared, t, PcOf(m, s, t), c) && CanReach(m, allowed, goal, Next(m, s, t, c))
    ensures CanReach(m, allowed, goal, s)
  {
    var rest: Schedule<C> :| Follows(m, allowed, Next(m, s, t, c), rest) && goal(Run(m, Next(m, s, t, c), rest).shared);
    var schedule := [(t, c)] + rest;
    assert schedule[1..] == rest;
    RunStep(m, s, t, c, rest);
    assert Follows(m, allowed, s, schedule);
  }
}
