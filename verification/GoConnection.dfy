/**
 The Go `ManagedConnection`: any number of goroutines call `Write`, `Close` and `reconnect`.
 One goroutine at a time leads the retry loop, elected through the `reconnecting` flag; the
 others poll until a connection appears. Every step is one access to shared state, and the
 schedule decides which operations on connections succeed.
 */
module GoConnection {
  import opened Wrappers
  import opened Interleaving

  type Conn = nat

  /**
   Who called `reconnect`: `Write` without a connection, `Write` after an error, or
   `ConnectBlocking`/`ConnectNonBlocking`.
   */
  datatype Caller = First | Again | Standalone

  datatype Pc =
    | Idle
    | WriteLocking
    | WriteEntered
    | UseLocking
    | Using                                   // about to call currentConn.Write
    | Dropping                                // the write failed
    | RetryLocking
    | Retrying
    | ErrorLocking
    | Panicked                                // called Write on a nil interface
    | CloseLocking
    | CloseEntered
    | CloseShutting
    | Joining(caller: Caller)                 // top of reconnect, waiting for the mutex
    | Deciding(caller: Caller)
    | Waiting(caller: Caller)                 // another goroutine leads; about to poll
    | Polling(caller: Caller)
    | Testing(caller: Caller, i: nat)         // about to call isClosing
    | TestEntered(caller: Caller, i: nat)
    | Dialing(caller: Caller, i: nat)
    | Installing(caller: Caller, conn: Conn)  // dialed, waiting for the mutex
    | InstallEntered(caller: Caller, conn: Conn)
    | BackingOff(caller: Caller, i: nat)
    | GivingUp(caller: Caller)                // about to lock and clear the flag

  /**
   The first four fields are the program's. The rest is history: connections are numbered in
   the order in which they are dialed; `installed` and `down` record those ever stored in
   `currentConn` and those closed; `late` counts the dials made after `closing` was closed;
   `leader` is the goroutine that set `reconnecting`, `carried` the connection it has dialed
   and not yet disposed of; `closeReturned` says that some `Close` returned.
   */
  datatype Shared = Shared(
    lock: Option<Tid>,
    closing: bool,
    reconnecting: bool,
    current: Option<Conn>,
    dialed: nat,
    installed: set<Conn>,
    down: set<Conn>,
    late: nat,
    leader: Option<Tid>,
    carried: Option<Conn>,
    closeReturned: bool)

  datatype Call = CallWrite | CallClose | CallReconnect

  /**
   What the environment decides at one step: the next call, and whether a dial or write succeeds
   (when backing off: whether the timer fires first).
   */
  datatype Choice = Choice(call: Call, ok: bool)

  function Acquire(h: Shared, t: Tid, waiting: Pc, entered: Pc): (Shared, Pc) {
    if h.lock.None? then (h.(lock := Some(t)), entered) else (h, waiting)
  }

  function Release(h: Shared, pc: Pc): (Shared, Pc) {
    (h.(lock := None), pc)
  }

  function Lead(h: Shared, t: Tid, caller: Caller): (Shared, Pc) {
    (h.(lock := None, reconnecting := true, leader := Some(t)), Testing(caller, 0))
  }

  /** Where a `reconnect` that returned nil continues. */
  function Success(caller: Caller): Pc {
    match caller
    case First => UseLocking
    case Again => RetryLocking
    case Standalone => Idle
  }

  /** Where a `reconnect` that returned an error continues. */
  function Failure(caller: Caller): Pc {
    if caller.Standalone? then Idle else ErrorLocking
  }

  function Shut(h: Shared): set<Conn> {
    if h.current.Some? then h.down + {h.current.value} else h.down
  }

  function Begin(call: Call): Pc {
    match call
    case CallWrite => WriteLocking
    case CallClose => CloseLocking
    case CallReconnect => Joining(Standalone)
  }

  function StepCall(h: Shared, t: Tid, pc: Pc, c: Choice): (Shared, Pc) {
    match pc
    case Idle => (h, Begin(c.call))
    case WriteLocking => Acquire(h, t, pc, WriteEntered)
    case WriteEntered => if h.current.None? then Release(h, Joining(First)) else (h, Using)
    case UseLocking => Acquire(h, t, pc, Using)
    case Using =>
      if h.current.None? then Release(h, Panicked)
      else if c.ok then Release(h, Idle)
      else (h, Dropping)
    case Dropping => (h.(lock := None, down := Shut(h), current := None), Joining(Again))
    case RetryLocking => Acquire(h, t, pc, Retrying)
    case Retrying => Release(h, Idle)         // nil check, then the second write: returns either way
    case ErrorLocking => if h.lock.None? then (h, Idle) else (h, pc)
    case CloseLocking => Acquire(h, t, pc, CloseEntered)
    case CloseEntered => (h.(closing := true), CloseShutting)
    case CloseShutting => (h.(lock := None, down := Shut(h), closeReturned := true), Idle)
    case _ => (h, pc)
  }

  function Step(maxRetries: int, h: Shared, t: Tid, pc: Pc, c: Choice): (Shared, Pc) {
    match pc
    case Joining(caller) => Acquire(h, t, pc, Deciding(caller))
    case Deciding(caller) => if h.reconnecting then Release(h, Waiting(caller)) else Lead(h, t, caller)
    case Waiting(caller) => Acquire(h, t, pc, Polling(caller))
    case Polling(caller) =>
      if h.current.Some? then Release(h, Success(caller))
      else if !h.reconnecting then Lead(h, t, caller)
      else Release(h, Waiting(caller))
    case Testing(caller, i) => Acquire(h, t, pc, TestEntered(caller, i))
    case TestEntered(caller, i) => Release(h, if h.closing then GivingUp(caller) else Dialing(caller, i))
    case Dialing(caller, i) =>
      var late := if h.closing then h.late + 1 else h.late;
      if c.ok
      then (h.(dialed := h.dialed + 1, carried := Some(h.dialed), late := late), Installing(caller, h.dialed))
      else (h.(late := late), if maxRetries != -1 && i >= maxRetries then GivingUp(caller) else BackingOff(caller, i))
    case Installing(caller, k) => Acquire(h, t, pc, InstallEntered(caller, k))
    case InstallEntered(caller, k) =>
      if h.closing
      then (h.(lock := None, down := h.down + {k}, reconnecting := false, leader := None, carried := None),
          Failure(caller))
      else (h.(lock := None, current := Some(k), installed := h.installed + {k},
               reconnecting := false, leader := None, carried := None), Success(caller))
    case BackingOff(caller, i) =>
      (h, if c.ok || !h.closing then Testing(caller, i + 1) else GivingUp(caller))
    case GivingUp(caller) =>
      if h.lock.None? then (h.(reconnecting := false, leader := None), Failure(caller)) else (h, pc)
    case _ => StepCall(h, t, pc, c)
  }

  function Go(maxRetries: int): Machine<Shared, Pc, Choice> {
    Machine(Idle, (h, t, pc, c) => Step(maxRetries, h, t, pc, c))
  }

  const INITIAL: State<Shared, Pc> :=
    State(Shared(None, false, false, None, 0, {}, {}, 0, None, None, false), map[])

  /** The state after a schedule that starts with an unconnected object and idle goroutines. */
  function After(maxRetries: int, schedule: Schedule<Choice>): State<Shared, Pc> {
    Run(Go(maxRetries), INITIAL, schedule)
  }

  function At(s: State<Shared, Pc>, t: Tid): Pc {
    if t in s.pcs then s.pcs[t] else Idle
  }

  // ------------------------------------------------------------------ the invariant

  predicate Holds(pc: Pc) {
    pc.WriteEntered? || pc.Using? || pc.Dropping? || pc.Retrying? || pc.CloseEntered? || pc.CloseShutting?
    || pc.Deciding? || pc.Polling? || pc.TestEntered? || pc.InstallEntered?
  }

  /** Inside the retry loop, from setting `reconnecting` to clearing it. */
  predicate Leads(pc: Pc) {
    pc.Testing? || pc.TestEntered? || pc.Dialing? || pc.Installing? || pc.InstallEntered?
    || pc.BackingOff? || pc.GivingUp?
  }

  predicate Carries(pc: Pc) {
    pc.Installing? || pc.InstallEntered?
  }

  predicate CurrentDown(h: Shared) {
    h.current.Some? ==> h.current.value in h.down
  }

  ghost predicate Ledger(h: Shared) {
    && (h.current.Some? ==> h.current.value in h.installed)
    && (forall k <- h.installed :: k < h.dialed)
    && (forall k <- h.down :: k < h.dialed)
    && (forall k: Conn :: k < h.dialed ==> k in h.installed || k in h.down || h.carried == Some(k))
    && (h.carried.Some? ==>
          h.carried.value + 1 == h.dialed && h.carried.value !in h.installed && h.carried.value !in h.down)
  }

  ghost predicate Flags(h: Shared) {
    && (h.reconnecting <==> h.leader.Some?)
    && (h.carried.Some? ==> h.leader.Some?)
    && h.late <= 1
    && (!h.closing ==> h.late == 0)
    && (h.closeReturned ==> h.closing && CurrentDown(h))
  }

  ghost predicate Global(h: Shared) {
    Ledger(h) && Flags(h)
  }

  predicate Local(h: Shared, t: Tid, pc: Pc) {
    && (Holds(pc) <==> h.lock == Some(t))
    && (Leads(pc) <==> h.leader == Some(t))
    && (Carries(pc) ==> h.carried == Some(pc.conn))
    && (h.leader == Some(t) && h.carried.Some? ==> Carries(pc))
    && (pc.Dialing? && h.closing ==> h.late == 0)
    && (pc.CloseShutting? ==> h.closing)
  }

  predicate Any(h: Shared, t: Tid, pc: Pc, c: Choice) { true }

  /** Inside `reconnect`, as leader or on the way to it. */
  predicate InReconnect(pc: Pc) {
    pc.Joining? || pc.Deciding? || pc.Waiting? || pc.Polling? || Leads(pc)
  }

  lemma CallStepGuaranteesGlobal(h: Shared, t: Tid, pc: Pc, c: Choice)
    requires Global(h) && Local(h, t, pc)
    ensures Global(StepCall(h, t, pc, c).0)
  {
  }

  lemma LoopStepGuaranteesLedger(maxRetries: int, h: Shared, t: Tid, pc: Pc, c: Choice)
    requires Global(h) && Local(h, t, pc) && InReconnect(pc)
    ensures Ledger(Step(maxRetries, h, t, pc, c).0)
  {
  }

  lemma LoopStepGuaranteesFlags(maxRetries: int, h: Shared, t: Tid, pc: Pc, c: Choice)
    requires Global(h) && Local(h, t, pc) && InReconnect(pc)
    ensures Flags(Step(maxRetries, h, t, pc, c).0)
  {
  }

  lemma StepGuaranteesGlobal(maxRetries: int, h: Shared, t: Tid, pc: Pc, c: Choice)
    requires Global(h) && Local(h, t, pc)
    ensures Global(Step(maxRetries, h, t, pc, c).0)
  {
    if InReconnect(pc) {
      LoopStepGuaranteesLedger(maxRetries, h, t, pc, c);
      LoopStepGuaranteesFlags(maxRetries, h, t, pc, c);
    } else {
      CallStepGuaranteesGlobal(h, t, pc, c);
    }
  }

  lemma CallStepGuaranteesSelf(h: Shared, t: Tid, pc: Pc, c: Choice)
    requires Global(h) && Local(h, t, pc)
    ensures var (h', pc') := StepCall(h, t, pc, c); Local(h', t, pc')
  {
  }

  lemma LoopStepGuaranteesSelf(maxRetries: int, h: Shared, t: Tid, pc: Pc, c: Choice)
    requires Global(h) && Local(h, t, pc) && InReconnect(pc)
    ensures var (h', pc') := Step(maxRetries, h, t, pc, c); Local(h', t, pc')
  {
  }

  lemma StepGuaranteesSelf(maxRetries: int, h: Shared, t: Tid, pc: Pc, c: Choice)
    requires Global(h) && Local(h, t, pc)
    ensures var (h', pc') := Step(maxRetries, h, t, pc, c); Local(h', t, pc')
  {
    if InReconnect(pc) {
      LoopStepGuaranteesSelf(maxRetries, h, t, pc, c);
    } else {
      CallStepGuaranteesSelf(h, t, pc, c);
    }
  }

  lemma StepGuaranteesOthers(maxRetries: int, h: Shared, t: Tid, pc: Pc, c: Choice, u: Tid, q: Pc)
    requires Global(h) && Local(h, t, pc) && u != t && Local(h, u, q)
    ensures Local(Step(maxRetries, h, t, pc, c).0, u, q)
  {
  }

  lemma GoGuarantees(maxRetries: int)
    ensures Guarantees(Go(maxRetries), Any, Global, Local)
  {
    forall h: Shared, t: Tid, pc: Pc, c: Choice | Global(h) && Local(h, t, pc)
      ensures var (h', pc') := Go(maxRetries).step(h, t, pc, c);
              && Global(h') && Local(h', t, pc')
              && forall u: Tid, q: Pc :: u != t && Local(h, u, q) ==> Local(h', u, q)
    {
      StepGuaranteesGlobal(maxRetries, h, t, pc, c);
      StepGuaranteesSelf(maxRetries, h, t, pc, c);
      forall u: Tid, q: Pc | u != t && Local(h, u, q) ensures Local(Step(maxRetries, h, t, pc, c).0, u, q) {
        StepGuaranteesOthers(maxRetries, h, t, pc, c, u, q);
      }
    }
  }

  lemma Reached(maxRetries: int, schedule: Schedule<Choice>)
    ensures Satisfies(Go(maxRetries), Global, Local, After(maxRetries, schedule))
  {
    GoGuarantees(maxRetries);
    AnyRunFollows(Go(maxRetries), Any, INITIAL, schedule);
    RunSatisfies(Go(maxRetries), Any, Global, Local, INITIAL, schedule);
  }

  lemma ReachedAt(maxRetries: int, schedule: Schedule<Choice>, t: Tid)
    ensures var s := After(maxRetries, schedule); Global(s.shared) && Local(s.shared, t, At(s, t))
  {
    Reached(maxRetries, schedule);
    assert Local(After(maxRetries, schedule).shared, t, PcOf(Go(maxRetries), After(maxRetries, schedule), t));
  }

  // ------------------------------------------------------------------ what every run keeps

  /** `reconnecting` is set exactly while one goroutine is inside the retry loop, and never two are. */
  lemma OneLeader(maxRetries: int, schedule: Schedule<Choice>, t: Tid, u: Tid)
    ensures var s := After(maxRetries, schedule);
            && (Leads(At(s, t)) && Leads(At(s, u)) ==> t == u)
            && (s.shared.reconnecting <==> exists w :: Leads(At(s, w)))
  {
    ReachedAt(maxRetries, schedule, t);
    ReachedAt(maxRetries, schedule, u);
    var s := After(maxRetries, schedule);
    if s.shared.reconnecting {
      ReachedAt(maxRetries, schedule, s.shared.leader.value);
      assert Leads(At(s, s.shared.leader.value));
    }
    forall w | Leads(At(s, w)) ensures s.shared.reconnecting {
      ReachedAt(maxRetries, schedule, w);
    }
  }

  /**
   Every connection ever dialed has been installed or closed, or is in the hands of the one
   goroutine in the retry loop.
   */
  lemma EveryDialIsAccountedFor(maxRetries: int, schedule: Schedule<Choice>, k: Conn)
    ensures var s := After(maxRetries, schedule);
            k < s.shared.dialed ==>
              k in s.shared.installed || k in s.shared.down || exists w :: Carries(At(s, w)) && At(s, w).conn == k
  {
    Reached(maxRetries, schedule);
    var s := After(maxRetries, schedule);
    if s.shared.carried.Some? {
      ReachedAt(maxRetries, schedule, s.shared.leader.value);
      assert Carries(At(s, s.shared.leader.value));
    }
  }

  /** How the shared state of a run may evolve from `h` to `h'`. */
  predicate Evolves(h: Shared, h': Shared) {
    && h.dialed <= h'.dialed && h.installed <= h'.installed && h.down <= h'.down
    && (h.closing ==>
          && h'.closing
          && h'.installed == h.installed
          && (h'.current == h.current || h'.current.None?)
          && h'.dialed - h.dialed <= h'.late - h.late)
    && (h.closeReturned ==> h'.closeReturned)
  }

  lemma StepEvolves(maxRetries: int, h: Shared, t: Tid, pc: Pc, c: Choice)
    ensures Evolves(h, Step(maxRetries, h, t, pc, c).0)
  {
  }

  lemma RunEvolves(maxRetries: int, a: Schedule<Choice>, b: Schedule<Choice>)
    ensures Evolves(After(maxRetries, a).shared, After(maxRetries, a + b).shared)
  {
    GoGuarantees(maxRetries);
    Reached(maxRetries, a);
    var m, s := Go(maxRetries), After(maxRetries, a);
    forall h, t, pc, c ensures Evolves(h, m.step(h, t, pc, c).0) {
      StepEvolves(maxRetries, h, t, pc, c);
    }
    AnyRunFollows(m, Any, s, b);
    RunRelates(m, Any, Global, Local, Evolves, s, b);
    RunAppend(m, INITIAL, a, b);
  }

  /**
   Once `closing` is closed no run installs a connection again: `currentConn` keeps its value or
   becomes nil, at most one more dial is made, and its connection is closed or still carried.
   */
  lemma NothingIsInstalledAfterClosing(maxRetries: int, a: Schedule<Choice>, b: Schedule<Choice>)
    requires After(maxRetries, a).shared.closing
    ensures var h, h' := After(maxRetries, a).shared, After(maxRetries, a + b).shared;
            && h'.installed == h.installed
            && (h'.current == h.current || h'.current.None?)
            && h.dialed <= h'.dialed <= h.dialed + 1
            && (forall k: Conn :: h.dialed <= k < h'.dialed ==> k in h'.down || h'.carried == Some(k))
  {
    Reached(maxRetries, a);
    Reached(maxRetries, a + b);
    RunEvolves(maxRetries, a, b);
  }

  /** After any `Close` returned, `currentConn` is nil or closed, in every continuation. */
  lemma CloseIsFinal(maxRetries: int, a: Schedule<Choice>, b: Schedule<Choice>)
    requires After(maxRetries, a).shared.closeReturned
    ensures var h := After(maxRetries, a + b).shared; h.current.Some? ==> h.current.value in h.down
  {
    Reached(maxRetries, a + b);
    RunEvolves(maxRetries, a, b);
  }

  // ------------------------------------------------------------------ lost connections

  /** `currentConn` is a connection that nobody closed. */
  predicate Live(h: Shared) {
    h.current.Some? && h.current.value !in h.down
  }

  /** Installed once, never closed, and no longer reachable. */
  function Lost(h: Shared): set<Conn> {
    set k | k in h.installed && k !in h.down && h.current != Some(k)
  }

  /** The live connection that the next step of a goroutine at `pc` overwrites. */
  function Overwritten(h: Shared, pc: Pc): set<Conn> {
    if pc.InstallEntered? && !h.closing && Live(h) then {h.current.value} else {}
  }

  /** In every run a step loses a connection exactly when it installs another one over a live one. */
  lemma LostIff(maxRetries: int, schedule: Schedule<Choice>, t: Tid, c: Choice)
    ensures var h, pc := After(maxRetries, schedule).shared, At(After(maxRetries, schedule), t);
            Lost(Step(maxRetries, h, t, pc, c).0) == Lost(h) + Overwritten(h, pc)
  {
    ReachedAt(maxRetries, schedule, t);
  }

  /** Leadership is only taken directly while `currentConn` is nil or closed. */
  predicate LeadsOnlyWhenDown(h: Shared, t: Tid, pc: Pc, c: Choice) {
    pc.Deciding? && !h.reconnecting ==> !Live(h)
  }

  ghost predicate NoneLost(h: Shared) {
    Global(h) && Lost(h) == {}
  }

  predicate LeaderSeesDown(h: Shared, t: Tid, pc: Pc) {
    Local(h, t, pc) && (Leads(pc) ==> !Live(h))
  }

  lemma StepLosesNothing(maxRetries: int, h: Shared, t: Tid, pc: Pc, c: Choice)
    requires NoneLost(h) && LeaderSeesDown(h, t, pc) && LeadsOnlyWhenDown(h, t, pc, c)
    ensures Lost(Step(maxRetries, h, t, pc, c).0) == {}
  {
  }

  lemma StepKeepsDown(maxRetries: int, h: Shared, t: Tid, pc: Pc, c: Choice, u: Tid, q: Pc)
    requires NoneLost(h) && LeaderSeesDown(h, t, pc) && LeadsOnlyWhenDown(h, t, pc, c)
    ensures var (h', pc') := Step(maxRetries, h, t, pc, c);
            && (Leads(pc') ==> !Live(h'))
            && (u != t && LeaderSeesDown(h, u, q) && Leads(q) ==> !Live(h'))
  {
  }

  /**
   If leadership is never taken directly over a live connection, no run loses a connection: each
   one ever dialed is current, closed, or carried by the leader.
   */
  lemma GuardedRunsLoseNothing(maxRetries: int, schedule: Schedule<Choice>)
    requires Follows(Go(maxRetries), LeadsOnlyWhenDown, INITIAL, schedule)
    ensures var h := After(maxRetries, schedule).shared;
            forall k: Conn :: k < h.dialed ==> h.current == Some(k) || k in h.down || h.carried == Some(k)
  {
    var m := Go(maxRetries);
    forall h: Shared, t: Tid, pc: Pc, c: Choice
        | NoneLost(h) && LeaderSeesDown(h, t, pc) && LeadsOnlyWhenDown(h, t, pc, c)
      ensures var (h', pc') := m.step(h, t, pc, c);
              && NoneLost(h') && LeaderSeesDown(h', t, pc')
              && forall u: Tid, q: Pc :: u != t && LeaderSeesDown(h, u, q) ==> LeaderSeesDown(h', u, q)
    {
      StepGuaranteesGlobal(maxRetries, h, t, pc, c);
      StepGuaranteesSelf(maxRetries, h, t, pc, c);
      StepLosesNothing(maxRetries, h, t, pc, c);
      StepKeepsDown(maxRetries, h, t, pc, c, t, pc);
      forall u: Tid, q: Pc | u != t && LeaderSeesDown(h, u, q)
          ensures LeaderSeesDown(Step(maxRetries, h, t, pc, c).0, u, q) {
        StepGuaranteesOthers(maxRetries, h, t, pc, c, u, q);
        StepKeepsDown(maxRetries, h, t, pc, c, u, q);
      }
    }
    RunSatisfies(m, LeadsOnlyWhenDown, NoneLost, LeaderSeesDown, INITIAL, schedule);
    var h := After(maxRetries, schedule).shared;
    forall k: Conn | k < h.dialed ensures h.current == Some(k) || k in h.down || h.carried == Some(k) {
      assert k !in Lost(h);
    }
  }

  const MOVE := Choice(CallReconnect, true)

  predicate ReadyToReconnect(s: State<Shared, Pc>, t: Tid) {
    At(s, t).Joining? && s.shared.lock.None? && !s.shared.reconnecting && !s.shared.closing
  }

  function Elected(s: State<Shared, Pc>, t: Tid): State<Shared, Pc>
    requires At(s, t).Joining?
  {
    State(s.shared.(reconnecting := true, leader := Some(t)), s.pcs[t := Dialing(At(s, t).caller, 0)])
  }

  /** `s` after goroutine `t` has dialed and installed a new connection, and returned from `reconnect`. */
  function Connected(s: State<Shared, Pc>, t: Tid, caller: Caller): State<Shared, Pc> {
    var h, k := s.shared, s.shared.dialed;
    State(h.(dialed := k + 1, current := Some(k), installed := h.installed + {k},
             reconnecting := false, leader := None, carried := None),
          s.pcs[t := Success(caller)])
  }

  /** An attempt starts with a look at `closing`. */
  lemma AttemptTests(maxRetries: int, h: Shared, pcs: map<Tid, Pc>, t: Tid, caller: Caller, i: nat, n: nat, c: Choice)
    requires h.lock.None? && n >= 2
    ensures Run(Go(maxRetries), State(h, pcs[t := Testing(caller, i)]), Alone(t, n, c))
         == Run(Go(maxRetries), State(h, pcs[t := if h.closing then GivingUp(caller) else Dialing(caller, i)]),
                Alone(t, n - 2, c))
  {
    var m, locked := Go(maxRetries), h.(lock := Some(t));
    var pc := if h.closing then GivingUp(caller) else Dialing(caller, i);
    Advance(m, h, pcs, t, Testing(caller, i), n, c, locked, TestEntered(caller, i));
    Advance(m, locked, pcs, t, TestEntered(caller, i), n - 1, c, h, pc);
  }

  /** Joining while nobody leads takes leadership. */
  lemma JoinerLeads(maxRetries: int, h: Shared, pcs: map<Tid, Pc>, t: Tid, caller: Caller, n: nat, c: Choice)
    requires h.lock.None? && !h.reconnecting && n >= 2
    ensures Run(Go(maxRetries), State(h, pcs[t := Joining(caller)]), Alone(t, n, c))
         == Run(Go(maxRetries), State(h.(reconnecting := true, leader := Some(t)), pcs[t := Testing(caller, 0)]),
                Alone(t, n - 2, c))
  {
    var m, led := Go(maxRetries), h.(reconnecting := true, leader := Some(t));
    Advance(m, h, pcs, t, Joining(caller), n, c, h.(lock := Some(t)), Deciding(caller));
    Advance(m, h.(lock := Some(t)), pcs, t, Deciding(caller), n - 1, c, led, Testing(caller, 0));
  }

  lemma LoneLeaderDials(maxRetries: int, s: State<Shared, Pc>, t: Tid, n: nat, c: Choice)
    requires ReadyToReconnect(s, t) && c.ok && n >= 4
    ensures Run(Go(maxRetries), s, Alone(t, n, c)) == Run(Go(maxRetries), Elected(s, t), Alone(t, n - 4, c))
  {
    var caller := At(s, t).caller;
    assert s.pcs == s.pcs[t := Joining(caller)];
    JoinerLeads(maxRetries, s.shared, s.pcs, t, caller, n, c);
    AttemptTests(maxRetries, s.shared.(reconnecting := true, leader := Some(t)), s.pcs, t, caller, 0, n - 2, c);
  }

  lemma LoneDialInstalls(maxRetries: int, s: State<Shared, Pc>, t: Tid, n: nat, c: Choice)
    requires At(s, t).Dialing? && s.shared.lock.None? && !s.shared.closing && c.ok && n >= 3
    ensures Run(Go(maxRetries), s, Alone(t, n, c))
         == Run(Go(maxRetries), Connected(s, t, At(s, t).caller), Alone(t, n - 3, c))
  {
    var m, h, caller, k := Go(maxRetries), s.shared, At(s, t).caller, s.shared.dialed;
    var dialed := h.(dialed := k + 1, carried := Some(k));
    var connected := Connected(s, t, caller);
    Depart(m, s, t, n, c, dialed, Installing(caller, k));
    Advance(m, dialed, s.pcs, t, Installing(caller, k), n - 1, c, dialed.(lock := Some(t)), InstallEntered(caller, k));
    Advance(m, dialed.(lock := Some(t)), s.pcs, t, InstallEntered(caller, k), n - 2, c,
            connected.shared, Success(caller));
  }

  /** A goroutine that enters `reconnect` undisturbed installs a new connection within seven steps. */
  lemma LoneReconnect(maxRetries: int, s: State<Shared, Pc>, t: Tid, n: nat, c: Choice)
    requires ReadyToReconnect(s, t) && c.ok && n >= 7
    ensures Run(Go(maxRetries), s, Alone(t, n, c))
         == Run(Go(maxRetries), Connected(s, t, At(s, t).caller), Alone(t, n - 7, c))
  {
    var caller := At(s, t).caller;
    var s1 := Elected(s, t);
    LoneLeaderDials(maxRetries, s, t, n, c);
    LoneDialInstalls(maxRetries, s1, t, n - 4, c);
    assert s1.pcs[t := Success(caller)] == s.pcs[t := Success(caller)];
  }

  /**
   Taking leadership directly loses exactly the live connection it finds: the flag alone is
   checked, so the guard of `GuardedRunsLoseNothing` is also necessary.
   */
  lemma DirectLeaderLosesIffLive(maxRetries: int, schedule: Schedule<Choice>, t: Tid, c: Choice)
    requires ReadyToReconnect(After(maxRetries, schedule), t) && c.ok
    ensures var h, h' := After(maxRetries, schedule).shared, After(maxRetries, schedule + Alone(t, 7, c)).shared;
            Lost(h') == Lost(h) + (if Live(h) then {h.current.value} else {})
  {
    Reached(maxRetries, schedule);
    RunAppend(Go(maxRetries), INITIAL, schedule, Alone(t, 7, c));
    LoneReconnect(maxRetries, After(maxRetries, schedule), t, 7, c);
  }

  const WRITE := Choice(CallWrite, true)

  /** A background `reconnect` and a `Write` race: both reach the top of `reconnect` before either holds the mutex. */
  lemma TwoAtTheDoor(maxRetries: int, rest: Schedule<Choice>)
    ensures After(maxRetries, [(0, WRITE)] + ([(0, WRITE)] + ([(0, WRITE)] + ([(1, MOVE)] + rest))))
         == Run(Go(maxRetries), State(INITIAL.shared, map[0 := Joining(First), 1 := Joining(Standalone)]), rest)
  {
    var m := Go(maxRetries);
    RunStep(m, INITIAL, 0, WRITE, [(0, WRITE)] + ([(0, WRITE)] + ([(1, MOVE)] + rest)));
    var s1 := Next(m, INITIAL, 0, WRITE);
    RunStep(m, s1, 0, WRITE, [(0, WRITE)] + ([(1, MOVE)] + rest));
    var s2 := Next(m, s1, 0, WRITE);
    RunStep(m, s2, 0, WRITE, [(1, MOVE)] + rest);
    var s3 := Next(m, s2, 0, WRITE);
    assert At(s3, 0) == Joining(First);
    RunStep(m, s3, 1, MOVE, rest);
    var s4 := Next(m, s3, 1, MOVE);
    assert s4.pcs == map[0 := Joining(First), 1 := Joining(Standalone)];
  }

  /** So a live connection really can be overwritten and lost. */
  lemma LossIsReachable(maxRetries: int)
    ensures exists schedule :: 0 in Lost(After(maxRetries, schedule).shared)
  {
    var m := Go(maxRetries);
    TwoAtTheDoor(maxRetries, []);
    TwoAtTheDoor(maxRetries, Alone(1, 7, MOVE));
    var start := [(0, WRITE)] + ([(0, WRITE)] + ([(0, WRITE)] + ([(1, MOVE)] + Alone(1, 7, MOVE))));
    var s := State(INITIAL.shared, map[0 := Joining(First), 1 := Joining(Standalone)]);
    LoneReconnect(maxRetries, s, 1, 7, MOVE);
    assert At(After(maxRetries, start), 0) == Joining(First);
    DirectLeaderLosesIffLive(maxRetries, start, 0, MOVE);
    assert 0 in Lost(After(maxRetries, start + Alone(0, 7, MOVE)).shared);
  }

  // ------------------------------------------------------------------ exactly whose calls lose connections

  /** Only `writers` call `Write` and only `reconnectors` call `reconnect`; anybody may close. */
  function Permitted(writers: iset<Tid>, reconnectors: iset<Tid>): (Shared, Tid, Pc, Choice) -> bool {
    (h: Shared, t: Tid, pc: Pc, c: Choice) => pc.Idle? ==> MayCall(writers, reconnectors, t, c.call)
  }

  predicate MayCall(writers: iset<Tid>, reconnectors: iset<Tid>, t: Tid, call: Call) {
    (call.CallWrite? ==> t in writers) && (call.CallReconnect? ==> t in reconnectors)
  }

  /** Some run of the permitted calls loses a connection. */
  ghost predicate LossIsPossible(maxRetries: int, writers: iset<Tid>, reconnectors: iset<Tid>) {
    exists schedule ::
      && Follows(Go(maxRetries), Permitted(writers, reconnectors), INITIAL, schedule)
      && Lost(After(maxRetries, schedule).shared) != {}
  }

  /** A goroutine other than the writer only ever closes. */
  predicate OnlyCloses(pc: Pc) {
    pc.Idle? || pc.CloseLocking? || pc.CloseEntered? || pc.CloseShutting?
  }

  predicate LoneWriterInv(w: Tid, h: Shared, t: Tid, pc: Pc) {
    Local(h, t, pc) && (t != w ==> OnlyCloses(pc)) && (InReconnect(pc) ==> h.current.None?)
  }

  lemma StepKeepsLoneWriter(maxRetries: int, w: Tid, h: Shared, t: Tid, pc: Pc, c: Choice)
    requires NoneLost(h) && LoneWriterInv(w, h, t, pc) && Permitted(iset{w}, iset{})(h, t, pc, c)
    ensures var (h', pc') := Step(maxRetries, h, t, pc, c);
            Lost(h') == {} && (t != w ==> OnlyCloses(pc')) && (InReconnect(pc') ==> h'.current.None?)
  {
  }

  lemma StepKeepsLoneWriterOthers(maxRetries: int, w: Tid, h: Shared, t: Tid, pc: Pc, c: Choice, u: Tid, q: Pc)
    requires NoneLost(h) && LoneWriterInv(w, h, t, pc) && u != t && LoneWriterInv(w, h, u, q)
    ensures InReconnect(q) ==> Step(maxRetries, h, t, pc, c).0.current.None?
  {
  }

  /** One writer, with anybody closing, never loses a connection. */
  lemma LoneWriterLosesNothing(maxRetries: int, w: Tid, schedule: Schedule<Choice>)
    requires Follows(Go(maxRetries), Permitted(iset{w}, iset{}), INITIAL, schedule)
    ensures Lost(After(maxRetries, schedule).shared) == {}
  {
    var m, allowed := Go(maxRetries), Permitted(iset{w}, iset{});
    var local := (h: Shared, t: Tid, pc: Pc) => LoneWriterInv(w, h, t, pc);
    forall h: Shared, t: Tid, pc: Pc, c: Choice | NoneLost(h) && local(h, t, pc) && allowed(h, t, pc, c)
      ensures var (h', pc') := m.step(h, t, pc, c);
              && NoneLost(h') && local(h', t, pc')
              && forall u: Tid, q: Pc :: u != t && local(h, u, q) ==> local(h', u, q)
    {
      StepGuaranteesGlobal(maxRetries, h, t, pc, c);
      StepGuaranteesSelf(maxRetries, h, t, pc, c);
      StepKeepsLoneWriter(maxRetries, w, h, t, pc, c);
      forall u: Tid, q: Pc | u != t && local(h, u, q) ensures local(Step(maxRetries, h, t, pc, c).0, u, q) {
        StepGuaranteesOthers(maxRetries, h, t, pc, c, u, q);
        StepKeepsLoneWriterOthers(maxRetries, w, h, t, pc, c, u, q);
      }
    }
    RunSatisfies(m, allowed, NoneLost, local, INITIAL, schedule);
  }

  lemma {:induction false} PermittedCallsFollow(
    maxRetries: int, writers: iset<Tid>, reconnectors: iset<Tid>, s: State<Shared, Pc>, schedule: Schedule<Choice>)
    requires forall i :: 0 <= i < |schedule| ==> MayCall(writers, reconnectors, schedule[i].0, schedule[i].1.call)
    ensures Follows(Go(maxRetries), Permitted(writers, reconnectors), s, schedule)
    decreases schedule
  {
    if schedule != [] {
      assert forall i :: 0 <= i < |schedule[1..]| ==> schedule[1..][i] == schedule[i + 1];
      var s1 := Next(Go(maxRetries), s, schedule[0].0, schedule[0].1);
      PermittedCallsFollow(maxRetries, writers, reconnectors, s1, schedule[1..]);
    }
  }

  function ReconnectTwice(r: Tid): Schedule<Choice> {
    [(r, MOVE)] + Alone(r, 7, MOVE) + [(r, MOVE)]
  }

  /** A second call of `reconnect` by the same goroutine replaces the live connection of the first. */
  lemma SecondReconnectLoses(maxRetries: int, r: Tid)
    ensures 0 in Lost(After(maxRetries, ReconnectTwice(r) + Alone(r, 7, MOVE)).shared)
  {
    var m, once := Go(maxRetries), [(r, MOVE)] + Alone(r, 7, MOVE);
    RunStep(m, INITIAL, r, MOVE, Alone(r, 7, MOVE));
    var s1 := Next(m, INITIAL, r, MOVE);
    assert At(s1, r) == Joining(Standalone);
    LoneReconnect(maxRetries, s1, r, 7, MOVE);
    var s2 := After(maxRetries, once);
    assert s2 == Connected(s1, r, Standalone);
    RunAppend(m, INITIAL, once, [(r, MOVE)]);
    assert [(r, MOVE)] + [] == [(r, MOVE)];
    RunStep(m, s2, r, MOVE, []);
    assert After(maxRetries, ReconnectTwice(r)) == Next(m, s2, r, MOVE);
    DirectLeaderLosesIffLive(maxRetries, ReconnectTwice(r), r, MOVE);
  }

  function ThreeWriteSteps(t: Tid, rest: Schedule<Choice>): Schedule<Choice> {
    [(t, WRITE)] + ([(t, WRITE)] + ([(t, WRITE)] + rest))
  }

  lemma WriterJoins(maxRetries: int, s: State<Shared, Pc>, t: Tid, rest: Schedule<Choice>)
    requires At(s, t).Idle? && s.shared.lock.None? && s.shared.current.None?
    ensures Run(Go(maxRetries), s, ThreeWriteSteps(t, rest))
         == Run(Go(maxRetries), State(s.shared, s.pcs[t := Joining(First)]), rest)
  {
    var m := Go(maxRetries);
    RunStep(m, s, t, WRITE, [(t, WRITE)] + ([(t, WRITE)] + rest));
    var s1 := Next(m, s, t, WRITE);
    assert At(s1, t) == WriteLocking;
    RunStep(m, s1, t, WRITE, [(t, WRITE)] + rest);
    var s2 := Next(m, s1, t, WRITE);
    assert At(s2, t) == WriteEntered;
    RunStep(m, s2, t, WRITE, rest);
    assert Next(m, s2, t, WRITE).pcs == s.pcs[t := Joining(First)];
  }

  function TwoWrites(x: Tid, y: Tid): Schedule<Choice> {
    ThreeWriteSteps(x, ThreeWriteSteps(y, Alone(y, 7, WRITE)))
  }

  /** Two writers that both find no connection: the second to reconnect replaces the live connection of the first. */
  lemma TwoWritersLose(maxRetries: int, x: Tid, y: Tid)
    requires x != y
    ensures 0 in Lost(After(maxRetries, TwoWrites(x, y) + Alone(x, 7, WRITE)).shared)
  {
    WriterJoins(maxRetries, INITIAL, x, ThreeWriteSteps(y, Alone(y, 7, WRITE)));
    var s1 := State(INITIAL.shared, map[x := Joining(First)]);
    assert INITIAL.pcs[x := Joining(First)] == map[x := Joining(First)];
    WriterJoins(maxRetries, s1, y, Alone(y, 7, WRITE));
    var s2 := State(INITIAL.shared, s1.pcs[y := Joining(First)]);
    LoneReconnect(maxRetries, s2, y, 7, WRITE);
    assert After(maxRetries, TwoWrites(x, y)) == Connected(s2, y, First);
    DirectLeaderLosesIffLive(maxRetries, TwoWrites(x, y), x, WRITE);
  }

  /** A loss is possible exactly if some goroutine may call `reconnect` or at least two may call `Write`. */
  lemma LossIsPossibleIff(maxRetries: int, writers: iset<Tid>, reconnectors: iset<Tid>)
    ensures LossIsPossible(maxRetries, writers, reconnectors)
       <==> (exists r :: r in reconnectors) || (exists x, y :: x in writers && y in writers && x != y)
  {
    if r :| r in reconnectors {
      SecondReconnectLoses(maxRetries, r);
      PermittedCallsFollow(maxRetries, writers, reconnectors, INITIAL, ReconnectTwice(r) + Alone(r, 7, MOVE));
    } else if x, y :| x in writers && y in writers && x != y {
      TwoWritersLose(maxRetries, x, y);
      PermittedCallsFollow(maxRetries, writers, reconnectors, INITIAL, TwoWrites(x, y) + Alone(x, 7, WRITE));
    } else if LossIsPossible(maxRetries, writers, reconnectors) {
      var schedule :|
        && Follows(Go(maxRetries), Permitted(writers, reconnectors), INITIAL, schedule)
        && Lost(After(maxRetries, schedule).shared) != {};
      var w := if w :| w in writers then w else 0;
      FollowsWeaker(Go(maxRetries), Permitted(writers, reconnectors), Permitted(iset{w}, iset{}), INITIAL, schedule);
      LoneWriterLosesNothing(maxRetries, w, schedule);
      assert false;
    }
  }

  // ------------------------------------------------------------------ the nil dereference in Write

  /** Only goroutine `w` ever calls `Write`; any others may close or reconnect. */
  function OnlyWriter(w: Tid): (Shared, Tid, Pc, Choice) -> bool {
    (h: Shared, t: Tid, pc: Pc, c: Choice) => pc.Idle? && c.call.CallWrite? ==> t == w
  }

  predicate Writes(pc: Pc) {
    pc.WriteLocking? || pc.WriteEntered? || pc.UseLocking? || pc.Using? || pc.Dropping?
    || pc.RetryLocking? || pc.Retrying? || pc.ErrorLocking?
    || ((pc.Joining? || pc.Deciding? || pc.Waiting? || pc.Polling? || Leads(pc)) && !pc.caller.Standalone?)
  }

  /** Program points of `Write` that rely on a connection. */
  predicate NeedsConnection(pc: Pc) {
    pc.UseLocking? || pc.Using? || pc.Dropping? || pc.RetryLocking? || pc.Retrying?
  }

  predicate WriterInv(w: Tid, h: Shared, t: Tid, pc: Pc) {
    (Writes(pc) ==> t == w) && !pc.Panicked? && (NeedsConnection(pc) ==> h.current.Some?)
  }

  function LocalWriter(w: Tid): (Shared, Tid, Pc) -> bool {
    (h: Shared, t: Tid, pc: Pc) => WriterInv(w, h, t, pc)
  }

  predicate True(h: Shared) { true }

  lemma StepKeepsWriter(maxRetries: int, w: Tid, h: Shared, t: Tid, pc: Pc, c: Choice)
    requires WriterInv(w, h, t, pc) && OnlyWriter(w)(h, t, pc, c)
    ensures var (h', pc') := Step(maxRetries, h, t, pc, c);
            && WriterInv(w, h', t, pc')
            && forall u: Tid, q: Pc :: u != t && WriterInv(w, h, u, q) ==> WriterInv(w, h', u, q)
  {
  }

  /** With a single writing goroutine, `Write` never meets a nil connection after a successful reconnect. */
  lemma SingleWriterNeverPanics(maxRetries: int, w: Tid, schedule: Schedule<Choice>, t: Tid)
    requires Follows(Go(maxRetries), OnlyWriter(w), INITIAL, schedule)
    ensures var s := After(maxRetries, schedule);
            !At(s, t).Panicked? && (At(s, t).Retrying? ==> s.shared.current.Some?)
  {
    var m := Go(maxRetries);
    forall h: Shared, t: Tid, pc: Pc, c: Choice | WriterInv(w, h, t, pc) && OnlyWriter(w)(h, t, pc, c)
      ensures var (h', pc') := m.step(h, t, pc, c);
              && WriterInv(w, h', t, pc')
              && forall u: Tid, q: Pc :: u != t && WriterInv(w, h, u, q) ==> WriterInv(w, h', u, q)
    {
      StepKeepsWriter(maxRetries, w, h, t, pc, c);
    }
    RunSatisfies(m, OnlyWriter(w), True, LocalWriter(w), INITIAL, schedule);
    assert LocalWriter(w)(After(maxRetries, schedule).shared, t, PcOf(m, After(maxRetries, schedule), t));
  }

  const FAIL := Choice(CallWrite, false)

  lemma SecondWriterEnters(maxRetries: int, s: State<Shared, Pc>, y: Tid, rest: Schedule<Choice>)
    requires At(s, y).Idle? && s.shared.lock.None? && s.shared.current.Some?
    ensures Run(Go(maxRetries), s, [(y, FAIL)] + ([(y, FAIL)] + ([(y, FAIL)] + rest)))
         == Run(Go(maxRetries), State(s.shared.(lock := Some(y)), s.pcs[y := Using]), rest)
  {
    var m := Go(maxRetries);
    RunStep(m, s, y, FAIL, [(y, FAIL)] + ([(y, FAIL)] + rest));
    var s1 := Next(m, s, y, FAIL);
    RunStep(m, s1, y, FAIL, [(y, FAIL)] + rest);
    var s2 := Next(m, s1, y, FAIL);
    RunStep(m, s2, y, FAIL, rest);
    assert Next(m, s2, y, FAIL).pcs == s.pcs[y := Using];
  }

  /** `s` after writer `y` has dropped the current connection. */
  function Dropped(s: State<Shared, Pc>, y: Tid): State<Shared, Pc> {
    State(s.shared.(lock := None, down := Shut(s.shared), current := None), s.pcs[y := Joining(Again)])
  }

  /** A writer whose write fails drops the connection that another writer may have waited for. */
  lemma FailedWriteDrops(maxRetries: int, s: State<Shared, Pc>, y: Tid, rest: Schedule<Choice>)
    requires At(s, y).Using? && s.shared.lock == Some(y) && s.shared.current.Some?
    ensures Run(Go(maxRetries), s, [(y, FAIL)] + ([(y, FAIL)] + rest))
         == Run(Go(maxRetries), Dropped(s, y), rest)
  {
    var m := Go(maxRetries);
    RunStep(m, s, y, FAIL, [(y, FAIL)] + rest);
    var s1 := Next(m, s, y, FAIL);
    RunStep(m, s1, y, FAIL, rest);
    assert Next(m, s1, y, FAIL).pcs == s.pcs[y := Joining(Again)];
  }

  lemma UseOfNilPanics(maxRetries: int, s: State<Shared, Pc>, t: Tid)
    requires At(s, t).UseLocking? && s.shared.lock.None? && s.shared.current.None?
    ensures At(Run(Go(maxRetries), s, Alone(t, 2, MOVE)), t).Panicked?
  {
    AloneStep(Go(maxRetries), s, t, 2, MOVE);
    AloneStep(Go(maxRetries), Next(Go(maxRetries), s, t, MOVE), t, 1, MOVE);
  }

  function FirstWrite(x: Tid): Schedule<Choice> {
    [(x, WRITE)] + ([(x, WRITE)] + ([(x, WRITE)] + Alone(x, 7, MOVE)))
  }

  /** A first writer that finds no connection reconnects and is about to take the mutex back. */
  lemma FirstWriterConnects(maxRetries: int, x: Tid, y: Tid)
    requires x != y
    ensures var s := After(maxRetries, FirstWrite(x));
            At(s, x).UseLocking? && At(s, y).Idle? && s.shared.lock.None? && s.shared.current.Some?
  {
    var m := Go(maxRetries);
    var s1 := Next(m, INITIAL, x, WRITE);
    var s2 := Next(m, s1, x, WRITE);
    var s3 := Next(m, s2, x, WRITE);
    RunStep(m, INITIAL, x, WRITE, [(x, WRITE)] + ([(x, WRITE)] + Alone(x, 7, MOVE)));
    RunStep(m, s1, x, WRITE, [(x, WRITE)] + Alone(x, 7, MOVE));
    RunStep(m, s2, x, WRITE, Alone(x, 7, MOVE));
    assert At(s3, x) == Joining(First);
    LoneReconnect(maxRetries, s3, x, 7, MOVE);
  }

  function FailedSecondWrite(x: Tid, y: Tid): Schedule<Choice> {
    [(y, FAIL)] + ([(y, FAIL)] + ([(y, FAIL)] + ([(y, FAIL)] + ([(y, FAIL)] + Alone(x, 2, MOVE)))))
  }

  /** Two writers suffice for the panic: the first one uses `currentConn` without checking it again. */
  lemma TwoWritersPanic(maxRetries: int, x: Tid, y: Tid)
    requires x != y
    ensures At(After(maxRetries, FirstWrite(x) + FailedSecondWrite(x, y)), x).Panicked?
  {
    FirstWriterConnects(maxRetries, x, y);
    RunAppend(Go(maxRetries), INITIAL, FirstWrite(x), FailedSecondWrite(x, y));
    var s1 := After(maxRetries, FirstWrite(x));
    SecondWriterEnters(maxRetries, s1, y, [(y, FAIL)] + ([(y, FAIL)] + Alone(x, 2, MOVE)));
    var s2 := State(s1.shared.(lock := Some(y)), s1.pcs[y := Using]);
    FailedWriteDrops(maxRetries, s2, y, Alone(x, 2, MOVE));
    var s3 := Dropped(s2, y);
    UseOfNilPanics(maxRetries, s3, x);
  }

  /** Only the goroutines in `writers` ever call `Write`; any others may close or reconnect. */
  function OnlyWriters(writers: iset<Tid>): (Shared, Tid, Pc, Choice) -> bool {
    (h: Shared, t: Tid, pc: Pc, c: Choice) => pc.Idle? && c.call.CallWrite? ==> t in writers
  }

  ghost predicate PanicIsReachable(maxRetries: int, writers: iset<Tid>) {
    exists schedule, t ::
        Follows(Go(maxRetries), OnlyWriters(writers), INITIAL, schedule) && At(After(maxRetries, schedule), t).Panicked?
  }

  predicate OnlyMoves(schedule: Schedule<Choice>, x: Tid, y: Tid) {
    forall i :: 0 <= i < |schedule| ==> schedule[i].0 in {x, y}
  }

  lemma {:induction false} MovesOfWritersFollow(
    maxRetries: int, writers: iset<Tid>, x: Tid, y: Tid, s: State<Shared, Pc>, schedule: Schedule<Choice>)
    requires x in writers && y in writers && OnlyMoves(schedule, x, y)
    ensures Follows(Go(maxRetries), OnlyWriters(writers), s, schedule)
    decreases schedule
  {
    if schedule != [] {
      assert forall i :: 0 <= i < |schedule[1..]| ==> schedule[1..][i] == schedule[i + 1];
      var s1 := Next(Go(maxRetries), s, schedule[0].0, schedule[0].1);
      MovesOfWritersFollow(maxRetries, writers, x, y, s1, schedule[1..]);
    }
  }

  /** A call on a nil connection can happen exactly if at least two goroutines may call `Write`. */
  lemma PanicIsReachableIff(maxRetries: int, writers: iset<Tid>)
    ensures PanicIsReachable(maxRetries, writers) <==> exists x, y :: x in writers && y in writers && x != y
  {
    if x, y :| x in writers && y in writers && x != y {
      TwoWritersPanic(maxRetries, x, y);
      assert OnlyMoves(FirstWrite(x), x, y) && OnlyMoves(FailedSecondWrite(x, y), x, y);
      MovesOfWritersFollow(maxRetries, writers, x, y, INITIAL, FirstWrite(x) + FailedSecondWrite(x, y));
    } else if PanicIsReachable(maxRetries, writers) {
      var schedule, t :| Follows(Go(maxRetries), OnlyWriters(writers), INITIAL, schedule)
          && At(After(maxRetries, schedule), t).Panicked?;
      var w := if w :| w in writers then w else 0;
      FollowsWeaker(Go(maxRetries), OnlyWriters(writers), OnlyWriter(w), INITIAL, schedule);
      SingleWriterNeverPanics(maxRetries, w, schedule, t);
      assert false;
    }
  }

  // ------------------------------------------------------------------ what a call does when it is alone

  predicate Resting(s: State<Shared, Pc>, t: Tid) {
    At(s, t).Idle? && s.shared.lock.None?
  }

  /** The first steps of a write take the mutex and look at `currentConn`. */
  lemma WriteEnters(maxRetries: int, s: State<Shared, Pc>, t: Tid, n: nat, c: Choice)
    requires Resting(s, t) && c.call.CallWrite? && n >= 3
    ensures Run(Go(maxRetries), s, Alone(t, n, c)) == Run(Go(maxRetries),
                if s.shared.current.Some? then State(s.shared.(lock := Some(t)), s.pcs[t := Using])
                else State(s.shared, s.pcs[t := Joining(First)]), Alone(t, n - 3, c))
  {
    var m, h := Go(maxRetries), s.shared;
    var locked := h.(lock := Some(t));
    Depart(m, s, t, n, c, h, WriteLocking);
    Advance(m, h, s.pcs, t, WriteLocking, n - 1, c, locked, WriteEntered);
    if h.current.Some? {
      Advance(m, locked, s.pcs, t, WriteEntered, n - 2, c, locked, Using);
    } else {
      Advance(m, locked, s.pcs, t, WriteEntered, n - 2, c, h, Joining(First));
    }
  }

  /** A write over a connection that works uses it under the mutex and changes nothing. */
  lemma LoneWrite(maxRetries: int, s: State<Shared, Pc>, t: Tid)
    requires Resting(s, t) && s.shared.current.Some?
    ensures Run(Go(maxRetries), s, Alone(t, 3, WRITE)) == State(s.shared.(lock := Some(t)), s.pcs[t := Using])
    ensures Run(Go(maxRetries), s, Alone(t, 4, WRITE)) == State(s.shared, s.pcs[t := Idle])
  {
    WriteEnters(maxRetries, s, t, 3, WRITE);
    WriteEnters(maxRetries, s, t, 4, WRITE);
    Advance(Go(maxRetries), s.shared.(lock := Some(t)), s.pcs, t, Using, 1, WRITE, s.shared, Idle);
  }

  /** `h` after one more connection was dialed and became the current one. */
  function Renewed(h: Shared, lock: Option<Tid>, down: set<Conn>): Shared {
    Shared(lock, h.closing, false, Some(h.dialed), h.dialed + 1, h.installed + {h.dialed}, down, h.late, None, None,
           h.closeReturned)
  }

  /** A goroutine inside `reconnect` on behalf of a write comes back to the write with the new connection. */
  lemma ReconnectReturnsToWrite(maxRetries: int, h: Shared, pcs: map<Tid, Pc>, t: Tid, caller: Caller, n: nat)
    requires h.lock.None? && !h.reconnecting && !h.closing && caller != Standalone && n >= 8
    ensures Run(Go(maxRetries), State(h, pcs[t := Joining(caller)]), Alone(t, n, WRITE))
         == Run(Go(maxRetries),
                State(Renewed(h, Some(t), h.down), pcs[t := if caller == First then Using else Retrying]),
                Alone(t, n - 8, WRITE))
  {
    var s := State(h, pcs[t := Joining(caller)]);
    LoneReconnect(maxRetries, s, t, n, WRITE);
    assert s.pcs[t := Success(caller)] == pcs[t := Success(caller)];
    var renewed := Renewed(h, None, h.down);
    var entered := if caller == First then Using else Retrying;
    Advance(Go(maxRetries), renewed, pcs, t, Success(caller), n - 7, WRITE, renewed.(lock := Some(t)), entered);
  }

  /** A write that finds no connection dials one and is sent over it. */
  lemma LoneWriteConnects(maxRetries: int, s: State<Shared, Pc>, t: Tid)
    requires Resting(s, t) && s.shared.current.None? && !s.shared.reconnecting && !s.shared.closing
    ensures Run(Go(maxRetries), s, Alone(t, 11, WRITE))
         == State(Renewed(s.shared, Some(t), s.shared.down), s.pcs[t := Using])
    ensures Run(Go(maxRetries), s, Alone(t, 12, WRITE))
         == State(Renewed(s.shared, None, s.shared.down), s.pcs[t := Idle])
  {
    var h := s.shared;
    WriteEnters(maxRetries, s, t, 11, WRITE);
    WriteEnters(maxRetries, s, t, 12, WRITE);
    ReconnectReturnsToWrite(maxRetries, h, s.pcs, t, First, 8);
    ReconnectReturnsToWrite(maxRetries, h, s.pcs, t, First, 9);
    Advance(Go(maxRetries), Renewed(h, Some(t), h.down), s.pcs, t, Using, 1, WRITE, Renewed(h, None, h.down), Idle);
  }

  lemma FailedWriteRedials(maxRetries: int, s: State<Shared, Pc>, t: Tid, n: nat)
    requires At(s, t).Using? && s.shared.lock == Some(t) && s.shared.current.Some?
    requires !s.shared.reconnecting && !s.shared.closing && n >= 9
    ensures Run(Go(maxRetries), s, [(t, FAIL)] + Alone(t, n, WRITE))
         == Run(Go(maxRetries),
                State(Renewed(s.shared, Some(t), s.shared.down + {s.shared.current.value}), s.pcs[t := Retrying]),
                Alone(t, n - 9, WRITE))
  {
    var m, h := Go(maxRetries), s.shared;
    var dropped := h.(lock := None, down := h.down + {h.current.value}, current := None);
    RunStep(m, s, t, FAIL, Alone(t, n, WRITE));
    assert Next(m, s, t, FAIL) == State(h, s.pcs[t := Dropping]);
    Advance(m, h, s.pcs, t, Dropping, n, WRITE, dropped, Joining(Again));
    ReconnectReturnsToWrite(maxRetries, dropped, s.pcs, t, Again, n - 1);
  }

  /**
   A write whose first send fails heals itself: it closes that connection, dials another one, and
   under the mutex sends a second time over it.
   */
  lemma LoneWriteHeals(maxRetries: int, s: State<Shared, Pc>, t: Tid)
    requires At(s, t).Using? && s.shared.lock == Some(t) && s.shared.current.Some?
    requires !s.shared.reconnecting && !s.shared.closing
    ensures var down := s.shared.down + {s.shared.current.value};
            && Run(Go(maxRetries), s, [(t, FAIL)] + Alone(t, 9, WRITE))
            == State(Renewed(s.shared, Some(t), down), s.pcs[t := Retrying])
            && Run(Go(maxRetries), s, [(t, FAIL)] + Alone(t, 10, WRITE))
            == State(Renewed(s.shared, None, down), s.pcs[t := Idle])
  {
    FailedWriteRedials(maxRetries, s, t, 9);
    FailedWriteRedials(maxRetries, s, t, 10);
    var renewed := Renewed(s.shared, Some(t), s.shared.down + {s.shared.current.value});
    Advance(Go(maxRetries), renewed, s.pcs, t, Retrying, 1, WRITE, renewed.(lock := None), Idle);
  }

  /** A goroutine that waited for the leader is served by the connection it finds, and returns to its own caller. */
  lemma WaiterIsServed(maxRetries: int, s: State<Shared, Pc>, t: Tid, c: Choice)
    requires At(s, t).Waiting? && s.shared.lock.None? && s.shared.current.Some?
    ensures var served := match At(s, t).caller
                          case First => UseLocking case Again => RetryLocking case Standalone => Idle;
            Run(Go(maxRetries), s, Alone(t, 2, c)) == State(s.shared, s.pcs[t := served])
  {
    var m, h, caller := Go(maxRetries), s.shared, At(s, t).caller;
    Depart(m, s, t, 2, c, h.(lock := Some(t)), Polling(caller));
    Advance(m, h.(lock := Some(t)), s.pcs, t, Polling(caller), 1, c, h, Success(caller));
  }

  /** A goroutine that waited for a leader which gave up leads itself. */
  lemma WaiterTakesOver(maxRetries: int, s: State<Shared, Pc>, t: Tid, c: Choice)
    requires At(s, t).Waiting? && s.shared.lock.None? && s.shared.current.None? && !s.shared.reconnecting
    ensures Run(Go(maxRetries), s, Alone(t, 2, c))
         == State(s.shared.(reconnecting := true, leader := Some(t)), s.pcs[t := Testing(At(s, t).caller, 0)])
  {
    var m, h, caller := Go(maxRetries), s.shared, At(s, t).caller;
    Depart(m, s, t, 2, c, h.(lock := Some(t)), Polling(caller));
    Advance(m, h.(lock := Some(t)), s.pcs, t, Polling(caller), 1, c,
            h.(reconnecting := true, leader := Some(t)), Testing(caller, 0));
  }

  /** Where `reconnect` leaves a goroutine that got no connection. */
  function Unconnected(caller: Caller): Pc {
    match caller
    case First => ErrorLocking
    case Again => ErrorLocking
    case Standalone => Idle
  }

  /** `h` after its leader cleared the flag. */
  function Resigned(h: Shared): Shared {
    Shared(h.lock, h.closing, false, h.current, h.dialed, h.installed, h.down, h.late, None, h.carried, h.closeReturned)
  }

  /** A failing attempt that is not the last one leads to the next. */
  lemma FailingAttempt(
    maxRetries: int, h: Shared, pcs: map<Tid, Pc>, t: Tid, caller: Caller, i: nat, n: nat, c: Choice)
    requires h.lock.None? && !h.closing && (maxRetries == -1 || i < maxRetries) && !c.ok && n >= 4
    ensures Run(Go(maxRetries), State(h, pcs[t := Testing(caller, i)]), Alone(t, n, c))
         == Run(Go(maxRetries), State(h, pcs[t := Testing(caller, i + 1)]), Alone(t, n - 4, c))
  {
    var m := Go(maxRetries);
    AttemptTests(maxRetries, h, pcs, t, caller, i, n, c);
    Advance(m, h, pcs, t, Dialing(caller, i), n - 2, c, h, BackingOff(caller, i));
    Advance(m, h, pcs, t, BackingOff(caller, i), n - 3, c, h, Testing(caller, i + 1));
  }

  lemma Resigns(maxRetries: int, h: Shared, pcs: map<Tid, Pc>, t: Tid, caller: Caller, c: Choice)
    requires h.lock.None?
    ensures Run(Go(maxRetries), State(h, pcs[t := GivingUp(caller)]), Alone(t, 1, c))
         == State(Resigned(h), pcs[t := Unconnected(caller)])
  {
    Advance(Go(maxRetries), h, pcs, t, GivingUp(caller), 1, c, Resigned(h), Unconnected(caller));
  }

  lemma LastAttemptFails(maxRetries: nat, h: Shared, pcs: map<Tid, Pc>, t: Tid, caller: Caller, c: Choice)
    requires h.lock.None? && !h.closing && !c.ok
    ensures Run(Go(maxRetries), State(h, pcs[t := Testing(caller, maxRetries)]), Alone(t, 4, c))
         == State(Resigned(h), pcs[t := Unconnected(caller)])
  {
    var m := Go(maxRetries);
    AttemptTests(maxRetries, h, pcs, t, caller, maxRetries, 4, c);
    Advance(m, h, pcs, t, Dialing(caller, maxRetries), 2, c, h, GivingUp(caller));
    Resigns(maxRetries, h, pcs, t, caller, c);
  }

  /** A leader whose dials all fail gives up after exactly `maxRetries` + 1 of them. */
  lemma {:induction false} FailingLeaderGivesUp(
    maxRetries: nat, h: Shared, pcs: map<Tid, Pc>, t: Tid, caller: Caller, i: nat, c: Choice)
    requires h.lock.None? && !h.closing && i <= maxRetries && !c.ok
    ensures Run(Go(maxRetries), State(h, pcs[t := Testing(caller, i)]), Alone(t, 4 * (maxRetries + 1 - i), c))
         == State(Resigned(h), pcs[t := Unconnected(caller)])
    decreases maxRetries - i
  {
    if i < maxRetries {
      FailingAttempt(maxRetries, h, pcs, t, caller, i, 4 * (maxRetries + 1 - i), c);
      FailingLeaderGivesUp(maxRetries, h, pcs, t, caller, i + 1, c);
    } else {
      LastAttemptFails(maxRetries, h, pcs, t, caller, c);
    }
  }

  lemma FailingWriteReturns(maxRetries: nat, h: Shared, pcs: map<Tid, Pc>, t: Tid)
    requires h.lock.None? && !h.closing
    ensures Run(Go(maxRetries), State(h, pcs[t := Testing(First, 0)]), Alone(t, 4 * (maxRetries + 1) + 1, FAIL))
         == State(h.(reconnecting := false, leader := None), pcs[t := Idle])
  {
    var m, n, testing := Go(maxRetries), 4 * (maxRetries + 1), State(h, pcs[t := Testing(First, 0)]);
    AloneSplits(t, n, 1, FAIL);
    RunAppend(m, testing, Alone(t, n, FAIL), Alone(t, 1, FAIL));
    FailingLeaderGivesUp(maxRetries, h, pcs, t, First, 0, FAIL);
    Advance(m, Resigned(h), pcs, t, ErrorLocking, 1, FAIL, Resigned(h), Idle);
  }

  /** A write whose dials all fail returns, and leaves the object as it was for the next call. */
  lemma LoneWriteGivesUp(maxRetries: nat, s: State<Shared, Pc>, t: Tid)
    requires Resting(s, t) && s.shared.current.None? && !s.shared.closing
    requires !s.shared.reconnecting && s.shared.leader.None?
    ensures Run(Go(maxRetries), s, Alone(t, 6 + 4 * (maxRetries + 1), FAIL)) == State(s.shared, s.pcs[t := Idle])
  {
    var n := 4 * (maxRetries + 1);
    WriteEnters(maxRetries, s, t, 6 + n, FAIL);
    JoinerLeads(maxRetries, s.shared, s.pcs, t, First, 3 + n, FAIL);
    FailingWriteReturns(maxRetries, s.shared.(reconnecting := true, leader := Some(t)), s.pcs, t);
    assert s.shared.(reconnecting := false, leader := None) == s.shared;
  }

  /** A leader that sees `closing` gives up without a dial. */
  lemma ClosingStopsLeader(maxRetries: int, h: Shared, pcs: map<Tid, Pc>, t: Tid, caller: Caller, i: nat, c: Choice)
    requires h.lock.None? && h.closing
    ensures Run(Go(maxRetries), State(h, pcs[t := Testing(caller, i)]), Alone(t, 3, c))
         == State(Resigned(h), pcs[t := Unconnected(caller)])
  {
    AttemptTests(maxRetries, h, pcs, t, caller, i, 3, c);
    Resigns(maxRetries, h, pcs, t, caller, c);
  }

  /** `Close` cuts the sleep of a leader short, and the leader gives up without another look. */
  lemma ClosingWakesLeader(maxRetries: int, h: Shared, pcs: map<Tid, Pc>, t: Tid, caller: Caller, i: nat, c: Choice)
    requires h.lock.None? && h.closing && !c.ok
    ensures Run(Go(maxRetries), State(h, pcs[t := BackingOff(caller, i)]), Alone(t, 2, c))
         == State(Resigned(h), pcs[t := Unconnected(caller)])
  {
    Advance(Go(maxRetries), h, pcs, t, BackingOff(caller, i), 2, c, h, GivingUp(caller));
    Resigns(maxRetries, h, pcs, t, caller, c);
  }

  /** A connection that was dialed while the object closed is closed instead of installed. */
  lemma ClosingDiscardsDial(maxRetries: int, s: State<Shared, Pc>, t: Tid, c: Choice)
    requires At(s, t).Installing? && s.shared.lock.None? && s.shared.closing
    ensures var h, pc := s.shared, At(s, t);
            Run(Go(maxRetries), s, Alone(t, 2, c))
            == State(Shared(None, true, false, h.current, h.dialed, h.installed, h.down + {pc.conn}, h.late, None, None,
                            h.closeReturned),
                     s.pcs[t := Unconnected(pc.caller)])
  {
    var m, h, caller, k := Go(maxRetries), s.shared, At(s, t).caller, At(s, t).conn;
    var discarded := h.(down := h.down + {k}, reconnecting := false, leader := None, carried := None);
    Depart(m, s, t, 2, c, h.(lock := Some(t)), InstallEntered(caller, k));
    Advance(m, h.(lock := Some(t)), s.pcs, t, InstallEntered(caller, k), 1, c, discarded, Unconnected(caller));
  }

  /** `Close` alone sets `closing` and closes the current connection, which stays in the field. */
  lemma LoneClose(maxRetries: int, s: State<Shared, Pc>, t: Tid, ok: bool)
    requires Resting(s, t)
    ensures var h := s.shared;
            var down := if h.current.Some? then h.down + {h.current.value} else h.down;
            Run(Go(maxRetries), s, Alone(t, 4, Choice(CallClose, ok)))
            == State(h.(closing := true, down := down, closeReturned := true), s.pcs[t := Idle])
  {
    var m, h, c := Go(maxRetries), s.shared, Choice(CallClose, ok);
    var locked := h.(lock := Some(t));
    var closing := locked.(closing := true);
    Depart(m, s, t, 4, c, h, CloseLocking);
    Advance(m, h, s.pcs, t, CloseLocking, 3, c, locked, CloseEntered);
    Advance(m, locked, s.pcs, t, CloseEntered, 2, c, closing, CloseShutting);
    Advance(m, closing, s.pcs, t, CloseShutting, 1, c,
            closing.(lock := None, down := Shut(h), closeReturned := true), Idle);
  }

  // ------------------------------------------------------------------ retry limit

  /** The dials since the goroutine last took leadership. */
  function CountDials(before: Pc, after: Pc, n: nat): nat {
    if !Leads(before) && Leads(after) then 0 else if before.Dialing? then n + 1 else n
  }

  function Dials(maxRetries: int, schedule: Schedule<Choice>, t: Tid): nat {
    Tally(Go(maxRetries), INITIAL, schedule, t, 0, CountDials)
  }

  function Most(maxRetries: int): nat {
    if maxRetries < 0 then 1 else maxRetries + 1
  }

  predicate WithinLimit(maxRetries: int, pc: Pc, n: nat) {
    && (pc.Testing? || pc.TestEntered? || pc.Dialing? ==>
        n == pc.i && (pc.i == 0 || maxRetries == -1 || pc.i <= maxRetries))
    && (pc.BackingOff? ==> n == pc.i + 1 && (maxRetries == -1 || pc.i < maxRetries))
    && (maxRetries == -1 || n <= Most(maxRetries))
  }

  lemma StepStaysWithinLimit(maxRetries: int, h: Shared, t: Tid, pc: Pc, c: Choice, n: nat)
    requires WithinLimit(maxRetries, pc, n)
    ensures var after := Step(maxRetries, h, t, pc, c).1; WithinLimit(maxRetries, after, CountDials(pc, after, n))
  {
  }

  /** In every run no leader dials more than `maxRetries` + 1 times, unless `maxRetries` is -1. */
  lemma AttemptsAreLimited(maxRetries: int, schedule: Schedule<Choice>, t: Tid)
    requires maxRetries != -1
    ensures Dials(maxRetries, schedule, t) <= Most(maxRetries)
  {
    var m, keeps := Go(maxRetries), (pc: Pc, n: nat) => WithinLimit(maxRetries, pc, n);
    forall h: Shared, pc: Pc, c: Choice, n: nat | keeps(pc, n)
      ensures keeps(m.step(h, t, pc, c).1, CountDials(pc, m.step(h, t, pc, c).1, n))
    {
      StepStaysWithinLimit(maxRetries, h, t, pc, c, n);
    }
    TallyKeeps(m, INITIAL, schedule, t, 0, CountDials, keeps);
  }
}
