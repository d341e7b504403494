/**
 The C++ `ManagedConnection`: any number of threads call `Send`, `Receive`, `Reconnect` and
 `Close` on one object. Every step of a thread is one access to shared state (the mutex, the
 atomic `closed_`, the socket). Creating, using and closing a socket may each succeed or
 throw: the schedule decides.
 */
module CppConnection {
  import opened Wrappers
  import opened Interleaving

  type Socket = nat

  datatype Use = Sending | Receiving

  /** Who called the locked overload of `Reconnect`, and so where it returns to. */
  datatype Caller = Ensuring(use: Use) | Recovering(use: Use) | Direct

  /** The program counter of one thread. `attempt` is the local of the retry loop. */
  datatype Pc =
    | Idle
    | UseLocking(use: Use)
    | UseEntered(use: Use)
    | UseChecked(use: Use)
    | FirstUse(use: Use)
    | Recovered(use: Use)
    | SecondUse(use: Use)
    | Faulted(use: Use)                        // dereferenced a null socket
    | ReconnectLocking
    | Guard(caller: Caller, attempt: nat)      // the while condition
    | Replace(caller: Caller, attempt: nat)    // about to close the old socket
    | Create(caller: Caller, attempt: nat)     // about to create the new one
    | Failed(caller: Caller, attempt: nat)     // in the catch block, about to unlock
    | Sleeping(caller: Caller, attempt: nat)   // lock released, about to take it back
    | Woken(caller: Caller, attempt: nat)
    | CloseSwapping
    | CloseLocking
    | CloseEntered

  /**
   `shut` and `created` are the ledger: sockets are numbered in order of creation, and `shut`
   holds those whose `close` was called and returned. `late` counts the creations attempted
   after `closed` was set, and `closeReturned` records that the winning `Close` returned.
   */
  datatype Shared = Shared(
    lock: Option<Tid>,
    closed: bool,
    socket: Option<Socket>,
    created: nat,
    shut: set<Socket>,
    late: nat,
    closeReturned: bool)

  datatype Call = CallSend | CallReceive | CallReconnect | CallClose

  /**
   What the environment decides at one step: the next call of an idle thread, and whether an
   operation on a socket succeeds.
   */
  datatype Choice = Choice(call: Call, ok: bool)

  /** `Reconnect` returns normally to its caller. */
  function Return(h: Shared, caller: Caller): (Shared, Pc) {
    match caller
    case Ensuring(use) => (h, FirstUse(use))
    case Recovering(use) => (h, Recovered(use))
    case Direct => (h.(lock := None), Idle)
  }

  function Begin(call: Call): Pc {
    match call
    case CallSend => UseLocking(Sending)
    case CallReceive => UseLocking(Receiving)
    case CallReconnect => ReconnectLocking
    case CallClose => CloseSwapping
  }

  /** A thread that waits for the mutex stays where it is. */
  function Acquire(h: Shared, t: Tid, waiting: Pc, entered: Pc): (Shared, Pc) {
    if h.lock.None? then (h.(lock := Some(t)), entered) else (h, waiting)
  }

  function Leave(h: Shared): (Shared, Pc) {
    (h.(lock := None), Idle)
  }

  function Step(maxRetries: int, h: Shared, t: Tid, pc: Pc, c: Choice): (Shared, Pc) {
    match pc
    case Idle => (h, Begin(c.call))
    case UseLocking(use) => Acquire(h, t, pc, UseEntered(use))
    case UseEntered(use) => if h.closed then Leave(h) else (h, UseChecked(use))
    case UseChecked(use) => (h, if h.socket.Some? then FirstUse(use) else Guard(Ensuring(use), 0))
    case FirstUse(use) =>
      if h.socket.None? then (h, Faulted(use))
      else if c.ok then Leave(h)
      else (h, Guard(Recovering(use), 0))
    case Recovered(use) => if !h.closed && h.socket.Some? then (h, SecondUse(use)) else Leave(h)
    case SecondUse(use) => if h.socket.None? then (h, Faulted(use)) else Leave(h)
    case Faulted(_) => (h, pc)
    case ReconnectLocking => Acquire(h, t, pc, Guard(Direct, 0))
    case Guard(caller, n) =>
      if !h.closed && (maxRetries == -1 || n < maxRetries) then (h, Replace(caller, n))
      else Leave(h)                              // throws out of the caller
    case Replace(caller, n) =>
      if h.socket.None? then (h, Create(caller, n))
      else if c.ok then (h.(shut := h.shut + {h.socket.value}), Create(caller, n))
      else (h, Failed(caller, n))
    case Create(caller, n) =>
      var late := if h.closed then h.late + 1 else h.late;
      if c.ok
      then Return(h.(socket := Some(h.created), created := h.created + 1, late := late), caller)
      else (h.(late := late), Failed(caller, n))
    case Failed(caller, n) => (h.(lock := None), Sleeping(caller, n))
    case Sleeping(caller, n) => Acquire(h, t, pc, Woken(caller, n))
    case Woken(caller, n) => if h.closed then Return(h, caller) else (h, Guard(caller, n + 1))
    case CloseSwapping => if h.closed then (h, Idle) else (h.(closed := true), CloseLocking)
    case CloseLocking => Acquire(h, t, pc, CloseEntered)
    case CloseEntered =>
      if h.socket.None? then (h.(lock := None, closeReturned := true), Idle)
      else if c.ok
      then (h.(lock := None, shut := h.shut + {h.socket.value}, closeReturned := true), Idle)
      else Leave(h)                              // close threw out of Close
  }

  function Cpp(maxRetries: int): Machine<Shared, Pc, Choice> {
    Machine(Idle, (h, t, pc, c) => Step(maxRetries, h, t, pc, c))
  }

  const INITIAL: State<Shared, Pc> := State(Shared(None, false, None, 0, {}, 0, false), map[])

  /** The state after a schedule that starts with an unconnected object and idle threads. */
  function After(maxRetries: int, schedule: Schedule<Choice>): State<Shared, Pc> {
    Run(Cpp(maxRetries), INITIAL, schedule)
  }

  function At(s: State<Shared, Pc>, t: Tid): Pc {
    if t in s.pcs then s.pcs[t] else Idle
  }

  // ------------------------------------------------------------------ the invariant

  /** The program points at which a thread owns the mutex. */
  predicate Holds(pc: Pc) {
    pc.UseEntered? || pc.UseChecked? || pc.FirstUse? || pc.Recovered? || pc.SecondUse? || pc.Faulted?
    || pc.Guard? || pc.Replace? || pc.Create? || pc.Failed? || pc.Woken? || pc.CloseEntered?
  }

  /** Past the loop condition and not yet past the creation. */
  predicate Armed(pc: Pc) {
    pc.Replace? || pc.Create?
  }

  predicate SocketDown(h: Shared) {
    h.socket.Some? ==> h.socket.value in h.shut
  }

  ghost predicate Global(h: Shared) {
    && (h.socket.None? <==> h.created == 0)
    && (h.socket.Some? ==> h.socket.value < h.created)
    && (forall k <- h.shut :: k < h.created)
    && (forall k: Socket :: k < h.created && h.socket != Some(k) ==> k in h.shut)
    && h.late <= 1
    && (!h.closed ==> h.late == 0)
    && (h.closeReturned ==> h.closed && SocketDown(h))
  }

  predicate Local(h: Shared, t: Tid, pc: Pc) {
    && (Holds(pc) <==> h.lock == Some(t))
    && (pc.Create? ==> SocketDown(h))
    && (Armed(pc) && h.closed ==> h.late == 0)
    && (pc.FirstUse? ==> h.socket.Some? || h.closed)
    && (pc.SecondUse? ==> h.socket.Some?)
    && (pc.Faulted? ==> h.socket.None? && h.closed)
    && (pc.CloseLocking? || pc.CloseEntered? ==> h.closed)
    && (h.closeReturned ==> !Armed(pc))
  }

  predicate Any(h: Shared, t: Tid, pc: Pc, c: Choice) { true }

  lemma StepGuaranteesGlobal(maxRetries: int, h: Shared, t: Tid, pc: Pc, c: Choice)
    requires Global(h) && Local(h, t, pc)
    ensures Global(Step(maxRetries, h, t, pc, c).0)
  {
  }

  lemma StepGuaranteesSelf(maxRetries: int, h: Shared, t: Tid, pc: Pc, c: Choice)
    requires Global(h) && Local(h, t, pc)
    ensures var (h', pc') := Step(maxRetries, h, t, pc, c); Local(h', t, pc')
  {
  }

  lemma StepGuaranteesOthers(maxRetries: int, h: Shared, t: Tid, pc: Pc, c: Choice, u: Tid, q: Pc)
    requires Global(h) && Local(h, t, pc) && u != t && Local(h, u, q)
    ensures Local(Step(maxRetries, h, t, pc, c).0, u, q)
  {
  }

  lemma CppGuarantees(maxRetries: int)
    ensures Guarantees(Cpp(maxRetries), Any, Global, Local)
  {
    forall h: Shared, t: Tid, pc: Pc, c: Choice | Global(h) && Local(h, t, pc)
      ensures var (h', pc') := Cpp(maxRetries).step(h, t, pc, c);
              && Global(h') && Local(h', t, pc')
              && forall u: Tid, q: Pc :: u != t && Local(h, u, q) ==> Local(h', u, q)
    {
      StepGuaranteesGlobal(maxRetries, h, t, pc, c);
      StepGuaranteesSelf(maxRetries, h, t, pc, c);
      forall u: Tid, q: Pc | u != t && Local(h, u, q) ensures Local(Step(maxRetries, h, t, pc, c).0, u, q) {
        StepGuaranteesOthers(maxRetries, h, t, pc, c, u, q);
      }
    }
  }

  lemma Reached(maxRetries: int, schedule: Schedule<Choice>)
    ensures Satisfies(Cpp(maxRetries), Global, Local, After(maxRetries, schedule))
  {
    CppGuarantees(maxRetries);
    AnyRunFollows(Cpp(maxRetries), Any, INITIAL, schedule);
    RunSatisfies(Cpp(maxRetries), Any, Global, Local, INITIAL, schedule);
  }

  lemma ReachedAt(maxRetries: int, schedule: Schedule<Choice>, t: Tid)
    ensures var s := After(maxRetries, schedule); Global(s.shared) && Local(s.shared, t, At(s, t))
  {
    Reached(maxRetries, schedule);
    assert Local(After(maxRetries, schedule).shared, t, PcOf(Cpp(maxRetries), After(maxRetries, schedule), t));
  }

  // ------------------------------------------------------------------ what every run keeps

  /** No socket leaks: in every interleaving, each socket ever created is the held one or has been closed. */
  lemma NoSocketLeaks(maxRetries: int, schedule: Schedule<Choice>, k: Socket)
    ensures var h := After(maxRetries, schedule).shared;
            k < h.created ==> h.socket == Some(k) || k in h.shut
  {
    Reached(maxRetries, schedule);
  }

  /**
   The mutex serialises the threads: it is owned exactly at the program points that touch the
   socket, never while sleeping.
   */
  lemma LockDiscipline(maxRetries: int, schedule: Schedule<Choice>, t: Tid, u: Tid)
    ensures var s := After(maxRetries, schedule);
            && (Holds(At(s, t)) <==> s.shared.lock == Some(t))
            && (Holds(At(s, t)) && Holds(At(s, u)) ==> t == u)
  {
    ReachedAt(maxRetries, schedule, t);
    ReachedAt(maxRetries, schedule, u);
  }

  /** How the shared state of a run may evolve from `h` to `h'`. */
  predicate Evolves(h: Shared, h': Shared) {
    && h.created <= h'.created
    && (h.closed ==> h'.closed && h'.created - h.created <= h'.late - h.late)
    && (h.closeReturned ==> h'.closeReturned && h'.created == h.created && h'.late == h.late && h'.socket == h.socket)
  }

  lemma StepEvolves(maxRetries: int, h: Shared, t: Tid, pc: Pc, c: Choice)
    requires Global(h) && Local(h, t, pc)
    ensures Evolves(h, Step(maxRetries, h, t, pc, c).0)
  {
  }

  lemma RunEvolves(maxRetries: int, a: Schedule<Choice>, b: Schedule<Choice>)
    ensures Evolves(After(maxRetries, a).shared, After(maxRetries, a + b).shared)
  {
    CppGuarantees(maxRetries);
    Reached(maxRetries, a);
    var m, s := Cpp(maxRetries), After(maxRetries, a);
    forall h, t, pc, c | Global(h) && Local(h, t, pc) ensures Evolves(h, m.step(h, t, pc, c).0) {
      StepEvolves(maxRetries, h, t, pc, c);
    }
    AnyRunFollows(m, Any, s, b);
    RunRelates(m, Any, Global, Local, Evolves, s, b);
    RunAppend(m, INITIAL, a, b);
  }

  /** Once `closed_` is set, at most one more creation is attempted, whatever the threads do. */
  lemma AtMostOneLateCreation(maxRetries: int, a: Schedule<Choice>, b: Schedule<Choice>)
    requires After(maxRetries, a).shared.closed
    ensures var h, h' := After(maxRetries, a).shared, After(maxRetries, a + b).shared;
            h'.late <= 1 && h.created <= h'.created <= h.created + 1
  {
    Reached(maxRetries, a + b);
    RunEvolves(maxRetries, a, b);
  }

  /**
   After the winning `Close` has returned, every socket ever created is closed, no creation is
   attempted again and the held socket never changes.
   */
  lemma CloseIsFinal(maxRetries: int, a: Schedule<Choice>, b: Schedule<Choice>)
    requires After(maxRetries, a).shared.closeReturned
    ensures var h, h' := After(maxRetries, a).shared, After(maxRetries, a + b).shared;
            && h'.created == h.created && h'.late == h.late && h'.socket == h.socket
            && forall k: Socket :: k < h'.created ==> k in h'.shut
  {
    Reached(maxRetries, a + b);
    RunEvolves(maxRetries, a, b);
  }

  /** The creations attempted since the thread last entered `Reconnect`. */
  function CountCreations(before: Pc, after: Pc, n: nat): nat {
    if after.Guard? && !before.Woken? then 0 else if before.Create? then n + 1 else n
  }

  function Creations(maxRetries: int, schedule: Schedule<Choice>, t: Tid): nat {
    Tally(Cpp(maxRetries), INITIAL, schedule, t, 0, CountCreations)
  }

  function Most(maxRetries: int): nat {
    if maxRetries < 0 then 0 else maxRetries
  }

  predicate WithinLimit(maxRetries: int, pc: Pc, n: nat) {
    && (pc.Guard? ==> n <= pc.attempt && (maxRetries == -1 || pc.attempt <= Most(maxRetries)))
    && (Armed(pc) ==> n <= pc.attempt && (maxRetries == -1 || pc.attempt < maxRetries))
    && (pc.Failed? || pc.Sleeping? || pc.Woken? ==>
        n <= pc.attempt + 1 && (maxRetries == -1 || pc.attempt < maxRetries))
    && (maxRetries == -1 || n <= Most(maxRetries))
  }

  lemma StepStaysWithinLimit(maxRetries: int, h: Shared, t: Tid, pc: Pc, c: Choice, n: nat)
    requires WithinLimit(maxRetries, pc, n)
    ensures var after := Step(maxRetries, h, t, pc, c).1; WithinLimit(maxRetries, after, CountCreations(pc, after, n))
  {
  }

  /** In every run no call of `Reconnect` attempts more than `maxRetries` creations, unless `maxRetries` is -1. */
  lemma AttemptsAreLimited(maxRetries: int, schedule: Schedule<Choice>, t: Tid)
    requires maxRetries != -1
    ensures Creations(maxRetries, schedule, t) <= Most(maxRetries)
  {
    var m, keeps := Cpp(maxRetries), (pc: Pc, n: nat) => WithinLimit(maxRetries, pc, n);
    forall h: Shared, pc: Pc, c: Choice, n: nat | keeps(pc, n)
      ensures keeps(m.step(h, t, pc, c).1, CountCreations(pc, m.step(h, t, pc, c).1, n))
    {
      StepStaysWithinLimit(maxRetries, h, t, pc, c, n);
    }
    TallyKeeps(m, INITIAL, schedule, t, 0, CountCreations, keeps);
  }

  // ------------------------------------------------------------------ what a call does when it is alone

  predicate Resting(s: State<Shared, Pc>, t: Tid) {
    At(s, t).Idle? && s.shared.lock.None?
  }

  function CallOf(use: Use): Call {
    match use
    case Sending => CallSend
    case Receiving => CallReceive
  }

  predicate AllowsAttempt(maxRetries: int, n: nat) {
    maxRetries == -1 || n < maxRetries
  }

  function Entered(h: Shared, use: Use): Pc {
    if h.socket.Some? then FirstUse(use) else Guard(Ensuring(use), 0)
  }

  /** The closed sockets and the held one. */
  function WithHeldShut(h: Shared): set<Socket> {
    if h.socket.Some? then h.shut + {h.socket.value} else h.shut
  }

  /** The first steps of a use take the mutex and look at `closed_` and the socket. */
  lemma UseEnters(maxRetries: int, s: State<Shared, Pc>, t: Tid, use: Use, n: nat, ok: bool)
    requires Resting(s, t) && !s.shared.closed && n >= 4
    ensures Run(Cpp(maxRetries), s, Alone(t, n, Choice(CallOf(use), ok)))
         == Run(Cpp(maxRetries), State(s.shared.(lock := Some(t)), s.pcs[t := Entered(s.shared, use)]),
                Alone(t, n - 4, Choice(CallOf(use), ok)))
  {
    var m, c, h := Cpp(maxRetries), Choice(CallOf(use), ok), s.shared;
    var locked, next := h.(lock := Some(t)), Entered(h, use);
    Depart(m, s, t, n, c, h, UseLocking(use));
    Advance(m, h, s.pcs, t, UseLocking(use), n - 1, c, locked, UseEntered(use));
    Advance(m, locked, s.pcs, t, UseEntered(use), n - 2, c, locked, UseChecked(use));
    Advance(m, locked, s.pcs, t, UseChecked(use), n - 3, c, locked, next);
  }

  /** A use of a held socket that succeeds takes five steps and changes nothing. */
  lemma LoneUse(maxRetries: int, s: State<Shared, Pc>, t: Tid, use: Use)
    requires Resting(s, t) && !s.shared.closed && s.shared.socket.Some?
    ensures var c := Choice(CallOf(use), true);
            && Run(Cpp(maxRetries), s, Alone(t, 4, c)) == State(s.shared.(lock := Some(t)), s.pcs[t := FirstUse(use)])
            && Run(Cpp(maxRetries), s, Alone(t, 5, c)) == State(s.shared, s.pcs[t := Idle])
  {
    var c, locked := Choice(CallOf(use), true), s.shared.(lock := Some(t));
    UseEnters(maxRetries, s, t, use, 4, true);
    UseEnters(maxRetries, s, t, use, 5, true);
    Advance(Cpp(maxRetries), locked, s.pcs, t, FirstUse(use), 1, c, s.shared, Idle);
  }

  /** The shared state after one more socket was created and became the held one. */
  function WithNewSocket(h: Shared, lock: Option<Tid>): Shared {
    Shared(lock, h.closed, Some(h.created), h.created + 1, WithHeldShut(h), h.late, h.closeReturned)
  }

  function Returned(caller: Caller): Pc {
    match caller
    case Ensuring(use) => FirstUse(use)
    case Recovering(use) => Recovered(use)
    case Direct => Idle
  }

  /** An attempt closes the old socket, if any, before it creates a new one. */
  lemma ReachesCreate(maxRetries: int, h: Shared, pcs: map<Tid, Pc>, t: Tid, caller: Caller, i: nat, n: nat, c: Choice)
    requires h.lock == Some(t) && !h.closed && (c.ok || h.socket.None?) && AllowsAttempt(maxRetries, i) && n >= 2
    ensures Run(Cpp(maxRetries), State(h, pcs[t := Guard(caller, i)]), Alone(t, n, c))
         == Run(Cpp(maxRetries), State(h.(shut := WithHeldShut(h)), pcs[t := Create(caller, i)]), Alone(t, n - 2, c))
  {
    var m := Cpp(maxRetries);
    Advance(m, h, pcs, t, Guard(caller, i), n, c, h, Replace(caller, i));
    Advance(m, h, pcs, t, Replace(caller, i), n - 1, c, h.(shut := WithHeldShut(h)), Create(caller, i));
  }

  lemma CreateReturns(maxRetries: int, h: Shared, t: Tid, caller: Caller, i: nat, c: Choice)
    requires h.lock == Some(t) && !h.closed && c.ok
    ensures Step(maxRetries, h, t, Create(caller, i), c) ==
            (Shared(if caller.Direct? then None else Some(t), false, Some(h.created), h.created + 1, h.shut, h.late,
                    h.closeReturned), Returned(caller))
  {
  }

  /** From the loop condition on, an attempt that succeeds closes the old socket and holds a new one. */
  lemma AttemptCreates(maxRetries: int, h: Shared, pcs: map<Tid, Pc>, t: Tid, caller: Caller, i: nat, n: nat, c: Choice)
    requires h.lock == Some(t) && !h.closed && AllowsAttempt(maxRetries, i) && c.ok && n >= 3
    ensures Run(Cpp(maxRetries), State(h, pcs[t := Guard(caller, i)]), Alone(t, n, c))
         == Run(Cpp(maxRetries),
                State(WithNewSocket(h, if caller.Direct? then None else Some(t)), pcs[t := Returned(caller)]),
                Alone(t, n - 3, c))
  {
    var m, lock := Cpp(maxRetries), if caller.Direct? then None else Some(t);
    var h1 := h.(shut := WithHeldShut(h));
    ReachesCreate(maxRetries, h, pcs, t, caller, i, n, c);
    CreateReturns(maxRetries, h1, t, caller, i, c);
    Advance(m, h1, pcs, t, Create(caller, i), n - 2, c, WithNewSocket(h, lock), Returned(caller));
  }

  /**
   A use that finds no socket creates one: after seven steps it stands at its first use with the
   new socket held, after eight it has used it and released the mutex.
   */
  lemma LoneUseConnects(maxRetries: int, s: State<Shared, Pc>, t: Tid, use: Use)
    requires Resting(s, t) && !s.shared.closed && s.shared.socket.None? && AllowsAttempt(maxRetries, 0)
    ensures var c, h := Choice(CallOf(use), true), s.shared;
            && Run(Cpp(maxRetries), s, Alone(t, 7, c))
            == State(Shared(Some(t), false, Some(h.created), h.created + 1, h.shut, h.late, h.closeReturned),
                     s.pcs[t := FirstUse(use)])
            && Run(Cpp(maxRetries), s, Alone(t, 8, c))
            == State(Shared(None, false, Some(h.created), h.created + 1, h.shut, h.late, h.closeReturned),
                     s.pcs[t := Idle])
  {
    var c, h := Choice(CallOf(use), true), s.shared;
    var locked := h.(lock := Some(t));
    UseEnters(maxRetries, s, t, use, 7, true);
    UseEnters(maxRetries, s, t, use, 8, true);
    AttemptCreates(maxRetries, locked, s.pcs, t, Ensuring(use), 0, 3, c);
    AttemptCreates(maxRetries, locked, s.pcs, t, Ensuring(use), 0, 4, c);
    var connected := WithNewSocket(locked, Some(t));
    Advance(Cpp(maxRetries), connected, s.pcs, t, FirstUse(use), 1, c, connected.(lock := None), Idle);
  }

  /**
   A use whose first use of the held socket fails heals itself: it closes that socket, holds a
   new one, uses it a second time and releases the mutex.
   */
  lemma LoneUseRecovers(maxRetries: int, s: State<Shared, Pc>, t: Tid, use: Use)
    requires At(s, t) == FirstUse(use) && s.shared.lock == Some(t) && !s.shared.closed && s.shared.socket.Some?
    requires AllowsAttempt(maxRetries, 0)
    ensures var c, h := Choice(CallOf(use), true), s.shared;
            var failed := [(t, Choice(CallOf(use), false))];
            var healed := h.shut + {h.socket.value};
            && Run(Cpp(maxRetries), s, failed + Alone(t, 4, c))
            == State(Shared(Some(t), false, Some(h.created), h.created + 1, healed, h.late, h.closeReturned),
                     s.pcs[t := SecondUse(use)])
            && Run(Cpp(maxRetries), s, failed + Alone(t, 5, c))
            == State(Shared(None, false, Some(h.created), h.created + 1, healed, h.late, h.closeReturned),
                     s.pcs[t := Idle])
  {
    var m, c, h := Cpp(maxRetries), Choice(CallOf(use), true), s.shared;
    var fail, caller := Choice(CallOf(use), false), Recovering(use);
    RunStep(m, s, t, fail, Alone(t, 4, c));
    RunStep(m, s, t, fail, Alone(t, 5, c));
    assert Next(m, s, t, fail) == State(h, s.pcs[t := Guard(caller, 0)]);
    AttemptCreates(maxRetries, h, s.pcs, t, caller, 0, 4, c);
    AttemptCreates(maxRetries, h, s.pcs, t, caller, 0, 5, c);
    var renewed := WithNewSocket(h, Some(t));
    Advance(m, renewed, s.pcs, t, Recovered(use), 1, c, renewed, SecondUse(use));
    Advance(m, renewed, s.pcs, t, Recovered(use), 2, c, renewed, SecondUse(use));
    Advance(m, renewed, s.pcs, t, SecondUse(use), 1, c, renewed.(lock := None), Idle);
  }

  /** `Reconnect` alone replaces whatever socket is held. */
  lemma LoneReconnect(maxRetries: int, s: State<Shared, Pc>, t: Tid)
    requires Resting(s, t) && !s.shared.closed && AllowsAttempt(maxRetries, 0)
    ensures Run(Cpp(maxRetries), s, Alone(t, 5, Choice(CallReconnect, true)))
         == State(Shared(None, false, Some(s.shared.created), s.shared.created + 1, WithHeldShut(s.shared),
                         s.shared.late, s.shared.closeReturned),
                  s.pcs[t := Idle])
  {
    var m, c, h := Cpp(maxRetries), Choice(CallReconnect, true), s.shared;
    var locked := h.(lock := Some(t));
    Depart(m, s, t, 5, c, h, ReconnectLocking);
    Advance(m, h, s.pcs, t, ReconnectLocking, 4, c, locked, Guard(Direct, 0));
    AttemptCreates(maxRetries, locked, s.pcs, t, Direct, 0, 3, c);
  }

  /** An attempt whose creation fails releases the mutex to sleep. */
  lemma AttemptSleeps(maxRetries: int, h: Shared, pcs: map<Tid, Pc>, t: Tid, caller: Caller, i: nat, n: nat, c: Choice)
    requires h.lock == Some(t) && !h.closed && h.socket.None? && AllowsAttempt(maxRetries, i) && !c.ok && n >= 4
    ensures Run(Cpp(maxRetries), State(h, pcs[t := Guard(caller, i)]), Alone(t, n, c))
         == Run(Cpp(maxRetries), State(h.(lock := None), pcs[t := Sleeping(caller, i)]), Alone(t, n - 4, c))
  {
    var m := Cpp(maxRetries);
    ReachesCreate(maxRetries, h, pcs, t, caller, i, n, c);
    Advance(m, h, pcs, t, Create(caller, i), n - 2, c, h, Failed(caller, i));
    Advance(m, h, pcs, t, Failed(caller, i), n - 3, c, h.(lock := None), Sleeping(caller, i));
  }

  /** It then takes the mutex back and tests the loop condition for the next attempt. */
  lemma AttemptFails(maxRetries: int, h: Shared, pcs: map<Tid, Pc>, t: Tid, caller: Caller, i: nat, n: nat, c: Choice)
    requires h.lock == Some(t) && !h.closed && h.socket.None? && AllowsAttempt(maxRetries, i) && !c.ok && n >= 6
    ensures Run(Cpp(maxRetries), State(h, pcs[t := Guard(caller, i)]), Alone(t, n, c))
         == Run(Cpp(maxRetries), State(h, pcs[t := Guard(caller, i + 1)]), Alone(t, n - 6, c))
  {
    var m, unlocked := Cpp(maxRetries), h.(lock := None);
    AttemptSleeps(maxRetries, h, pcs, t, caller, i, n, c);
    Advance(m, unlocked, pcs, t, Sleeping(caller, i), n - 4, c, h, Woken(caller, i));
    Advance(m, h, pcs, t, Woken(caller, i), n - 5, c, h, Guard(caller, i + 1));
  }

  /** A loop whose creations all fail gives up after exactly the allowed attempts and releases the mutex. */
  lemma {:induction false} FailingLoopGivesUp(
    maxRetries: nat, h: Shared, pcs: map<Tid, Pc>, t: Tid, caller: Caller, i: nat, c: Choice)
    requires h.lock == Some(t) && !h.closed && h.socket.None? && i <= maxRetries && !c.ok
    ensures Run(Cpp(maxRetries), State(h, pcs[t := Guard(caller, i)]), Alone(t, 6 * (maxRetries - i) + 1, c))
         == State(h.(lock := None), pcs[t := Idle])
    decreases maxRetries - i
  {
    if i < maxRetries {
      AttemptFails(maxRetries, h, pcs, t, caller, i, 6 * (maxRetries - i) + 1, c);
      FailingLoopGivesUp(maxRetries, h, pcs, t, caller, i + 1, c);
    } else {
      Advance(Cpp(maxRetries), h, pcs, t, Guard(caller, i), 1, c, h.(lock := None), Idle);
    }
  }

  /** `Close` alone closes the held socket, if any, and is the winning one. */
  lemma LoneClose(maxRetries: int, s: State<Shared, Pc>, t: Tid)
    requires Resting(s, t) && !s.shared.closed
    ensures Run(Cpp(maxRetries), s, Alone(t, 4, Choice(CallClose, true)))
         == State(Shared(None, true, s.shared.socket, s.shared.created, WithHeldShut(s.shared), s.shared.late, true),
                  s.pcs[t := Idle])
  {
    var m, c, h := Cpp(maxRetries), Choice(CallClose, true), s.shared;
    var closed := h.(closed := true);
    var shut := closed.(shut := WithHeldShut(h), closeReturned := true);
    Depart(m, s, t, 4, c, h, CloseSwapping);
    Advance(m, h, s.pcs, t, CloseSwapping, 3, c, closed, CloseLocking);
    Advance(m, closed, s.pcs, t, CloseLocking, 2, c, closed.(lock := Some(t)), CloseEntered);
    Advance(m, closed.(lock := Some(t)), s.pcs, t, CloseEntered, 1, c, shut, Idle);
  }

  /** If closing the socket throws, `Close` throws: the object is closed all the same and the socket stays open. */
  lemma LoneCloseThrows(maxRetries: int, s: State<Shared, Pc>, t: Tid)
    requires Resting(s, t) && !s.shared.closed && s.shared.socket.Some?
    ensures Run(Cpp(maxRetries), s, Alone(t, 4, Choice(CallClose, false)))
         == State(s.shared.(closed := true), s.pcs[t := Idle])
  {
    var m, c, h := Cpp(maxRetries), Choice(CallClose, false), s.shared;
    var closed := h.(closed := true);
    Depart(m, s, t, 4, c, h, CloseSwapping);
    Advance(m, h, s.pcs, t, CloseSwapping, 3, c, closed, CloseLocking);
    Advance(m, closed, s.pcs, t, CloseLocking, 2, c, closed.(lock := Some(t)), CloseEntered);
    Advance(m, closed.(lock := Some(t)), s.pcs, t, CloseEntered, 1, c, closed, Idle);
  }

  /** If closing the old socket throws inside an attempt, none is created and the old one stays held. */
  lemma AttemptKeepsSocket(maxRetries: int, h: Shared, pcs: map<Tid, Pc>, t: Tid, caller: Caller, i: nat, c: Choice)
    requires h.lock == Some(t) && !h.closed && h.socket.Some? && AllowsAttempt(maxRetries, i) && !c.ok
    ensures Run(Cpp(maxRetries), State(h, pcs[t := Guard(caller, i)]), Alone(t, 3, c))
         == State(h.(lock := None), pcs[t := Sleeping(caller, i)])
  {
    var m := Cpp(maxRetries);
    Advance(m, h, pcs, t, Guard(caller, i), 3, c, h, Replace(caller, i));
    Advance(m, h, pcs, t, Replace(caller, i), 2, c, h, Failed(caller, i));
    Advance(m, h, pcs, t, Failed(caller, i), 1, c, h.(lock := None), Sleeping(caller, i));
  }

  /**
   A close that arrives during the sleep ends a `Reconnect`, and a use that was recovering, without
   another attempt and without a second use.
   */
  lemma ClosedWhileSleeping(maxRetries: int, h: Shared, pcs: map<Tid, Pc>, t: Tid, caller: Caller, i: nat, c: Choice)
    requires h.lock.None? && h.closed && !caller.Ensuring?
    ensures var n := if caller.Direct? then 2 else 3;
            Run(Cpp(maxRetries), State(h, pcs[t := Sleeping(caller, i)]), Alone(t, n, c)) == State(h, pcs[t := Idle])
  {
    var m, locked := Cpp(maxRetries), h.(lock := Some(t));
    if caller.Direct? {
      Advance(m, h, pcs, t, Sleeping(caller, i), 2, c, locked, Woken(caller, i));
      Advance(m, locked, pcs, t, Woken(caller, i), 1, c, h, Idle);
    } else {
      Advance(m, h, pcs, t, Sleeping(caller, i), 3, c, locked, Woken(caller, i));
      Advance(m, locked, pcs, t, Woken(caller, i), 2, c, locked, Recovered(caller.use));
      Advance(m, locked, pcs, t, Recovered(caller.use), 1, c, h, Idle);
    }
  }

  /** The loop makes no attempt once the object is closed. */
  lemma ClosedLoopStops(maxRetries: int, h: Shared, pcs: map<Tid, Pc>, t: Tid, caller: Caller, i: nat, c: Choice)
    requires h.lock == Some(t) && h.closed
    ensures Run(Cpp(maxRetries), State(h, pcs[t := Guard(caller, i)]), Alone(t, 1, c))
         == State(h.(lock := None), pcs[t := Idle])
  {
    Advance(Cpp(maxRetries), h, pcs, t, Guard(caller, i), 1, c, h.(lock := None), Idle);
  }

  /** On a closed object a use and a second close do nothing. */
  lemma ClosedCallsDoNothing(maxRetries: int, s: State<Shared, Pc>, t: Tid, use: Use, ok: bool)
    requires Resting(s, t) && s.shared.closed
    ensures Run(Cpp(maxRetries), s, Alone(t, 3, Choice(CallOf(use), ok))) == State(s.shared, s.pcs[t := Idle])
    ensures Run(Cpp(maxRetries), s, Alone(t, 2, Choice(CallClose, ok))) == State(s.shared, s.pcs[t := Idle])
  {
    var m, c, close, h := Cpp(maxRetries), Choice(CallOf(use), ok), Choice(CallClose, ok), s.shared;
    var locked := h.(lock := Some(t));
    Depart(m, s, t, 3, c, h, UseLocking(use));
    Advance(m, h, s.pcs, t, UseLocking(use), 2, c, locked, UseEntered(use));
    Advance(m, locked, s.pcs, t, UseEntered(use), 1, c, h, Idle);
    Depart(m, s, t, 2, close, h, CloseSwapping);
    Advance(m, h, s.pcs, t, CloseSwapping, 1, close, h, Idle);
  }

  // ------------------------------------------------------------------ the null dereference

  /**
   The first use of the socket dereferences null exactly when no socket was ever created, and then
   only under a concurrent close.
   */
  lemma FirstUseFaultsIff(maxRetries: int, schedule: Schedule<Choice>, t: Tid, c: Choice)
    requires At(After(maxRetries, schedule), t).FirstUse?
    ensures var h := After(maxRetries, schedule).shared;
            var faults := Step(maxRetries, h, t, At(After(maxRetries, schedule), t), c).1.Faulted?;
            (faults <==> h.created == 0) && (faults ==> h.closed)
  {
    ReachedAt(maxRetries, schedule, t);
  }

  /** A connection that was established once never dereferences null, however it is used and closed afterwards. */
  lemma ConnectedConnectionNeverFaults(maxRetries: int, a: Schedule<Choice>, b: Schedule<Choice>, t: Tid)
    requires After(maxRetries, a).shared.created > 0
    ensures !At(After(maxRetries, a + b), t).Faulted?
  {
    ReachedAt(maxRetries, a + b, t);
    RunEvolves(maxRetries, a, b);
  }

  /** A state of a run in which no socket was created yet. */
  function Early(lock: Option<Tid>, closed: bool, pcs: map<Tid, Pc>): State<Shared, Pc> {
    State(Shared(lock, closed, None, 0, {}, 0, false), pcs)
  }

  const MOVE: Schedule<Choice> := [(0, Choice(CallSend, false))]
  const SHUT: Schedule<Choice> := [(1, Choice(CallClose, false))]

  lemma Move(maxRetries: int, lock: Option<Tid>, pc: Pc, lock': Option<Tid>, pc': Pc, rest: Schedule<Choice>)
    requires Step(maxRetries, Early(lock, false, map[]).shared, 0, pc, Choice(CallSend, false))
          == (Early(lock', false, map[]).shared, pc')
    ensures Run(Cpp(maxRetries), Early(lock, false, map[0 := pc]), MOVE + rest)
         == Run(Cpp(maxRetries), Early(lock', false, map[0 := pc']), rest)
  {
    var s := Early(lock, false, map[0 := pc]);
    RunStep(Cpp(maxRetries), s, 0, Choice(CallSend, false), rest);
    assert s.pcs[0 := pc'] == map[0 := pc'];
  }

  lemma SendEntersLoop(maxRetries: int, rest: Schedule<Choice>)
    ensures After(maxRetries, MOVE + (MOVE + (MOVE + (MOVE + rest))))
         == Run(Cpp(maxRetries), Early(Some(0), false, map[0 := Guard(Ensuring(Sending), 0)]), rest)
  {
    RunStep(Cpp(maxRetries), INITIAL, 0, Choice(CallSend, false), MOVE + (MOVE + (MOVE + rest)));
    Move(maxRetries, None, UseLocking(Sending), Some(0), UseEntered(Sending), MOVE + (MOVE + rest));
    Move(maxRetries, Some(0), UseEntered(Sending), Some(0), UseChecked(Sending), MOVE + rest);
    Move(maxRetries, Some(0), UseChecked(Sending), Some(0), Guard(Ensuring(Sending), 0), rest);
  }

  lemma LoopReachesCreate(maxRetries: int, rest: Schedule<Choice>)
    requires maxRetries == -1 || maxRetries > 0
    ensures Run(Cpp(maxRetries), Early(Some(0), false, map[0 := Guard(Ensuring(Sending), 0)]), MOVE + (MOVE + rest))
         == Run(Cpp(maxRetries), Early(Some(0), false, map[0 := Create(Ensuring(Sending), 0)]), rest)
  {
    var caller := Ensuring(Sending);
    Move(maxRetries, Some(0), Guard(caller, 0), Some(0), Replace(caller, 0), MOVE + rest);
    Move(maxRetries, Some(0), Replace(caller, 0), Some(0), Create(caller, 0), rest);
  }

  lemma CreationFails(maxRetries: int, rest: Schedule<Choice>)
    ensures Run(Cpp(maxRetries), Early(Some(0), false, map[0 := Create(Ensuring(Sending), 0)]), MOVE + (MOVE + rest))
         == Run(Cpp(maxRetries), Early(None, false, map[0 := Sleeping(Ensuring(Sending), 0)]), rest)
  {
    var caller := Ensuring(Sending);
    Move(maxRetries, Some(0), Create(caller, 0), Some(0), Failed(caller, 0), MOVE + rest);
    Move(maxRetries, Some(0), Failed(caller, 0), None, Sleeping(caller, 0), rest);
  }

  /** Eight steps of a sending thread whose first creation fails, and then `rest`. */
  function FailedAttempt(rest: Schedule<Choice>): Schedule<Choice> {
    MOVE + (MOVE + (MOVE + (MOVE + (MOVE + (MOVE + (MOVE + (MOVE + rest)))))))
  }

  lemma FirstAttemptFails(maxRetries: int, rest: Schedule<Choice>)
    requires maxRetries == -1 || maxRetries > 0
    ensures After(maxRetries, FailedAttempt(rest))
         == Run(Cpp(maxRetries), Early(None, false, map[0 := Sleeping(Ensuring(Sending), 0)]), rest)
  {
    var creating := MOVE + (MOVE + rest);
    var looping := MOVE + (MOVE + creating);
    SendEntersLoop(maxRetries, looping);
    LoopReachesCreate(maxRetries, creating);
    CreationFails(maxRetries, rest);
  }

  lemma CloseOvertakes(maxRetries: int, rest: Schedule<Choice>)
    ensures Run(Cpp(maxRetries), Early(None, false, map[0 := Sleeping(Ensuring(Sending), 0)]), SHUT + (SHUT + rest))
         == Run(Cpp(maxRetries), Early(None, true, map[0 := Sleeping(Ensuring(Sending), 0), 1 := CloseLocking]), rest)
  {
    var m, c, caller := Cpp(maxRetries), Choice(CallClose, false), Ensuring(Sending);
    var s0 := Early(None, false, map[0 := Sleeping(caller, 0)]);
    var s1 := Early(None, false, map[0 := Sleeping(caller, 0), 1 := CloseSwapping]);
    var s2 := Early(None, true, map[0 := Sleeping(caller, 0), 1 := CloseLocking]);
    RunStep(m, s0, 1, c, SHUT + rest);
    assert Next(m, s0, 1, c) == s1;
    RunStep(m, s1, 1, c, rest);
    assert Next(m, s1, 1, c) == s2;
  }

  lemma WokenWithoutSocket(maxRetries: int)
    ensures At(Run(Cpp(maxRetries), Early(None, true, map[0 := Sleeping(Ensuring(Sending), 0), 1 := CloseLocking]),
                   MOVE + (MOVE + (MOVE + []))), 0) == Faulted(Sending)
  {
    var m, c, caller := Cpp(maxRetries), Choice(CallSend, false), Ensuring(Sending);
    var s0 := Early(None, true, map[0 := Sleeping(caller, 0), 1 := CloseLocking]);
    RunStep(m, s0, 0, c, MOVE + (MOVE + []));
    var s1 := Next(m, s0, 0, c);
    assert At(s1, 0) == Woken(caller, 0);
    RunStep(m, s1, 0, c, MOVE + []);
    var s2 := Next(m, s1, 0, c);
    assert At(s2, 0) == FirstUse(Sending);
    RunStep(m, s2, 0, c, []);
  }

  /**
   The interleaving behind the fault: the first creation of a sending thread fails, another
   thread closes while it sleeps, and `Reconnect` then returns to `Send` without a socket.
   */
  lemma FaultIsReachable(maxRetries: int)
    requires maxRetries == -1 || maxRetries > 0
    ensures exists schedule :: At(After(maxRetries, schedule), 0) == Faulted(Sending)
  {
    var woken := MOVE + (MOVE + (MOVE + []));
    var closing := SHUT + (SHUT + woken);
    FirstAttemptFails(maxRetries, closing);
    CloseOvertakes(maxRetries, woken);
    WokenWithoutSocket(maxRetries);
    assert At(After(maxRetries, FailedAttempt(closing)), 0) == Faulted(Sending);
  }

  predicate NoSocketYet(h: Shared) {
    h.socket.None?
  }

  /** Program points that need an attempt or a socket to be reached. */
  predicate BeforeAnyAttempt(h: Shared, t: Tid, pc: Pc) {
    !Armed(pc) && !pc.Failed? && !pc.Sleeping? && !pc.Woken?
    && !pc.FirstUse? && !pc.Recovered? && !pc.SecondUse? && !pc.Faulted?
  }

  lemma StepMakesNoAttempt(maxRetries: int, h: Shared, t: Tid, pc: Pc, c: Choice)
    requires maxRetries != -1 && maxRetries <= 0 && NoSocketYet(h) && BeforeAnyAttempt(h, t, pc)
    ensures var (h', pc') := Step(maxRetries, h, t, pc, c); NoSocketYet(h') && BeforeAnyAttempt(h', t, pc')
  {
  }

  /** A setting that allows no attempt never creates a socket and never faults. */
  lemma NoAttemptsNoFault(maxRetries: int, schedule: Schedule<Choice>, t: Tid)
    requires maxRetries != -1 && maxRetries <= 0
    ensures After(maxRetries, schedule).shared.socket.None? && !At(After(maxRetries, schedule), t).Faulted?
  {
    var m := Cpp(maxRetries);
    forall h: Shared, u: Tid, pc: Pc, c: Choice | NoSocketYet(h) && BeforeAnyAttempt(h, u, pc)
      ensures var (h', pc') := m.step(h, u, pc, c);
              && NoSocketYet(h') && BeforeAnyAttempt(h', u, pc')
              && forall w: Tid, q: Pc :: w != u && BeforeAnyAttempt(h, w, q) ==> BeforeAnyAttempt(h', w, q)
    {
      StepMakesNoAttempt(maxRetries, h, u, pc, c);
    }
    AnyRunFollows(m, Any, INITIAL, schedule);
    RunSatisfies(m, Any, NoSocketYet, BeforeAnyAttempt, INITIAL, schedule);
    assert BeforeAnyAttempt(After(maxRetries, schedule).shared, t, PcOf(m, After(maxRetries, schedule), t));
  }

  /** The fault can happen exactly under the settings that allow an attempt. */
  lemma FaultIsReachableIff(maxRetries: int)
    ensures (exists schedule, t :: At(After(maxRetries, schedule), t).Faulted?) <==> maxRetries == -1 || maxRetries > 0
  {
    if maxRetries == -1 || maxRetries > 0 {
      FaultIsReachable(maxRetries);
      var schedule :| At(After(maxRetries, schedule), 0) == Faulted(Sending);
      assert At(After(maxRetries, schedule), 0).Faulted?;
    } else {
      forall schedule: Schedule<Choice>, t: Tid ensures !At(After(maxRetries, schedule), t).Faulted? {
        NoAttemptsNoFault(maxRetries, schedule, t);
      }
    }
  }
}
