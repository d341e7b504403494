/**
 The Python `ManagedConnection`: any number of threads call `write`, `close` and `reconnect`.
 Every use of the lock is a short block that never waits inside, so each block is one step. One
 thread at a time leads the retry loop, elected through `_reconnecting`; unlike in Go, a thread
 at the top of `reconnect` looks at the flag before it looks at the connection.
 */
module PythonConnection {
  import opened Wrappers
  import opened Interleaving

  type Conn = nat

  /** Who called `reconnect`. */
  datatype Caller = First | Again | Standalone

  datatype Pc =
    | Idle
    | Reading                                // write: about to read current_conn
    | Rereading                              // after the first reconnect
    | Sending(conn: Conn)
    | Dropping(conn: Conn)                   // the send failed
    | ReadingAgain                           // after the second reconnect
    | Resending(conn: Conn)
    | Joining(caller: Caller)                // top of the loop that elects the leader
    | Dialing(caller: Caller, i: nat)
    | Installing(caller: Caller, conn: Conn)
    | GivingUp(caller: Caller)
    | Closing

  /**
   The first two fields are the program's. The rest is history: connections are numbered in the
   order of their dials; `installed` and `down` record those ever stored in `current_conn` and
   those closed; `leader` set `_reconnecting`, and `carried` is what it has dialed but not stored;
   `closes` counts the calls of `close` that returned.
   */
  datatype Shared = Shared(
    reconnecting: bool,
    current: Option<Conn>,
    dialed: nat,
    installed: set<Conn>,
    down: set<Conn>,
    leader: Option<Tid>,
    carried: Option<Conn>,
    closes: nat)

  datatype Call = CallWrite | CallClose | CallReconnect

  /** What the environment decides: the next call of an idle thread, and whether a dial or a send succeeds. */
  datatype Choice = Choice(call: Call, ok: bool)

  function Begin(call: Call): Pc {
    match call
    case CallWrite => Reading
    case CallClose => Closing
    case CallReconnect => Joining(Standalone)
  }

  /** Where a `reconnect` that returned continues. */
  function Success(caller: Caller): Pc {
    match caller
    case First => Rereading
    case Again => ReadingAgain
    case Standalone => Idle
  }

  function Drop(h: Shared): Shared {
    if h.current.Some? then h.(down := h.down + {h.current.value}, current := None) else h
  }

  function Step(maxRetries: int, h: Shared, t: Tid, pc: Pc, c: Choice): (Shared, Pc) {
    match pc
    case Idle => (h, Begin(c.call))
    case Reading => (h, if h.current.Some? then Sending(h.current.value) else Joining(First))
    case Rereading => (h, if h.current.Some? then Sending(h.current.value) else Idle)
    case Sending(k) => (h, if c.ok then Idle else Dropping(k))
    case Dropping(k) => (if h.current == Some(k) then Drop(h) else h, Joining(Again))
    case ReadingAgain => (h, if h.current.Some? then Resending(h.current.value) else Idle)
    case Resending(_) => (h, Idle)
    case Joining(caller) =>
      if !h.reconnecting then (h.(reconnecting := true, leader := Some(t)), Dialing(caller, 0))
      else if h.current.Some? then (h, Success(caller))
      else (h, pc)
    case Dialing(caller, i) =>
      if c.ok then (h.(dialed := h.dialed + 1, carried := Some(h.dialed)), Installing(caller, h.dialed))
      else (h, if maxRetries != -1 && i >= maxRetries then GivingUp(caller) else Dialing(caller, i + 1))
    case Installing(caller, k) =>
      (h.(current := Some(k), installed := h.installed + {k}, reconnecting := false, leader := None, carried := None),
       Success(caller))
    case GivingUp(_) => (h.(reconnecting := false, leader := None), Idle)
    case Closing => (Drop(h).(closes := h.closes + 1), Idle)
  }

  function Python(maxRetries: int): Machine<Shared, Pc, Choice> {
    Machine(Idle, (h, t, pc, c) => Step(maxRetries, h, t, pc, c))
  }

  const INITIAL: State<Shared, Pc> := State(Shared(false, None, 0, {}, {}, None, None, 0), map[])

  function After(maxRetries: int, schedule: Schedule<Choice>): State<Shared, Pc> {
    Run(Python(maxRetries), INITIAL, schedule)
  }

  function At(s: State<Shared, Pc>, t: Tid): Pc {
    if t in s.pcs then s.pcs[t] else Idle
  }

  // ------------------------------------------------------------------ the invariant

  predicate Leads(pc: Pc) {
    pc.Dialing? || pc.Installing? || pc.GivingUp?
  }

  /** Installed once, never closed, and no longer reachable. */
  function Lost(h: Shared): set<Conn> {
    set k | k in h.installed && k !in h.down && h.current != Some(k)
  }

  ghost predicate Global(h: Shared) {
    && (h.reconnecting <==> h.leader.Some?)
    && (h.carried.Some? ==> h.leader.Some? && h.carried.value + 1 == h.dialed && h.carried.value !in h.installed)
    && (h.current.Some? ==> h.current.value in h.installed && h.current.value !in h.down)
    && h.down <= h.installed
    && (forall k <- h.installed :: k < h.dialed)
    && (forall k: Conn :: k < h.dialed ==> k in h.installed || h.carried == Some(k))
  }

  predicate Local(h: Shared, t: Tid, pc: Pc) {
    && (Leads(pc) <==> h.leader == Some(t))
    && (pc.Installing? ==> h.carried == Some(pc.conn))
    && (h.leader == Some(t) && h.carried.Some? ==> pc.Installing?)
    && (pc.Sending? || pc.Dropping? || pc.Resending? ==> pc.conn in h.installed)
  }

  predicate Any(h: Shared, t: Tid, pc: Pc, c: Choice) { true }

  lemma StepGuarantees(maxRetries: int, h: Shared, t: Tid, pc: Pc, c: Choice)
    requires Global(h) && Local(h, t, pc)
    ensures var (h', pc') := Step(maxRetries, h, t, pc, c); Global(h') && Local(h', t, pc')
  {
  }

  lemma StepGuaranteesOthers(maxRetries: int, h: Shared, t: Tid, pc: Pc, c: Choice, u: Tid, q: Pc)
    requires Global(h) && Local(h, t, pc) && u != t && Local(h, u, q)
    ensures Local(Step(maxRetries, h, t, pc, c).0, u, q)
  {
  }

  lemma PythonGuarantees(maxRetries: int)
    ensures Guarantees(Python(maxRetries), Any, Global, Local)
  {
    forall h: Shared, t: Tid, pc: Pc, c: Choice | Global(h) && Local(h, t, pc)
      ensures var (h', pc') := Python(maxRetries).step(h, t, pc, c);
              && Global(h') && Local(h', t, pc')
              && forall u: Tid, q: Pc :: u != t && Local(h, u, q) ==> Local(h', u, q)
    {
      StepGuarantees(maxRetries, h, t, pc, c);
      forall u: Tid, q: Pc | u != t && Local(h, u, q) ensures Local(Step(maxRetries, h, t, pc, c).0, u, q) {
        StepGuaranteesOthers(maxRetries, h, t, pc, c, u, q);
      }
    }
  }

  lemma ReachedAt(maxRetries: int, schedule: Schedule<Choice>, t: Tid)
    ensures var s := After(maxRetries, schedule); Global(s.shared) && Local(s.shared, t, At(s, t))
  {
    PythonGuarantees(maxRetries);
    AnyRunFollows(Python(maxRetries), Any, INITIAL, schedule);
    RunSatisfies(Python(maxRetries), Any, Global, Local, INITIAL, schedule);
    assert Local(After(maxRetries, schedule).shared, t, PcOf(Python(maxRetries), After(maxRetries, schedule), t));
  }

  // ------------------------------------------------------------------ what every run keeps

  /**
   `_reconnecting` is set exactly while one thread is inside the retry loop, never two are, and
   what that thread is about to install is the newest connection.
   */
  lemma OneLeader(maxRetries: int, schedule: Schedule<Choice>, t: Tid, u: Tid)
    ensures var s := After(maxRetries, schedule);
            && (Leads(At(s, t)) && Leads(At(s, u)) ==> t == u)
            && (At(s, t).Installing? ==> At(s, t).conn + 1 == s.shared.dialed)
            && (s.shared.reconnecting <==> exists w :: Leads(At(s, w)))
  {
    ReachedAt(maxRetries, schedule, t);
    ReachedAt(maxRetries, schedule, u);
    var s := After(maxRetries, schedule);
    if s.shared.reconnecting {
      ReachedAt(maxRetries, schedule, s.shared.leader.value);
      assert Leads(At(s, s.shared.leader.value));
    }
    forall w | Leads(At(s, w)) ensures s.shared.reconnecting {
      ReachedAt(maxRetries, schedule, w);
    }
  }

  /** A send is only ever made on a connection that was installed, and the current connection was never closed. */
  lemma SendsAreOnInstalledConnections(maxRetries: int, schedule: Schedule<Choice>, t: Tid)
    ensures var s := After(maxRetries, schedule);
            && (At(s, t).Sending? || At(s, t).Resending? ==> At(s, t).conn in s.shared.installed)
            && (s.shared.current.Some? ==> s.shared.current.value !in s.shared.down)
  {
    ReachedAt(maxRetries, schedule, t);
  }

  /** The connection that the next step of a thread at `pc` overwrites. */
  function Overwritten(h: Shared, pc: Pc): set<Conn> {
    if pc.Installing? && h.current.Some? then {h.current.value} else {}
  }

  /** In every run a step loses a connection exactly when it installs another one over it. */
  lemma LostIff(maxRetries: int, schedule: Schedule<Choice>, t: Tid, c: Choice)
    ensures var s := After(maxRetries, schedule);
            var h' := Step(maxRetries, s.shared, t, At(s, t), c).0;
            Lost(h') == Lost(s.shared) + Overwritten(s.shared, At(s, t))
  {
    ReachedAt(maxRetries, schedule, t);
  }

  // ------------------------------------------------------------------ when nothing is lost

  /** Leadership is only taken while there is no current connection. */
  predicate LeadsOnlyWithout(h: Shared, t: Tid, pc: Pc, c: Choice) {
    pc.Joining? && !h.reconnecting ==> h.current.None?
  }

  ghost predicate NoneLost(h: Shared) {
    Global(h) && Lost(h) == {}
  }

  predicate LeaderSeesNone(h: Shared, t: Tid, pc: Pc) {
    Local(h, t, pc) && (Leads(pc) ==> h.current.None?)
  }

  lemma StepLosesNothing(maxRetries: int, h: Shared, t: Tid, pc: Pc, c: Choice)
    requires NoneLost(h) && LeaderSeesNone(h, t, pc) && LeadsOnlyWithout(h, t, pc, c)
    ensures var (h', pc') := Step(maxRetries, h, t, pc, c); Lost(h') == {} && (Leads(pc') ==> h'.current.None?)
  {
  }

  lemma StepKeepsNone(maxRetries: int, h: Shared, t: Tid, pc: Pc, c: Choice, u: Tid, q: Pc)
    requires NoneLost(h) && LeaderSeesNone(h, t, pc) && u != t && LeaderSeesNone(h, u, q)
    ensures Leads(q) ==> Step(maxRetries, h, t, pc, c).0.current.None?
  {
  }

  /**
   If leadership is never taken over a current connection, every connection ever dialed is current,
   closed or carried.
   */
  lemma GuardedRunsLoseNothing(maxRetries: int, schedule: Schedule<Choice>)
    requires Follows(Python(maxRetries), LeadsOnlyWithout, INITIAL, schedule)
    ensures var h := After(maxRetries, schedule).shared;
            forall k: Conn :: k < h.dialed ==> h.current == Some(k) || k in h.down || h.carried == Some(k)
  {
    var m := Python(maxRetries);
    forall h: Shared, t: Tid, pc: Pc, c: Choice
        | NoneLost(h) && LeaderSeesNone(h, t, pc) && LeadsOnlyWithout(h, t, pc, c)
      ensures var (h', pc') := m.step(h, t, pc, c);
              && NoneLost(h') && LeaderSeesNone(h', t, pc')
              && forall u: Tid, q: Pc :: u != t && LeaderSeesNone(h, u, q) ==> LeaderSeesNone(h', u, q)
    {
      StepGuarantees(maxRetries, h, t, pc, c);
      StepLosesNothing(maxRetries, h, t, pc, c);
      forall u: Tid, q: Pc | u != t && LeaderSeesNone(h, u, q)
          ensures LeaderSeesNone(Step(maxRetries, h, t, pc, c).0, u, q) {
        StepGuaranteesOthers(maxRetries, h, t, pc, c, u, q);
        StepKeepsNone(maxRetries, h, t, pc, c, u, q);
      }
    }
    RunSatisfies(m, LeadsOnlyWithout, NoneLost, LeaderSeesNone, INITIAL, schedule);
    var h := After(maxRetries, schedule).shared;
    forall k: Conn | k < h.dialed ensures h.current == Some(k) || k in h.down || h.carried == Some(k) {
      assert k !in Lost(h);
    }
  }

  // ------------------------------------------------------------------ when one is lost

  const OK := Choice(CallWrite, true)

  /** `s` after thread `t` has led, dialed and installed undisturbed. */
  function Redialed(s: State<Shared, Pc>, t: Tid, caller: Caller): State<Shared, Pc> {
    var h, k := s.shared, s.shared.dialed;
    State(h.(dialed := k + 1, current := Some(k), installed := h.installed + {k},
             reconnecting := false, leader := None, carried := None),
          s.pcs[t := Success(caller)])
  }

  /** A thread that leads undisturbed dials and installs a new connection in three steps. */
  lemma LoneReconnect(maxRetries: int, s: State<Shared, Pc>, t: Tid, n: nat, c: Choice)
    requires At(s, t).Joining? && !s.shared.reconnecting && c.ok && n >= 3
    ensures Run(Python(maxRetries), s, Alone(t, n, c))
         == Run(Python(maxRetries), Redialed(s, t, At(s, t).caller), Alone(t, n - 3, c))
  {
    var m, h, caller, k := Python(maxRetries), s.shared, At(s, t).caller, s.shared.dialed;
    var led := h.(reconnecting := true, leader := Some(t));
    var dialed := led.(dialed := k + 1, carried := Some(k));
    Depart(m, s, t, n, c, led, Dialing(caller, 0));
    Advance(m, led, s.pcs, t, Dialing(caller, 0), n - 1, c, dialed, Installing(caller, k));
    Advance(m, dialed, s.pcs, t, Installing(caller, k), n - 2, c, Redialed(s, t, caller).shared, Success(caller));
  }

  /**
   A thread that waited for a reconnect which has meanwhile succeeded dials again and loses the
   connection it waited for: the waiting loop returns early only while the flag is still set.
   */
  lemma ServedWaiterLosesConnection(maxRetries: int, schedule: Schedule<Choice>, t: Tid, c: Choice)
    requires var s := After(maxRetries, schedule); At(s, t).Joining? && !s.shared.reconnecting
    requires c.ok
    ensures var h, h' := After(maxRetries, schedule).shared, After(maxRetries, schedule + Alone(t, 3, c)).shared;
            && h'.dialed == h.dialed + 1
            && Lost(h') == Lost(h) + (if h.current.Some? then {h.current.value} else {})
  {
    ReachedAt(maxRetries, schedule, t);
    RunAppend(Python(maxRetries), INITIAL, schedule, Alone(t, 3, c));
    LoneReconnect(maxRetries, After(maxRetries, schedule), t, 3, c);
  }

  function TwoWriteSteps(t: Tid, rest: Schedule<Choice>): Schedule<Choice> {
    [(t, OK)] + ([(t, OK)] + rest)
  }

  lemma WriterJoins(maxRetries: int, s: State<Shared, Pc>, t: Tid, rest: Schedule<Choice>)
    requires At(s, t).Idle? && s.shared.current.None?
    ensures Run(Python(maxRetries), s, TwoWriteSteps(t, rest))
         == Run(Python(maxRetries), State(s.shared, s.pcs[t := Joining(First)]), rest)
  {
    var m := Python(maxRetries);
    RunStep(m, s, t, OK, [(t, OK)] + rest);
    var s1 := Next(m, s, t, OK);
    assert At(s1, t) == Reading;
    RunStep(m, s1, t, OK, rest);
    assert Next(m, s1, t, OK).pcs == s.pcs[t := Joining(First)];
  }

  function TwoWrites(x: Tid, y: Tid): Schedule<Choice> {
    TwoWriteSteps(x, TwoWriteSteps(y, Alone(y, 3, OK)))
  }

  /** Two writing threads suffice, without any failure of the network. */
  lemma TwoWritersLose(maxRetries: int, x: Tid, y: Tid)
    requires x != y
    ensures 0 in Lost(After(maxRetries, TwoWrites(x, y) + Alone(x, 3, OK)).shared)
  {
    WriterJoins(maxRetries, INITIAL, x, TwoWriteSteps(y, Alone(y, 3, OK)));
    var s1 := State(INITIAL.shared, INITIAL.pcs[x := Joining(First)]);
    WriterJoins(maxRetries, s1, y, Alone(y, 3, OK));
    var s2 := State(INITIAL.shared, s1.pcs[y := Joining(First)]);
    LoneReconnect(maxRetries, s2, y, 3, OK);
    assert After(maxRetries, TwoWrites(x, y)) == Redialed(s2, y, First);
    ServedWaiterLosesConnection(maxRetries, TwoWrites(x, y), x, OK);
  }

  const RECONNECT := Choice(CallReconnect, true)

  function ReconnectTwice(r: Tid): Schedule<Choice> {
    [(r, RECONNECT)] + Alone(r, 3, RECONNECT) + [(r, RECONNECT)]
  }

  /** A second call of `reconnect` by the same thread replaces the connection of the first. */
  lemma SecondReconnectLoses(maxRetries: int, r: Tid)
    ensures 0 in Lost(After(maxRetries, ReconnectTwice(r) + Alone(r, 3, RECONNECT)).shared)
  {
    var m, once := Python(maxRetries), [(r, RECONNECT)] + Alone(r, 3, RECONNECT);
    RunStep(m, INITIAL, r, RECONNECT, Alone(r, 3, RECONNECT));
    var s1 := Next(m, INITIAL, r, RECONNECT);
    assert At(s1, r) == Joining(Standalone);
    LoneReconnect(maxRetries, s1, r, 3, RECONNECT);
    var s2 := After(maxRetries, once);
    assert s2 == Redialed(s1, r, Standalone);
    RunAppend(m, INITIAL, once, [(r, RECONNECT)]);
    assert [(r, RECONNECT)] + [] == [(r, RECONNECT)];
    RunStep(m, s2, r, RECONNECT, []);
    assert After(maxRetries, ReconnectTwice(r)) == Next(m, s2, r, RECONNECT);
    ServedWaiterLosesConnection(maxRetries, ReconnectTwice(r), r, RECONNECT);
  }

  // ------------------------------------------------------------------ exactly whose calls lose connections

  /** Only `writers` call `write` and only `reconnectors` call `reconnect`; anybody may close. */
  function Permitted(writers: iset<Tid>, reconnectors: iset<Tid>): (Shared, Tid, Pc, Choice) -> bool {
    (h: Shared, t: Tid, pc: Pc, c: Choice) => pc.Idle? ==> MayCall(writers, reconnectors, t, c.call)
  }

  predicate MayCall(writers: iset<Tid>, reconnectors: iset<Tid>, t: Tid, call: Call) {
    (call.CallWrite? ==> t in writers) && (call.CallReconnect? ==> t in reconnectors)
  }

  /** Some run of the permitted calls loses a connection. */
  ghost predicate LossIsPossible(maxRetries: int, writers: iset<Tid>, reconnectors: iset<Tid>) {
    exists schedule ::
      && Follows(Python(maxRetries), Permitted(writers, reconnectors), INITIAL, schedule)
      && Lost(After(maxRetries, schedule).shared) != {}
  }

  /** Only the writer does more than close; it reconnects without a connection and sends on the current one, if any. */
  predicate LoneWriterInv(w: Tid, h: Shared, t: Tid, pc: Pc) {
    && Local(h, t, pc)
    && (t != w ==> pc.Idle? || pc.Closing?)
    && (pc.Joining? || Leads(pc) ==> h.current.None?)
    && (pc.Sending? || pc.Dropping? ==> h.current.None? || h.current == Some(pc.conn))
  }

  lemma StepKeepsLoneWriter(maxRetries: int, w: Tid, h: Shared, t: Tid, pc: Pc, c: Choice)
    requires NoneLost(h) && LoneWriterInv(w, h, t, pc) && Permitted(iset{w}, iset{})(h, t, pc, c)
    ensures var (h', pc') := Step(maxRetries, h, t, pc, c); NoneLost(h') && LoneWriterInv(w, h', t, pc')
  {
    StepGuarantees(maxRetries, h, t, pc, c);
  }

  lemma StepKeepsLoneWriterOthers(maxRetries: int, w: Tid, h: Shared, t: Tid, pc: Pc, c: Choice, u: Tid, q: Pc)
    requires NoneLost(h) && LoneWriterInv(w, h, t, pc) && u != t && LoneWriterInv(w, h, u, q)
    ensures LoneWriterInv(w, Step(maxRetries, h, t, pc, c).0, u, q)
  {
    StepGuaranteesOthers(maxRetries, h, t, pc, c, u, q);
  }

  /** One writer, with anybody closing, never loses a connection. */
  lemma LoneWriterLosesNothing(maxRetries: int, w: Tid, schedule: Schedule<Choice>)
    requires Follows(Python(maxRetries), Permitted(iset{w}, iset{}), INITIAL, schedule)
    ensures Lost(After(maxRetries, schedule).shared) == {}
  {
    var m, allowed := Python(maxRetries), Permitted(iset{w}, iset{});
    var local := (h: Shared, t: Tid, pc: Pc) => LoneWriterInv(w, h, t, pc);
    forall h: Shared, t: Tid, pc: Pc, c: Choice | NoneLost(h) && local(h, t, pc) && allowed(h, t, pc, c)
      ensures var (h', pc') := m.step(h, t, pc, c);
              && NoneLost(h') && local(h', t, pc')
              && forall u: Tid, q: Pc :: u != t && local(h, u, q) ==> local(h', u, q)
    {
      StepKeepsLoneWriter(maxRetries, w, h, t, pc, c);
      forall u: Tid, q: Pc | u != t && local(h, u, q) ensures local(Step(maxRetries, h, t, pc, c).0, u, q) {
        StepKeepsLoneWriterOthers(maxRetries, w, h, t, pc, c, u, q);
      }
    }
    RunSatisfies(m, allowed, NoneLost, local, INITIAL, schedule);
  }

  lemma {:induction false} PermittedCallsFollow(
    maxRetries: int, writers: iset<Tid>, reconnectors: iset<Tid>, s: State<Shared, Pc>, schedule: Schedule<Choice>)
    requires forall i :: 0 <= i < |schedule| ==> MayCall(writers, reconnectors, schedule[i].0, schedule[i].1.call)
    ensures Follows(Python(maxRetries), Permitted(writers, reconnectors), s, schedule)
    decreases schedule
  {
    if schedule != [] {
      assert forall i :: 0 <= i < |schedule[1..]| ==> schedule[1..][i] == schedule[i + 1];
      var s1 := Next(Python(maxRetries), s, schedule[0].0, schedule[0].1);
      PermittedCallsFollow(maxRetries, writers, reconnectors, s1, schedule[1..]);
    }
  }

  /** A loss is possible exactly if some thread may call `reconnect` or at least two may call `write`. */
  lemma LossIsPossibleIff(maxRetries: int, writers: iset<Tid>, reconnectors: iset<Tid>)
    ensures LossIsPossible(maxRetries, writers, reconnectors)
       <==> (exists r :: r in reconnectors) || (exists x, y :: x in writers && y in writers && x != y)
  {
    if r :| r in reconnectors {
      SecondReconnectLoses(maxRetries, r);
      PermittedCallsFollow(maxRetries, writers, reconnectors, INITIAL, ReconnectTwice(r) + Alone(r, 3, RECONNECT));
    } else if x, y :| x in writers && y in writers && x != y {
      TwoWritersLose(maxRetries, x, y);
      PermittedCallsFollow(maxRetries, writers, reconnectors, INITIAL, TwoWrites(x, y) + Alone(x, 3, OK));
    } else if LossIsPossible(maxRetries, writers, reconnectors) {
      var schedule :|
        && Follows(Python(maxRetries), Permitted(writers, reconnectors), INITIAL, schedule)
        && Lost(After(maxRetries, schedule).shared) != {};
      var w := if w :| w in writers then w else 0;
      FollowsWeaker(Python(maxRetries), Permitted(writers, reconnectors), Permitted(iset{w}, iset{}), INITIAL,
          schedule);
      LoneWriterLosesNothing(maxRetries, w, schedule);
      assert false;
    }
  }

  // ------------------------------------------------------------------ close

  const CLOSE := Choice(CallClose, true)

  /** Thread `u` calls `close`, and then thread `t` moves twice. */
  function CloseThenMove(u: Tid, t: Tid): Schedule<Choice> {
    [(u, CLOSE)] + ([(u, CLOSE)] + ([(t, OK)] + ([(t, OK)] + [])))
  }

  function Closed(s: State<Shared, Pc>, u: Tid): State<Shared, Pc> {
    State(Drop(s.shared).(closes := s.shared.closes + 1), s.pcs[u := Idle])
  }

  lemma CloseDrops(maxRetries: int, s: State<Shared, Pc>, u: Tid, rest: Schedule<Choice>)
    requires At(s, u).Idle?
    ensures Run(Python(maxRetries), s, [(u, CLOSE)] + ([(u, CLOSE)] + rest))
        == Run(Python(maxRetries), Closed(s, u), rest)
  {
    var m := Python(maxRetries);
    RunStep(m, s, u, CLOSE, [(u, CLOSE)] + rest);
    var s1 := Next(m, s, u, CLOSE);
    assert s1 == State(s.shared, s.pcs[u := Closing]);
    RunStep(m, s1, u, CLOSE, rest);
    assert s1.pcs[u := Idle] == s.pcs[u := Idle];
    assert Next(m, s1, u, CLOSE) == Closed(s, u);
  }

  /**
   `close` does not stop a leader: whenever a thread is dialing and another one closes, the
   dialed connection is installed afterwards and stays open.
   */
  lemma CloseDoesNotStopLeader(maxRetries: int, schedule: Schedule<Choice>, t: Tid, u: Tid)
    requires var s := After(maxRetries, schedule); At(s, t).Dialing? && At(s, u).Idle? && t != u
    ensures var h, h' := After(maxRetries, schedule).shared, After(maxRetries, schedule + CloseThenMove(u, t)).shared;
            h'.closes == h.closes + 1 && h'.current == Some(h.dialed) && h.dialed !in h'.down
  {
    var m := Python(maxRetries);
    ReachedAt(maxRetries, schedule, t);
    var s := After(maxRetries, schedule);
    RunAppend(m, INITIAL, schedule, CloseThenMove(u, t));
    CloseDrops(maxRetries, s, u, [(t, OK)] + ([(t, OK)] + []));
    var s1 := Closed(s, u);
    RunStep(m, s1, t, OK, [(t, OK)] + []);
    var s2 := Next(m, s1, t, OK);
    RunStep(m, s2, t, OK, []);
  }

  // ------------------------------------------------------------------ when close keeps the connection closed

  /** No idle thread starts a call: the calls that are under way run on, in any order. */
  predicate NoNewCall(h: Shared, t: Tid, pc: Pc, c: Choice) {
    !pc.Idle?
  }

  predicate IsConnected(h: Shared) { h.current.Some? }

  predicate IsUnconnected(h: Shared) { h.current.None? }

  /** Program points from which a thread still reconnects once `current_conn` is None. */
  predicate WillReconnect(pc: Pc) {
    pc.Reading? || pc.Sending? || pc.Dropping? || pc.Joining? || pc.Dialing? || pc.Installing?
  }

  predicate WindsDown(h: Shared, t: Tid, pc: Pc) { !WillReconnect(pc) }

  ghost predicate Reconnects(maxRetries: int, s: State<Shared, Pc>) {
    CanReach(Python(maxRetries), NoNewCall, IsConnected, s)
  }

  lemma MoveOn(maxRetries: int, s: State<Shared, Pc>, t: Tid, c: Choice)
    requires !At(s, t).Idle? && Reconnects(maxRetries, Next(Python(maxRetries), s, t, c))
    ensures Reconnects(maxRetries, s)
  {
    ReachedAfter(Python(maxRetries), NoNewCall, IsConnected, s, t, c);
  }

  lemma LeaderReconnects(maxRetries: int, s: State<Shared, Pc>, t: Tid)
    requires At(s, t).Dialing? || At(s, t).Installing?
    ensures Reconnects(maxRetries, s)
    decreases At(s, t).Dialing?
  {
    var s1 := Next(Python(maxRetries), s, t, OK);
    if At(s, t).Dialing? {
      LeaderReconnects(maxRetries, s1, t);
    } else {
      ReachedNow(Python(maxRetries), NoNewCall, IsConnected, s1);
    }
    MoveOn(maxRetries, s, t, OK);
  }

  ghost predicate HasLeader(s: State<Shared, Pc>) {
    s.shared.reconnecting ==> exists w :: Leads(At(s, w))
  }

  /**
   A thread at the top of `reconnect` gets a connection: from the leader, or by leading itself once
   the leader gave up.
   */
  lemma JoiningReconnects(maxRetries: int, s: State<Shared, Pc>, t: Tid)
    requires At(s, t).Joining? && HasLeader(s)
    ensures Reconnects(maxRetries, s)
    decreases s.shared.reconnecting
  {
    if s.shared.reconnecting {
      var w :| Leads(At(s, w));
      if At(s, w).GivingUp? {
        var s1 := Next(Python(maxRetries), s, w, OK);
        assert At(s1, t) == At(s, t) && !s1.shared.reconnecting;
        JoiningReconnects(maxRetries, s1, t);
        MoveOn(maxRetries, s, w, OK);
      } else {
        LeaderReconnects(maxRetries, s, w);
      }
    } else {
      var s1 := Next(Python(maxRetries), s, t, OK);
      assert At(s1, t).Dialing?;
      LeaderReconnects(maxRetries, s1, t);
      MoveOn(maxRetries, s, t, OK);
    }
  }

  lemma StepKeepsLeader(maxRetries: int, s: State<Shared, Pc>, t: Tid, c: Choice)
    requires HasLeader(s) && !Leads(At(s, t)) && !At(s, t).Joining?
    ensures HasLeader(Next(Python(maxRetries), s, t, c))
  {
    if s.shared.reconnecting {
      var w :| Leads(At(s, w));
      assert At(Next(Python(maxRetries), s, t, c), w) == At(s, w);
    }
  }

  const FAIL := Choice(CallWrite, false)

  function StepsToJoin(pc: Pc): nat {
    if pc.Sending? then 2 else if pc.Reading? || pc.Dropping? then 1 else 0
  }

  lemma StillReconnects(maxRetries: int, s: State<Shared, Pc>, t: Tid)
    requires WillReconnect(At(s, t)) && HasLeader(s) && s.shared.current.None?
    ensures Reconnects(maxRetries, s)
    decreases StepsToJoin(At(s, t))
  {
    if Leads(At(s, t)) {
      LeaderReconnects(maxRetries, s, t);
    } else if At(s, t).Joining? {
      JoiningReconnects(maxRetries, s, t);
    } else {
      StepKeepsLeader(maxRetries, s, t, FAIL);
      StillReconnects(maxRetries, Next(Python(maxRetries), s, t, FAIL), t);
      MoveOn(maxRetries, s, t, FAIL);
    }
  }

  lemma WoundDownStaysUnconnected(maxRetries: int, s: State<Shared, Pc>, schedule: Schedule<Choice>)
    requires s.shared.current.None? && forall t :: !WillReconnect(At(s, t))
    requires Follows(Python(maxRetries), NoNewCall, s, schedule)
    ensures Run(Python(maxRetries), s, schedule).shared.current.None?
  {
    var m := Python(maxRetries);
    assert forall t :: PcOf(m, s, t) == At(s, t);
    RunSatisfies(m, NoNewCall, IsUnconnected, WindsDown, s, schedule);
  }

  /**
   Without a current connection, the calls under way install one in some continuation exactly if
   some thread is at a point from which it still reconnects.
   */
  lemma StaysUnconnectedIff(maxRetries: int, schedule: Schedule<Choice>)
    requires After(maxRetries, schedule).shared.current.None?
    ensures var s := After(maxRetries, schedule);
            Reconnects(maxRetries, s) <==> exists t :: WillReconnect(At(s, t))
  {
    var s := After(maxRetries, schedule);
    if t :| WillReconnect(At(s, t)) {
      OneLeader(maxRetries, schedule, t, t);
      StillReconnects(maxRetries, s, t);
    } else if Reconnects(maxRetries, s) {
      var rest: Schedule<Choice> :|
        Follows(Python(maxRetries), NoNewCall, s, rest) && IsConnected(Run(Python(maxRetries), s, rest).shared);
      WoundDownStaysUnconnected(maxRetries, s, rest);
      assert false;
    }
  }

  /** So `close` keeps the connection closed against the calls under way exactly if none of them will reconnect. */
  lemma CloseKeepsClosedIff(maxRetries: int, schedule: Schedule<Choice>, u: Tid)
    requires At(After(maxRetries, schedule), u).Closing?
    ensures var s := After(maxRetries, schedule + [(u, CLOSE)]);
            s.shared.current.None? && (!Reconnects(maxRetries, s) <==> forall t :: !WillReconnect(At(s, t)))
  {
    RunAppend(Python(maxRetries), INITIAL, schedule, [(u, CLOSE)]);
    var s := After(maxRetries, schedule);
    RunStep(Python(maxRetries), s, u, CLOSE, []);
    assert [(u, CLOSE)] + [] == [(u, CLOSE)];
    StaysUnconnectedIff(maxRetries, schedule + [(u, CLOSE)]);
  }

  // ------------------------------------------------------------------ what a call does when it is alone

  /** A write over a connection that works sends on it and changes nothing. */
  lemma LoneWrite(maxRetries: int, s: State<Shared, Pc>, t: Tid)
    requires At(s, t).Idle? && s.shared.current.Some?
    ensures Run(Python(maxRetries), s, Alone(t, 2, OK)) == State(s.shared, s.pcs[t := Sending(s.shared.current.value)])
    ensures Run(Python(maxRetries), s, Alone(t, 3, OK)) == State(s.shared, s.pcs[t := Idle])
  {
    var m, h := Python(maxRetries), s.shared;
    var sending := Sending(h.current.value);
    Depart(m, s, t, 2, OK, h, Reading);
    Depart(m, s, t, 3, OK, h, Reading);
    Advance(m, h, s.pcs, t, Reading, 1, OK, h, sending);
    Advance(m, h, s.pcs, t, Reading, 2, OK, h, sending);
    Advance(m, h, s.pcs, t, sending, 1, OK, h, Idle);
  }

  /** `h` after one more connection was dialed and became the current one. */
  function Renewed(h: Shared, down: set<Conn>): Shared {
    Shared(false, Some(h.dialed), h.dialed + 1, h.installed + {h.dialed}, down, None, None, h.closes)
  }

  /** A thread inside `reconnect` on behalf of a write comes back to the write with the new connection. */
  lemma ReconnectReturnsToWrite(maxRetries: int, h: Shared, pcs: map<Tid, Pc>, t: Tid, caller: Caller, n: nat)
    requires !h.reconnecting && caller != Standalone && n >= 4
    ensures Run(Python(maxRetries), State(h, pcs[t := Joining(caller)]), Alone(t, n, OK))
         == Run(Python(maxRetries),
                State(Renewed(h, h.down), pcs[t := if caller == First then Sending(h.dialed) else Resending(h.dialed)]),
                Alone(t, n - 4, OK))
  {
    var s := State(h, pcs[t := Joining(caller)]);
    LoneReconnect(maxRetries, s, t, n, OK);
    assert s.pcs[t := Success(caller)] == pcs[t := Success(caller)];
    var renewed, sending := Renewed(h, h.down), if caller == First then Sending(h.dialed) else Resending(h.dialed);
    Advance(Python(maxRetries), renewed, pcs, t, Success(caller), n - 3, OK, renewed, sending);
  }

  /** A write that finds no connection dials one and is sent over it. */
  lemma LoneWriteConnects(maxRetries: int, s: State<Shared, Pc>, t: Tid)
    requires At(s, t).Idle? && s.shared.current.None? && !s.shared.reconnecting
    ensures Run(Python(maxRetries), s, Alone(t, 6, OK))
         == State(Renewed(s.shared, s.shared.down), s.pcs[t := Sending(s.shared.dialed)])
    ensures Run(Python(maxRetries), s, Alone(t, 7, OK))
         == State(Renewed(s.shared, s.shared.down), s.pcs[t := Idle])
  {
    var m, h := Python(maxRetries), s.shared;
    Depart(m, s, t, 6, OK, h, Reading);
    Depart(m, s, t, 7, OK, h, Reading);
    Advance(m, h, s.pcs, t, Reading, 5, OK, h, Joining(First));
    Advance(m, h, s.pcs, t, Reading, 6, OK, h, Joining(First));
    ReconnectReturnsToWrite(maxRetries, h, s.pcs, t, First, 4);
    ReconnectReturnsToWrite(maxRetries, h, s.pcs, t, First, 5);
    Advance(m, Renewed(h, h.down), s.pcs, t, Sending(h.dialed), 1, OK, Renewed(h, h.down), Idle);
  }

  lemma FailedSendRedials(maxRetries: int, s: State<Shared, Pc>, t: Tid, k: Conn, n: nat)
    requires At(s, t) == Sending(k) && s.shared.current == Some(k) && !s.shared.reconnecting && n >= 5
    ensures Run(Python(maxRetries), s, [(t, FAIL)] + Alone(t, n, OK))
         == Run(Python(maxRetries),
                State(Renewed(s.shared, s.shared.down + {k}), s.pcs[t := Resending(s.shared.dialed)]),
                Alone(t, n - 5, OK))
  {
    var m, h := Python(maxRetries), s.shared;
    var dropped := h.(down := h.down + {k}, current := None);
    RunStep(m, s, t, FAIL, Alone(t, n, OK));
    assert Next(m, s, t, FAIL) == State(h, s.pcs[t := Dropping(k)]);
    Advance(m, h, s.pcs, t, Dropping(k), n, OK, dropped, Joining(Again));
    ReconnectReturnsToWrite(maxRetries, dropped, s.pcs, t, Again, n - 1);
  }

  /** A write whose first send fails heals itself: it closes that connection, dials another and sends again over it. */
  lemma LoneWriteHeals(maxRetries: int, s: State<Shared, Pc>, t: Tid, k: Conn)
    requires At(s, t) == Sending(k) && s.shared.current == Some(k) && !s.shared.reconnecting
    ensures Run(Python(maxRetries), s, [(t, FAIL)] + Alone(t, 5, OK))
         == State(Renewed(s.shared, s.shared.down + {k}), s.pcs[t := Resending(s.shared.dialed)])
    ensures Run(Python(maxRetries), s, [(t, FAIL)] + Alone(t, 6, OK))
         == State(Renewed(s.shared, s.shared.down + {k}), s.pcs[t := Idle])
  {
    FailedSendRedials(maxRetries, s, t, k, 5);
    FailedSendRedials(maxRetries, s, t, k, 6);
    var renewed := Renewed(s.shared, s.shared.down + {k});
    Advance(Python(maxRetries), renewed, s.pcs, t, Resending(s.shared.dialed), 1, OK, renewed, Idle);
  }

  /** A failed send drops only the connection it was made on. */
  lemma OtherConnectionIsKept(maxRetries: int, s: State<Shared, Pc>, t: Tid, k: Conn, c: Choice)
    requires At(s, t) == Dropping(k) && s.shared.current != Some(k)
    ensures Run(Python(maxRetries), s, Alone(t, 1, c)) == State(s.shared, s.pcs[t := Joining(Again)])
  {
    Depart(Python(maxRetries), s, t, 1, c, s.shared, Joining(Again));
  }

  /** While another thread leads, a waiting thread is served by the current connection and returns to its own caller. */
  lemma WaiterIsServed(maxRetries: int, s: State<Shared, Pc>, t: Tid, c: Choice)
    requires At(s, t).Joining? && s.shared.reconnecting && s.shared.current.Some?
    ensures var served := match At(s, t).caller
                          case First => Rereading case Again => ReadingAgain case Standalone => Idle;
            Run(Python(maxRetries), s, Alone(t, 1, c)) == State(s.shared, s.pcs[t := served])
  {
    Depart(Python(maxRetries), s, t, 1, c, s.shared, Success(At(s, t).caller));
  }

  /** A leader whose dials all fail gives up after exactly `maxRetries` + 1 of them, and its call returns. */
  lemma {:induction false} FailingLeaderGivesUp(
    maxRetries: nat, h: Shared, pcs: map<Tid, Pc>, t: Tid, caller: Caller, i: nat, c: Choice)
    requires i <= maxRetries && !c.ok
    ensures Run(Python(maxRetries), State(h, pcs[t := Dialing(caller, i)]), Alone(t, maxRetries - i + 2, c))
         == State(Shared(false, h.current, h.dialed, h.installed, h.down, None, h.carried, h.closes), pcs[t := Idle])
    decreases maxRetries - i
  {
    var m, n, resigned := Python(maxRetries), maxRetries - i + 2, h.(reconnecting := false, leader := None);
    if i < maxRetries {
      Advance(m, h, pcs, t, Dialing(caller, i), n, c, h, Dialing(caller, i + 1));
      FailingLeaderGivesUp(maxRetries, h, pcs, t, caller, i + 1, c);
    } else {
      Advance(m, h, pcs, t, Dialing(caller, i), 2, c, h, GivingUp(caller));
      Advance(m, h, pcs, t, GivingUp(caller), 1, c, resigned, Idle);
    }
  }

  /** A write that comes back from `reconnect` and finds no connection fails without another attempt. */
  lemma UnservedWriteFails(maxRetries: int, s: State<Shared, Pc>, t: Tid, c: Choice)
    requires (At(s, t).Rereading? || At(s, t).ReadingAgain?) && s.shared.current.None?
    ensures Run(Python(maxRetries), s, Alone(t, 1, c)) == State(s.shared, s.pcs[t := Idle])
  {
    Depart(Python(maxRetries), s, t, 1, c, s.shared, Idle);
  }

  /** `close` alone closes and forgets the current connection. */
  lemma LoneClose(maxRetries: int, s: State<Shared, Pc>, t: Tid)
    requires At(s, t).Idle?
    ensures var h := s.shared;
            var down := if h.current.Some? then h.down + {h.current.value} else h.down;
            Run(Python(maxRetries), s, Alone(t, 2, CLOSE))
            == State(h.(current := None, down := down, closes := h.closes + 1), s.pcs[t := Idle])
  {
    var m, h := Python(maxRetries), s.shared;
    Depart(m, s, t, 2, CLOSE, h, Closing);
    Advance(m, h, s.pcs, t, Closing, 1, CLOSE, Drop(h).(closes := h.closes + 1), Idle);
  }

  // ------------------------------------------------------------------ retry limit

  /** The dials since the thread last took leadership. */
  function CountDials(before: Pc, after: Pc, n: nat): nat {
    if before.Joining? && after.Dialing? then 0 else if before.Dialing? then n + 1 else n
  }

  function Dials(maxRetries: int, schedule: Schedule<Choice>, t: Tid): nat {
    Tally(Python(maxRetries), INITIAL, schedule, t, 0, CountDials)
  }

  function Most(maxRetries: int): nat {
    if maxRetries < 0 then 1 else maxRetries + 1
  }

  predicate WithinLimit(maxRetries: int, pc: Pc, n: nat) {
    && (pc.Dialing? ==> n == pc.i && (pc.i == 0 || maxRetries == -1 || pc.i <= maxRetries))
    && (maxRetries == -1 || n <= Most(maxRetries))
  }

  lemma StepStaysWithinLimit(maxRetries: int, h: Shared, t: Tid, pc: Pc, c: Choice, n: nat)
    requires WithinLimit(maxRetries, pc, n)
    ensures var after := Step(maxRetries, h, t, pc, c).1; WithinLimit(maxRetries, after, CountDials(pc, after, n))
  {
  }

  /** In every run no leader dials more than `max_retries` + 1 times, unless `max_retries` is -1. */
  lemma AttemptsAreLimited(maxRetries: int, schedule: Schedule<Choice>, t: Tid)
    requires maxRetries != -1
    ensures Dials(maxRetries, schedule, t) <= Most(maxRetries)
  {
    var m, keeps := Python(maxRetries), (pc: Pc, n: nat) => WithinLimit(maxRetries, pc, n);
    forall h: Shared, pc: Pc, c: Choice, n: nat | keeps(pc, n)
      ensures keeps(m.step(h, t, pc, c).1, CountDials(pc, m.step(h, t, pc, c).1, n))
    {
      StepStaysWithinLimit(maxRetries, h, t, pc, c, n);
    }
    TallyKeeps(m, INITIAL, schedule, t, 0, CountDials, keeps);
  }
}
