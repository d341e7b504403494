/**
 The Go `NotificationClient`: senders share one lazily dialed connection behind a read-write
 mutex, with the checks on `closed` and `client` made once under the read lock and again under
 the write lock. Connections are numbered in the order of their dials; the client built on
 connection `k` is represented by `k`.
 */
module Notification {
  import opened Wrappers
  import opened Interleaving

  type Conn = nat

  datatype Pc =
    | Idle
    | ReadLocking                 // getOrCreateClient, before RLock
    | Reading                     // first check, under the read lock
    | WriteLocking                // before Lock
    | Checking                    // second check, under the write lock
    | Dialing
    | Publishing(dialed: Conn)    // conn is set, client not yet
    | Answered(client: Conn)      // returned a client
    | Refused                     // returned an error
    | CloseLocking
    | CloseEntered
    | CloseClearing

  /**
   `dials` counts the successful dials, `lateDials` the dials attempted once `closed` was set,
   `shut` the closed connections.
   */
  datatype Shared = Shared(
    readers: set<Tid>,
    writer: Option<Tid>,
    closed: bool,
    conn: Option<Conn>,
    client: Option<Conn>,
    dials: nat,
    lateDials: nat,
    shut: set<Conn>)

  datatype Call = CallSend | CallClose

  datatype Choice = Choice(call: Call, ok: bool)

  function WriteLock(h: Shared, t: Tid, waiting: Pc, entered: Pc): (Shared, Pc) {
    if h.writer.None? && h.readers == {} then (h.(writer := Some(t)), entered) else (h, waiting)
  }

  function Step(h: Shared, t: Tid, pc: Pc, c: Choice): (Shared, Pc) {
    match pc
    case Idle => (h, if c.call.CallSend? then ReadLocking else CloseLocking)
    case ReadLocking =>
      if h.writer.None? then (h.(readers := h.readers + {t}), Reading) else (h, pc)
    case Reading =>
      (h.(readers := h.readers - {t}),
       if h.closed then Refused else if h.client.Some? then Answered(h.client.value) else WriteLocking)
    case WriteLocking => WriteLock(h, t, pc, Checking)
    case Checking =>
      if h.closed then (h.(writer := None), Refused)
      else if h.client.Some? then (h.(writer := None), Answered(h.client.value))
      else (h, Dialing)
    case Dialing =>
      var h1 := h.(lateDials := if h.closed then h.lateDials + 1 else h.lateDials);
      if c.ok then (h1.(dials := h.dials + 1, conn := Some(h.dials)), Publishing(h.dials))
      else (h1.(writer := None), Refused)
    case Publishing(k) => (h.(writer := None, client := Some(k)), Answered(k))
    case Answered(_) => (h, Idle)
    case Refused => (h, Idle)
    case CloseLocking => WriteLock(h, t, pc, CloseEntered)
    case CloseEntered => (h.(closed := true), CloseClearing)
    case CloseClearing =>
      if h.conn.None? then (h.(writer := None), Idle)
      else (h.(writer := None, shut := h.shut + {h.conn.value}, conn := None, client := None), Idle)
  }

  const CLIENT: Machine<Shared, Pc, Choice> := Machine(Idle, Step)
  const INITIAL: State<Shared, Pc> := State(Shared({}, None, false, None, None, 0, 0, {}), map[])

  function After(schedule: Schedule<Choice>): State<Shared, Pc> {
    Run(CLIENT, INITIAL, schedule)
  }

  function At(s: State<Shared, Pc>, t: Tid): Pc {
    if t in s.pcs then s.pcs[t] else Idle
  }

  predicate WriteHeld(pc: Pc) {
    pc.Checking? || pc.Dialing? || pc.Publishing? || pc.CloseEntered? || pc.CloseClearing?
  }

  ghost predicate Global(h: Shared) {
    && (h.writer.Some? ==> h.readers == {})
    && h.dials <= 1
    && h.lateDials == 0
    && (h.conn.Some? ==> h.conn == Some(0))
    && (h.client.Some? ==> h.client == h.conn)
    && (h.dials == 1 <==> h.conn.Some? || 0 in h.shut)
    && (h.writer.None? ==> (h.client.Some? <==> h.conn.Some?))
    && (h.writer.None? && h.closed ==> h.conn.None?)
    && (0 in h.shut ==> h.closed && h.conn.None?)
    && (forall k <- h.shut :: k == 0)
  }

  predicate Local(h: Shared, t: Tid, pc: Pc) {
    && (WriteHeld(pc) <==> h.writer == Some(t))
    && (pc.Reading? <==> t in h.readers)
    && (WriteHeld(pc) && !pc.Publishing? ==> (h.client.Some? <==> h.conn.Some?))
    && (pc.Checking? && h.closed ==> h.conn.None?)
    && (pc.Dialing? ==> !h.closed && h.conn.None? && h.dials == 0)
    && (pc.Publishing? ==> !h.closed && h.conn == Some(pc.dialed))
    && (pc.CloseEntered? && h.closed ==> h.conn.None?)
    && (pc.CloseClearing? ==> h.closed)
    && (pc.Answered? ==> pc.client == 0 && h.dials == 1)
  }

  predicate Any(h: Shared, t: Tid, pc: Pc, c: Choice) { true }

  lemma StepGuaranteesSelf(h: Shared, t: Tid, pc: Pc, c: Choice)
    requires Global(h) && Local(h, t, pc)
    ensures var (h', pc') := Step(h, t, pc, c); Global(h') && Local(h', t, pc')
  {
  }

  lemma StepGuaranteesOthers(h: Shared, t: Tid, pc: Pc, c: Choice, u: Tid, q: Pc)
    requires Global(h) && Local(h, t, pc) && u != t && Local(h, u, q)
    ensures Local(Step(h, t, pc, c).0, u, q)
  {
  }

  lemma ClientGuarantees()
    ensures Guarantees(CLIENT, Any, Global, Local)
  {
    forall h: Shared, t: Tid, pc: Pc, c: Choice | Global(h) && Local(h, t, pc)
      ensures var (h', pc') := CLIENT.step(h, t, pc, c);
              && Global(h') && Local(h', t, pc')
              && forall u: Tid, q: Pc :: u != t && Local(h, u, q) ==> Local(h', u, q)
    {
      StepGuaranteesSelf(h, t, pc, c);
      forall u: Tid, q: Pc | u != t && Local(h, u, q) ensures Local(Step(h, t, pc, c).0, u, q) {
        StepGuaranteesOthers(h, t, pc, c, u, q);
      }
    }
  }

  lemma Reached(schedule: Schedule<Choice>, t: Tid)
    ensures var s := After(schedule); Global(s.shared) && Local(s.shared, t, At(s, t))
  {
    ClientGuarantees();
    AnyRunFollows(CLIENT, Any, INITIAL, schedule);
    RunSatisfies(CLIENT, Any, Global, Local, INITIAL, schedule);
    assert Local(After(schedule).shared, t, PcOf(CLIENT, After(schedule), t));
  }

  /** In every interleaving at most one dial succeeds, and every caller that is given a client is given that one. */
  lemma AtMostOneDial(schedule: Schedule<Choice>, t: Tid)
    ensures var s := After(schedule);
            && s.shared.dials <= 1
            && (At(s, t).Answered? ==> s.shared.dials == 1 && At(s, t).client == 0)
  {
    Reached(schedule, t);
  }

  /**
   Outside the write lock, `conn` and `client` are set together or unset together, and readers
   never overlap a writer.
   */
  lemma FieldsAgree(schedule: Schedule<Choice>)
    ensures var h := After(schedule).shared;
            && (h.writer.None? ==> h.conn == h.client)
            && (h.writer.Some? ==> h.readers == {})
  {
    Reached(schedule, 0);
  }

  /** Once closed, no dial is ever attempted, and outside the write lock the dialed connection, if any, is closed. */
  lemma ClosedIsQuiet(schedule: Schedule<Choice>)
    ensures var h := After(schedule).shared;
            && h.lateDials == 0
            && (h.closed && h.writer.None? ==> h.conn.None? && forall k: Conn :: k < h.dials ==> k in h.shut)
  {
    Reached(schedule, 0);
  }

  predicate Evolves(h: Shared, h': Shared) {
    && h.shut <= h'.shut
    && (h.closed ==> h'.closed && h'.dials == h.dials)
  }

  /** `closed` is never undone, so from the first `Close` on the number of dials is fixed. */
  lemma ClosedFixesDials(a: Schedule<Choice>, b: Schedule<Choice>)
    requires After(a).shared.closed
    ensures var h, h' := After(a).shared, After(a + b).shared;
            h'.closed && h'.dials == h.dials && h.shut <= h'.shut
  {
    ClientGuarantees();
    AnyRunFollows(CLIENT, Any, INITIAL, a);
    RunSatisfies(CLIENT, Any, Global, Local, INITIAL, a);
    AnyRunFollows(CLIENT, Any, After(a), b);
    RunRelates(CLIENT, Any, Global, Local, Evolves, After(a), b);
    RunAppend(CLIENT, INITIAL, a, b);
  }

  // ------------------------------------------------------------------ what a call does when it is alone

  function Send(ok: bool): Choice {
    Choice(CallSend, ok)
  }

  /** The write lock is free to take. */
  predicate LockFree(h: Shared) {
    h.writer.None? && h.readers == {}
  }

  /** The first check only reads, and either answers or goes on to the write lock. */
  lemma FirstCheck(s: State<Shared, Pc>, t: Tid, n: nat, ok: bool)
    requires At(s, t).ReadLocking? && LockFree(s.shared) && n >= 2
    ensures var pc := if s.shared.closed then Refused
                      else if s.shared.client.Some? then Answered(s.shared.client.value) else WriteLocking;
            Run(CLIENT, s, Alone(t, n, Send(ok)))
            == Run(CLIENT, State(s.shared, s.pcs[t := pc]), Alone(t, n - 2, Send(ok)))
  {
    var h, c := s.shared, Send(ok);
    var pc := if h.closed then Refused else if h.client.Some? then Answered(h.client.value) else WriteLocking;
    assert {} + {t} == {t} && {t} - {t} == {};
    Depart(CLIENT, s, t, n, c, h.(readers := {t}), Reading);
    Advance(CLIENT, h.(readers := {t}), s.pcs, t, Reading, n - 1, c, h, pc);
  }

  /** A sender that finds a client is given that one; no lock stays taken and no dial is made. */
  lemma LoneSenderIsAnswered(s: State<Shared, Pc>, t: Tid, k: Conn, ok: bool)
    requires At(s, t).ReadLocking? && LockFree(s.shared) && !s.shared.closed && s.shared.client == Some(k)
    ensures Run(CLIENT, s, Alone(t, 2, Send(ok))) == State(s.shared, s.pcs[t := Answered(k)])
  {
    FirstCheck(s, t, 2, ok);
  }

  /** A sender on a closed client is refused, whatever the fields hold. */
  lemma LoneSenderIsRefused(s: State<Shared, Pc>, t: Tid, ok: bool)
    requires At(s, t).ReadLocking? && LockFree(s.shared) && s.shared.closed
    ensures Run(CLIENT, s, Alone(t, 2, Send(ok))) == State(s.shared, s.pcs[t := Refused])
  {
    FirstCheck(s, t, 2, ok);
  }

  /** The sender that finds no client goes on to dial, holding the write lock. */
  lemma SenderDials(s: State<Shared, Pc>, t: Tid, n: nat, ok: bool)
    requires At(s, t).ReadLocking? && LockFree(s.shared) && !s.shared.closed && s.shared.client.None? && n >= 4
    ensures Run(CLIENT, s, Alone(t, n, Send(ok)))
         == Run(CLIENT, State(s.shared.(writer := Some(t)), s.pcs[t := Dialing]), Alone(t, n - 4, Send(ok)))
  {
    var h, c := s.shared, Send(ok);
    FirstCheck(s, t, n, ok);
    Advance(CLIENT, h, s.pcs, t, WriteLocking, n - 2, c, h.(writer := Some(t)), Checking);
    Advance(CLIENT, h.(writer := Some(t)), s.pcs, t, Checking, n - 3, c, h.(writer := Some(t)), Dialing);
  }

  /**
   A sender on an open client without a connection dials one, publishes the connection and its
   client, releases the lock and is given that client.
   */
  lemma LoneSenderConnects(s: State<Shared, Pc>, t: Tid)
    requires At(s, t).ReadLocking? && LockFree(s.shared) && !s.shared.closed
    requires s.shared.conn.None? && s.shared.client.None?
    ensures var h := s.shared;
            Run(CLIENT, s, Alone(t, 6, Send(true)))
            == State(Shared({}, None, false, Some(h.dials), Some(h.dials), h.dials + 1, h.lateDials, h.shut),
                     s.pcs[t := Answered(h.dials)])
  {
    var h, c, k := s.shared, Send(true), s.shared.dials;
    var dialed := h.(writer := Some(t), dials := k + 1, conn := Some(k));
    SenderDials(s, t, 6, true);
    Advance(CLIENT, h.(writer := Some(t)), s.pcs, t, Dialing, 2, c, dialed, Publishing(k));
    Advance(CLIENT, dialed, s.pcs, t, Publishing(k), 1, c, dialed.(writer := None, client := Some(k)), Answered(k));
  }

  /** The same from the start of the call: the first call of a fresh client is given a client. */
  lemma LoneSendConnects(s: State<Shared, Pc>, t: Tid)
    requires At(s, t).Idle? && LockFree(s.shared) && !s.shared.closed
    requires s.shared.conn.None? && s.shared.client.None?
    ensures var h := s.shared;
            Run(CLIENT, s, Alone(t, 7, Send(true)))
            == State(Shared({}, None, false, Some(h.dials), Some(h.dials), h.dials + 1, h.lateDials, h.shut),
                     s.pcs[t := Answered(h.dials)])
  {
    var s1 := State(s.shared, s.pcs[t := ReadLocking]);
    Depart(CLIENT, s, t, 7, Send(true), s.shared, ReadLocking);
    LoneSenderConnects(s1, t);
    assert s1.pcs[t := Answered(s.shared.dials)] == s.pcs[t := Answered(s.shared.dials)];
  }

  /** A failing dial refuses the sender and leaves the client as it was. */
  lemma LoneSenderFails(s: State<Shared, Pc>, t: Tid)
    requires At(s, t).ReadLocking? && LockFree(s.shared) && !s.shared.closed && s.shared.client.None?
    ensures Run(CLIENT, s, Alone(t, 5, Send(false))) == State(s.shared, s.pcs[t := Refused])
  {
    var h := s.shared;
    SenderDials(s, t, 5, false);
    Advance(CLIENT, h.(writer := Some(t)), s.pcs, t, Dialing, 1, Send(false), h, Refused);
  }

  /**
   A sender that waited for the write lock is served by the second check: it is given the client
   that another sender has published meanwhile, or refused if the client was closed.
   */
  lemma SecondCheckServes(s: State<Shared, Pc>, t: Tid, ok: bool)
    requires At(s, t).WriteLocking? && LockFree(s.shared) && (s.shared.closed || s.shared.client.Some?)
    ensures s.shared.closed ==> Run(CLIENT, s, Alone(t, 2, Send(ok))) == State(s.shared, s.pcs[t := Refused])
    ensures !s.shared.closed ==>
      Run(CLIENT, s, Alone(t, 2, Send(ok))) == State(s.shared, s.pcs[t := Answered(s.shared.client.value)])
  {
    var h, c := s.shared, Send(ok);
    var pc := if h.closed then Refused else Answered(h.client.value);
    Depart(CLIENT, s, t, 2, c, h.(writer := Some(t)), Checking);
    Advance(CLIENT, h.(writer := Some(t)), s.pcs, t, Checking, 1, c, h, pc);
  }

  /** `Close` alone closes and forgets the connection, if there is one. */
  lemma LoneClose(s: State<Shared, Pc>, t: Tid, ok: bool)
    requires At(s, t).Idle? && LockFree(s.shared)
    ensures s.shared.conn.Some? ==>
      Run(CLIENT, s, Alone(t, 4, Choice(CallClose, ok)))
      == State(Shared({}, None, true, None, None, s.shared.dials, s.shared.lateDials,
                      s.shared.shut + {s.shared.conn.value}),
               s.pcs[t := Idle])
    ensures s.shared.conn.None? ==>
      Run(CLIENT, s, Alone(t, 4, Choice(CallClose, ok))) == State(s.shared.(closed := true), s.pcs[t := Idle])
  {
    var h, c := s.shared, Choice(CallClose, ok);
    var locked := h.(writer := Some(t));
    var closed := locked.(closed := true);
    var after := if h.conn.None? then h.(closed := true)
                 else h.(closed := true, shut := h.shut + {h.conn.value}, conn := None, client := None);
    Depart(CLIENT, s, t, 4, c, h, CloseLocking);
    Advance(CLIENT, h, s.pcs, t, CloseLocking, 3, c, locked, CloseEntered);
    Advance(CLIENT, locked, s.pcs, t, CloseEntered, 2, c, closed, CloseClearing);
    Advance(CLIENT, closed, s.pcs, t, CloseClearing, 1, c, after, Idle);
  }
}
