/** Two runs in which the server comes to use what it may not: the races that the laws over all runs single out. */
module ServerRaces {
  import opened Bytes
  import opened Server
  import opened ServerLocks
  import opened ServerInv
  import opened ServerClients
  import opened ServerRuns

  // ---------------------------------------------------------------- a session replaces another

  /** One more step. */
  lemma Moves(init: State, schedule: seq<(Tid, Choice)>, st: State, t: Tid, ch: Choice, after: State)
    returns (longer: seq<(Tid, Choice)>)
    requires Run(init, schedule) == Some(st) && Enabled(st, t)
    requires Effect(st, t, ch).Some? && after == Effect(st, t, ch).value.(owner := Owners(st, t))
    ensures Run(init, longer) == Some(after)
  {
    longer := schedule + [(t, ch)];
    assert longer[..|schedule|] == schedule;
  }

  const NOTHING := Choice([], false)

  lemma ClientMoves(init: State, schedule: seq<(Tid, Choice)>, st: State, k: nat, after: State)
    returns (longer: seq<(Tid, Choice)>)
    requires Run(init, schedule) == Some(st) && k < |st.clients| && Enabled(st, Client(k))
    requires ClientEffect(st, k).Some? && after == ClientEffect(st, k).value.(owner := Owners(st, Client(k)))
    ensures Run(init, longer) == Some(after)
  {
    longer := Moves(init, schedule, st, Client(k), NOTHING, after);
  }

  const TABLE: map<Lock, Tid> := map[MutSession := Client(0)]
  const BOTH: map<Lock, Tid> := map[MutSession := Client(0), Mut(0) := Client(0)]

  /** Two clients that ask for the same path. */
  function TwoClients(a: ClientPc, b: ClientPc, owner: map<Lock, Tid>): State {
    State(seq(FILEMAX, _ => None), [], 0, [ClientThread("a", 4, a), ClientThread("a", 5, b)], Idle, owner)
  }

  lemma {:induction false} FindsNothing(st: State, path: string, i: nat)
    requires i <= |st.table| && forall j :: 0 <= j < |st.table| ==> st.table[j] == None
    ensures Find(st, path, i) == None && !Dangling(st)
    decreases |st.table| - i
  {
    if i < |st.table| {
      FindsNothing(st, path, i + 1);
    }
  }

  /** The steps of a client that looks for its session in an empty table. */
  lemma Looks(init: State, schedule: seq<(Tid, Choice)>, k: nat, a: ClientPc, b: ClientPc)
    returns (longer: seq<(Tid, Choice)>)
    requires k < 2 && (if k == 0 then a else b) == Start
    requires Run(init, schedule) == Some(TwoClients(a, b, map[]))
    ensures Run(init, longer)
         == Some(TwoClients(if k == 0 then WantTable(0) else a, if k == 1 then WantTable(0) else b, map[]))
  {
    hide Run, Find, Dangling;
    var st := TwoClients(a, b, map[]);
    var locked := map[MutSession := Client(k)];
    var st1 := TwoClients(if k == 0 then Scan else a, if k == 1 then Scan else b, locked);
    longer := ClientMoves(init, schedule, st, k, st1);
    FindsNothing(st1, "a", 0);
    assert FirstEmpty(st1.table, 0) == 0;
    var st2 := TwoClients(if k == 0 then NotFound(0) else a, if k == 1 then NotFound(0) else b, locked);
    longer := ClientMoves(init, longer, st1, k, st2);
    var st3 := TwoClients(if k == 0 then WantTable(0) else a, if k == 1 then WantTable(0) else b, map[]);
    assert locked - {MutSession} == map[];
    longer := ClientMoves(init, longer, st2, k, st3);
  }

  /** The first client has put a session into the table. */
  function OneSession(slot: Slot, count: int, a: ClientPc, b: ClientPc, owner: map<Lock, Tid>): State {
    var s := Session(0, "a", seq(CLIENTMAX, _ => Free)[0 := slot], count, true, Loop, false);
    TwoClients(a, b, owner).(table := seq(FILEMAX, _ => None)[0 := Some(0)], sessions := [Some(s)])
  }

  /** The first client creates the session. */
  lemma Creates(init: State, schedule: seq<(Tid, Choice)>, b: ClientPc) returns (longer: seq<(Tid, Choice)>)
    requires Run(init, schedule) == Some(TwoClients(WantTable(0), b, map[]))
    ensures Run(init, longer) == Some(OneSession(Free, 0, WantNew(0), b, TABLE))
  {
    hide Run;
    var st := TwoClients(Create(0), b, TABLE);
    longer := ClientMoves(init, schedule, TwoClients(WantTable(0), b, map[]), 0, st);
    var st1 := OneSession(Free, 0, WantNew(0), b, TABLE);
    assert st1.sessions == [] + [Some(Session(0, "a", seq(CLIENTMAX, _ => Free), 0, true, Loop, false))] by {
      assert seq(CLIENTMAX, _ => Free)[0 := Free] == seq(CLIENTMAX, _ => Free);
    }
    longer := ClientMoves(init, longer, st, 0, st1);
  }

  /** It stores its socket there. */
  lemma Stores(init: State, schedule: seq<(Tid, Choice)>, b: ClientPc) returns (longer: seq<(Tid, Choice)>)
    requires Run(init, schedule) == Some(OneSession(Free, 0, WantNew(0), b, TABLE))
    ensures Run(init, longer) == Some(OneSession(Joining(4, 0), 0, CountUp(0, 0), b, BOTH))
  {
    hide Run, EpollEffect, MediaEffect, Find, FirstEmpty, Dangling;
    var st := OneSession(Free, 0, Fill(0, 0), b, BOTH);
    longer := ClientMoves(init, schedule, OneSession(Free, 0, WantNew(0), b, TABLE), 0, st);
    var free := seq(CLIENTMAX, _ => Free);
    assert free[0 := Free][0 := Joining(4, 0)] == free[0 := Joining(4, 0)];
    longer := ClientMoves(init, longer, st, 0, OneSession(Joining(4, 0), 0, CountUp(0, 0), b, BOTH));
  }

  const ALL: map<Lock, Tid> := BOTH[MutEpoll := Client(0)]

  lemma Counts(init: State, schedule: seq<(Tid, Choice)>, b: ClientPc) returns (longer: seq<(Tid, Choice)>)
    requires Run(init, schedule) == Some(OneSession(Joining(4, 0), 0, CountUp(0, 0), b, BOTH))
    ensures Run(init, longer) == Some(OneSession(Joining(4, 0), 1, WantEpoll(0, 0), b, BOTH))
  {
    hide Run, ClientEffect;
    var st := OneSession(Joining(4, 0), 0, CountUp(0, 0), b, BOTH);
    var st1 := OneSession(Joining(4, 0), 1, Describe(0, 0), b, BOTH);
    assert ClientEffect(st, 0) == Some(st1) by { CountingUp(b); }
    longer := ClientMoves(init, schedule, st, 0, st1);
    var st2 := OneSession(Joining(4, 0), 1, WantEpoll(0, 0), b, BOTH);
    assert ClientEffect(st1, 0) == Some(st2) by { Describing(b); }
    longer := ClientMoves(init, longer, st1, 0, st2);
  }

  lemma LocksEpoll(init: State, schedule: seq<(Tid, Choice)>, b: ClientPc) returns (longer: seq<(Tid, Choice)>)
    requires Run(init, schedule) == Some(OneSession(Joining(4, 0), 1, WantEpoll(0, 0), b, BOTH))
    ensures Run(init, longer) == Some(OneSession(Joining(4, 0), 1, Register(0, 0), b, ALL))
  {
    hide Run, ClientEffect;
    var st := OneSession(Joining(4, 0), 1, WantEpoll(0, 0), b, BOTH);
    var st1 := OneSession(Joining(4, 0), 1, Register(0, 0), b, ALL);
    assert ClientEffect(st, 0) == Some(st1.(owner := BOTH)) by { TakingEpoll(b); }
    longer := ClientMoves(init, schedule, st, 0, st1);
  }

  lemma Registers(init: State, schedule: seq<(Tid, Choice)>, b: ClientPc) returns (longer: seq<(Tid, Choice)>)
    requires Run(init, schedule) == Some(OneSession(Joining(4, 0), 1, Register(0, 0), b, ALL))
    ensures Run(init, longer) == Some(OneSession(Watched(4), 1, UnlockMut(0), b, BOTH))
  {
    hide Run, ClientEffect;
    assert ALL - {MutEpoll} == BOTH;
    var st := OneSession(Joining(4, 0), 1, Register(0, 0), b, ALL);
    var st1 := OneSession(Watched(4), 1, UnlockMut(0), b, BOTH);
    assert ClientEffect(st, 0) == Some(st1.(owner := ALL)) by { Registering(b, ALL); }
    longer := ClientMoves(init, schedule, st, 0, st1);
  }

  lemma CountingUp(b: ClientPc)
    ensures ClientEffect(OneSession(Joining(4, 0), 0, CountUp(0, 0), b, BOTH), 0)
         == Some(OneSession(Joining(4, 0), 1, Describe(0, 0), b, BOTH))
  {
    var st := OneSession(Joining(4, 0), 0, CountUp(0, 0), b, BOTH);
    var after := OneSession(Joining(4, 0), 1, Describe(0, 0), b, BOTH);
    assert st.clients[0 := after.clients[0]] == after.clients;
    assert st.sessions[0 := after.sessions[0]] == after.sessions;
  }

  lemma Describing(b: ClientPc)
    ensures ClientEffect(OneSession(Joining(4, 0), 1, Describe(0, 0), b, BOTH), 0)
         == Some(OneSession(Joining(4, 0), 1, WantEpoll(0, 0), b, BOTH))
  {
    var st := OneSession(Joining(4, 0), 1, Describe(0, 0), b, BOTH);
    var after := OneSession(Joining(4, 0), 1, WantEpoll(0, 0), b, BOTH);
    assert st.clients[0 := after.clients[0]] == after.clients;
    assert st.sessions[0 := after.sessions[0]] == after.sessions;
  }

  lemma TakingEpoll(b: ClientPc)
    ensures ClientEffect(OneSession(Joining(4, 0), 1, WantEpoll(0, 0), b, BOTH), 0)
         == Some(OneSession(Joining(4, 0), 1, Register(0, 0), b, BOTH))
  {
    var st := OneSession(Joining(4, 0), 1, WantEpoll(0, 0), b, BOTH);
    var after := OneSession(Joining(4, 0), 1, Register(0, 0), b, BOTH);
    assert st.clients[0 := after.clients[0]] == after.clients;
    assert st.sessions[0 := after.sessions[0]] == after.sessions;
  }

  lemma Registering(b: ClientPc, owner: map<Lock, Tid>)
    ensures ClientEffect(OneSession(Joining(4, 0), 1, Register(0, 0), b, owner), 0)
         == Some(OneSession(Watched(4), 1, UnlockMut(0), b, owner))
  {
    var free := seq(CLIENTMAX, _ => Free);
    assert free[0 := Joining(4, 0)][0 := Watched(4)] == free[0 := Watched(4)];
    var st := OneSession(Joining(4, 0), 1, Register(0, 0), b, owner);
    var after := OneSession(Watched(4), 1, UnlockMut(0), b, owner);
    assert st.clients[0 := after.clients[0]] == after.clients;
    assert st.sessions[0 := after.sessions[0]] == after.sessions;
  }

  lemma LetsGo(init: State, schedule: seq<(Tid, Choice)>, b: ClientPc) returns (longer: seq<(Tid, Choice)>)
    requires Run(init, schedule) == Some(OneSession(Watched(4), 1, UnlockMut(0), b, BOTH))
    ensures Run(init, longer) == Some(OneSession(Watched(4), 1, UnlockTable, b, TABLE))
  {
    hide Run, EpollEffect, MediaEffect, Find, FirstEmpty, Dangling;
    assert BOTH - {Mut(0)} == TABLE;
    var st := OneSession(Watched(4), 1, UnlockTable, b, TABLE);
    longer := ClientMoves(init, schedule, OneSession(Watched(4), 1, UnlockMut(0), b, BOTH), 0, st);
  }

  /** The first client lets go of the table, the second takes it. */
  lemma HandsOver(init: State, schedule: seq<(Tid, Choice)>) returns (longer: seq<(Tid, Choice)>)
    requires Run(init, schedule) == Some(OneSession(Watched(4), 1, UnlockTable, WantTable(0), TABLE))
    ensures Run(init, longer) == Some(OneSession(Watched(4), 1, WantSum, Create(0), map[MutSession := Client(1)]))
  {
    hide Run, EpollEffect, MediaEffect, Find, FirstEmpty, Dangling;
    assert TABLE - {MutSession} == map[];
    var st := OneSession(Watched(4), 1, WantSum, WantTable(0), map[]);
    longer := ClientMoves(init, schedule, OneSession(Watched(4), 1, UnlockTable, WantTable(0), TABLE), 0, st);
    longer := ClientMoves(init, longer, st, 1, OneSession(Watched(4), 1, WantSum, Create(0), map[MutSession := Client(1)]));
  }

  /** The first client joins a session that it creates. */
  lemma Joins(init: State, schedule: seq<(Tid, Choice)>, b: ClientPc) returns (longer: seq<(Tid, Choice)>)
    requires Run(init, schedule) == Some(TwoClients(WantTable(0), b, map[]))
    ensures Run(init, longer) == Some(OneSession(Watched(4), 1, UnlockTable, b, TABLE))
  {
    hide Run;
    longer := Creates(init, schedule, b);
    longer := Stores(init, longer, b);
    longer := Counts(init, longer, b);
    longer := LocksEpoll(init, longer, b);
    longer := Registers(init, longer, b);
    longer := LetsGo(init, longer, b);
  }

  /** The gap is real: two clients ask for a new path, both look before either stores, and the second is about to
      replace the session that the first is in. */
  lemma ClashIsReachable() returns (init: State, schedule: seq<(Tid, Choice)>)
    ensures Initial(init) && Run(init, schedule).Some?
    ensures var st := Run(init, schedule).value;
            Clashes(st, Client(1)) && Live(st, 0) && InTable(st, 0) && Taken(st.sessions[0].value.slots) == 1
  {
    hide Run;
    init := TwoClients(Start, Start, map[]);
    schedule := [];
    RunOfNothing(init);
    schedule := Looks(init, schedule, 0, Start, Start);
    schedule := Looks(init, schedule, 1, WantTable(0), Start);
    schedule := Joins(init, schedule, WantTable(0));
    schedule := HandsOver(init, schedule);
    var free := seq(CLIENTMAX, _ => Free);
    TakenNone(free);
    TakenUpdate(free, 0, Watched(4));
  }

  lemma RunOfNothing(init: State)
    ensures Run(init, []) == Some(init)
  {
  }

  // ---------------------------------------------------------------- a client asks a freed media context

  const COUNT: map<Lock, Tid> := map[MutClientCount := Client(0)]

  lemma LeavesTable(init: State, schedule: seq<(Tid, Choice)>) returns (longer: seq<(Tid, Choice)>)
    requires Run(init, schedule) == Some(OneSession(Watched(4), 1, UnlockTable, Start, TABLE))
    ensures Run(init, longer) == Some(OneSession(Watched(4), 1, WantSum, Start, map[]))
  {
    hide Run, EpollEffect, MediaEffect, Find, FirstEmpty, Dangling;
    assert TABLE - {MutSession} == map[];
    var st := OneSession(Watched(4), 1, UnlockTable, Start, TABLE);
    longer := ClientMoves(init, schedule, st, 0, OneSession(Watched(4), 1, WantSum, Start, map[]));
  }

  lemma LocksTotal(init: State, schedule: seq<(Tid, Choice)>) returns (longer: seq<(Tid, Choice)>)
    requires Run(init, schedule) == Some(OneSession(Watched(4), 1, WantSum, Start, map[]))
    ensures Run(init, longer) == Some(OneSession(Watched(4), 1, AddOne, Start, COUNT))
  {
    hide Run, EpollEffect, MediaEffect, Find, FirstEmpty, Dangling;
    var st := OneSession(Watched(4), 1, WantSum, Start, map[]);
    var after := OneSession(Watched(4), 1, AddOne, Start, COUNT);
    longer := Moves(init, schedule, st, Client(0), NOTHING, after);
  }

  /** The first client has been added to the total. */
  lemma Finishes(init: State, schedule: seq<(Tid, Choice)>) returns (longer: seq<(Tid, Choice)>)
    requires Run(init, schedule) == Some(OneSession(Watched(4), 1, AddOne, Start, COUNT))
    ensures Run(init, longer) == Some(OneSession(Watched(4), 1, Done, Start, map[]).(sum := 1))
  {
    hide Run, EpollEffect, MediaEffect, Find, FirstEmpty, Dangling;
    var st := OneSession(Watched(4), 1, AddOne, Start, COUNT);
    var after := OneSession(Watched(4), 1, Done, Start, map[]).(sum := 1);
    assert COUNT - {MutClientCount} == map[];
    longer := Moves(init, schedule, st, Client(0), NOTHING, after);
  }

  const FIRST := Entry(0, 0)

  /** The first client's session while the epoll thread is busy with it. */
  function Busy(slot: Slot, count: int, sum: int, epoll: EpollPc, owner: map<Lock, Tid>): State {
    OneSession(slot, count, Done, Start, owner).(sum := sum, epoll := epoll)
  }

  /** The owners while the epoll thread holds one lock. */
  function Held(l: Lock): (owner: map<Lock, Tid>)
    ensures map[][l := Epoll] == owner && owner - {l} == map[]
  {
    map[l := Epoll]
  }

  /** The epoll thread reports the first client. */
  lemma Reports(init: State, schedule: seq<(Tid, Choice)>) returns (longer: seq<(Tid, Choice)>)
    requires Run(init, schedule) == Some(Busy(Watched(4), 1, 1, Idle, map[]))
    ensures Run(init, longer) == Some(Busy(Watched(4), 1, 1, WantTake(FIRST, []), map[]))
  {
    hide Run, ClientEffect, MediaEffect;
    var st := Busy(Watched(4), 1, 1, Poll, Held(MutEpoll));
    longer := Moves(init, schedule, Busy(Watched(4), 1, 1, Idle, map[]), Epoll, NOTHING, st);
    assert Reportable(st, [FIRST]);
    assert [FIRST][1..] == [];
    var st1 := Busy(Watched(4), 1, 1, Batch([FIRST]), map[]);
    longer := Moves(init, longer, st, Epoll, Choice([FIRST], false), st1);
    longer := Moves(init, longer, st1, Epoll, NOTHING, Busy(Watched(4), 1, 1, WantTake(FIRST, []), map[]));
  }

  /** It takes a packet of that client, */
  lemma TakesPacket(init: State, schedule: seq<(Tid, Choice)>) returns (longer: seq<(Tid, Choice)>)
    requires Run(init, schedule) == Some(Busy(Watched(4), 1, 1, WantTake(FIRST, []), map[]))
    ensures Run(init, longer) == Some(Busy(Watched(4), 1, 1, Send(FIRST, []), map[]))
  {
    hide Run, ClientEffect, MediaEffect, Reportable;
    var st := Busy(Watched(4), 1, 1, WantQueue(FIRST, []), Held(Mut(0)));
    longer := Moves(init, schedule, Busy(Watched(4), 1, 1, WantTake(FIRST, []), map[]), Epoll, NOTHING, st);
    var two := Held(Mut(0))[MutList(0, 0) := Epoll];
    assert two - {MutList(0, 0)} == Held(Mut(0));
    var st1 := Busy(Watched(4), 1, 1, Taking(FIRST, []), two);
    longer := Moves(init, longer, st, Epoll, NOTHING, st1);
    var st2 := Busy(Watched(4), 1, 1, Took(FIRST, [], true), Held(Mut(0)));
    longer := Moves(init, longer, st1, Epoll, Choice([], true), st2);
    longer := Moves(init, longer, st2, Epoll, NOTHING, Busy(Watched(4), 1, 1, Send(FIRST, []), map[]));
  }

  /** fails to send it, */
  lemma Fails(init: State, schedule: seq<(Tid, Choice)>) returns (longer: seq<(Tid, Choice)>)
    requires Run(init, schedule) == Some(Busy(Watched(4), 1, 1, Send(FIRST, []), map[]))
    ensures Run(init, longer) == Some(Busy(Watched(4), 1, 1, WantForget(FIRST, []), map[]))
  {
    hide Run, ClientEffect, MediaEffect, Reportable;
    var st := Busy(Watched(4), 1, 1, Send(FIRST, []), map[]);
    var after := Busy(Watched(4), 1, 1, WantForget(FIRST, []), map[]);
    longer := Moves(init, schedule, st, Epoll, NOTHING, after);
  }

  lemma LocksSet(init: State, schedule: seq<(Tid, Choice)>) returns (longer: seq<(Tid, Choice)>)
    requires Run(init, schedule) == Some(Busy(Watched(4), 1, 1, WantForget(FIRST, []), map[]))
    ensures Run(init, longer) == Some(Busy(Watched(4), 1, 1, Forget(FIRST, []), Held(MutEpoll)))
  {
    hide Run, ClientEffect, MediaEffect, Reportable;
    var st := Busy(Watched(4), 1, 1, WantForget(FIRST, []), map[]);
    var after := Busy(Watched(4), 1, 1, Forget(FIRST, []), Held(MutEpoll));
    longer := Moves(init, schedule, st, Epoll, NOTHING, after);
  }

  /** takes the client out of the epoll set, */
  lemma Forgets(init: State, schedule: seq<(Tid, Choice)>) returns (longer: seq<(Tid, Choice)>)
    requires Run(init, schedule) == Some(Busy(Watched(4), 1, 1, Forget(FIRST, []), Held(MutEpoll)))
    ensures Run(init, longer) == Some(Busy(Leaving(4), 1, 1, WantClear(FIRST, []), map[]))
  {
    hide Run, ClientEffect, MediaEffect, Reportable;
    var st := Busy(Watched(4), 1, 1, Forget(FIRST, []), Held(MutEpoll));
    var after := Busy(Leaving(4), 1, 1, WantClear(FIRST, []), map[]);
    SlotOfFirst(Watched(4), 1, 1, Forget(FIRST, []), Held(MutEpoll), Leaving(4));
    longer := Moves(init, schedule, st, Epoll, NOTHING, after);
  }

  lemma SlotOfFirst(slot: Slot, count: int, sum: int, pc: EpollPc, owner: map<Lock, Tid>, slot': Slot)
    ensures var st := Busy(slot, count, sum, pc, owner);
            HasSlot(st, FIRST) && SlotOf(st, FIRST) == slot
            && SetSlot(st, FIRST, slot') == Busy(slot', count, sum, pc, owner)
  {
    var free := seq(CLIENTMAX, _ => Free);
    var st, after := Busy(slot, count, sum, pc, owner), Busy(slot', count, sum, pc, owner);
    assert free[0 := slot][0 := slot'] == free[0 := slot'];
    assert st.sessions[0 := after.sessions[0]] == after.sessions;
  }

  /** clears its slot, */
  lemma Clears(init: State, schedule: seq<(Tid, Choice)>) returns (longer: seq<(Tid, Choice)>)
    requires Run(init, schedule) == Some(Busy(Leaving(4), 1, 1, WantClear(FIRST, []), map[]))
    ensures Run(init, longer) == Some(Busy(Free, 1, 1, CountDown(FIRST, []), Held(Mut(0))))
  {
    hide Run, ClientEffect, MediaEffect, Reportable;
    var st := Busy(Leaving(4), 1, 1, Clear(FIRST, []), Held(Mut(0)));
    longer := Moves(init, schedule, Busy(Leaving(4), 1, 1, WantClear(FIRST, []), map[]), Epoll, NOTHING, st);
    SlotOfFirst(Leaving(4), 1, 1, Clear(FIRST, []), Held(Mut(0)), Free);
    longer := Moves(init, longer, st, Epoll, NOTHING, Busy(Free, 1, 1, CountDown(FIRST, []), Held(Mut(0))));
  }

  /** counts it out, */
  lemma CountsOut(init: State, schedule: seq<(Tid, Choice)>) returns (longer: seq<(Tid, Choice)>)
    requires Run(init, schedule) == Some(Busy(Free, 1, 1, CountDown(FIRST, []), Held(Mut(0))))
    ensures Run(init, longer) == Some(Busy(Free, 0, 1, WantDrop(FIRST, [], 0), map[]))
  {
    hide Run, ClientEffect, MediaEffect, Reportable;
    var st := Busy(Free, 1, 1, CountDown(FIRST, []), Held(Mut(0)));
    var st1 := Busy(Free, 0, 1, Cleared(FIRST, [], 0), Held(Mut(0)));
    assert st.sessions[0 := st1.sessions[0]] == st1.sessions;
    longer := Moves(init, schedule, st, Epoll, NOTHING, st1);
    longer := Moves(init, longer, st1, Epoll, NOTHING, Busy(Free, 0, 1, WantDrop(FIRST, [], 0), map[]));
  }

  lemma LocksTotalAgain(init: State, schedule: seq<(Tid, Choice)>) returns (longer: seq<(Tid, Choice)>)
    requires Run(init, schedule) == Some(Busy(Free, 0, 1, WantDrop(FIRST, [], 0), map[]))
    ensures Run(init, longer) == Some(Busy(Free, 0, 1, DropOne(FIRST, [], 0), Held(MutClientCount)))
  {
    hide Run, ClientEffect, MediaEffect, Reportable;
    var st := Busy(Free, 0, 1, WantDrop(FIRST, [], 0), map[]);
    var after := Busy(Free, 0, 1, DropOne(FIRST, [], 0), Held(MutClientCount));
    longer := Moves(init, schedule, st, Epoll, NOTHING, after);
  }

  /** and turns to deleting the session. */
  lemma DropsClient(init: State, schedule: seq<(Tid, Choice)>) returns (longer: seq<(Tid, Choice)>)
    requires Run(init, schedule) == Some(Busy(Free, 0, 1, DropOne(FIRST, [], 0), Held(MutClientCount)))
    ensures Run(init, longer) == Some(Busy(Free, 0, 0, Stop(0, []), map[]))
  {
    hide Run, ClientEffect, MediaEffect, Reportable;
    var st := Busy(Free, 0, 1, DropOne(FIRST, [], 0), Held(MutClientCount));
    var after := Busy(Free, 0, 0, Stop(0, []), map[]);
    longer := Moves(init, schedule, st, Epoll, NOTHING, after);
  }

  /** The first client's session without it, stopped. */
  function Stopped(media: MediaPc, freed: bool, epoll: EpollPc): State {
    var s := Session(0, "a", seq(CLIENTMAX, _ => Free)[0 := Free], 0, false, media, freed);
    Busy(Free, 0, 0, epoll, map[]).(sessions := [Some(s)])
  }

  /** It stops the media thread, */
  lemma StopsMedia(init: State, schedule: seq<(Tid, Choice)>) returns (longer: seq<(Tid, Choice)>)
    requires Run(init, schedule) == Some(Busy(Free, 0, 0, Stop(0, []), map[]))
    ensures Run(init, longer) == Some(Stopped(Loop, false, Await(0, 0, [])))
  {
    hide Run, ClientEffect, MediaEffect, Reportable;
    var st := Busy(Free, 0, 0, Stop(0, []), map[]);
    var after := Stopped(Loop, false, Await(0, 0, []));
    assert st.sessions[0 := after.sessions[0]] == after.sessions;
    longer := Moves(init, schedule, st, Epoll, NOTHING, after);
  }

  /** which ends, */
  lemma MediaEnds(init: State, schedule: seq<(Tid, Choice)>) returns (longer: seq<(Tid, Choice)>)
    requires Run(init, schedule) == Some(Stopped(Loop, false, Await(0, 0, [])))
    ensures Run(init, longer) == Some(Stopped(Exit, false, Await(0, 0, [])))
  {
    hide Run, ClientEffect, EpollEffect;
    var st := Stopped(Loop, false, Await(0, 0, []));
    var after := Stopped(Exit, false, Await(0, 0, []));
    assert st.sessions[0 := after.sessions[0]] == after.sessions;
    longer := Moves(init, schedule, st, Media(0), NOTHING, after);
  }

  /** and frees its context. */
  lemma FreesMedia(init: State, schedule: seq<(Tid, Choice)>) returns (longer: seq<(Tid, Choice)>)
    requires Run(init, schedule) == Some(Stopped(Exit, false, Await(0, 0, [])))
    ensures Run(init, longer) == Some(Stopped(Exit, true, WantDelete(0, 0, [])))
  {
    hide Run, ClientEffect, MediaEffect, Reportable;
    var st := Stopped(Exit, false, Await(0, 0, []));
    var after := Stopped(Exit, true, WantDelete(0, 0, []));
    assert st.sessions[0 := after.sessions[0]] == after.sessions;
    longer := Moves(init, schedule, st, Epoll, NOTHING, after);
  }

  /** The second client finds that session. */
  function Late(slot: Slot, count: int, b: ClientPc, owner: map<Lock, Tid>): State {
    var st := Stopped(Exit, true, WantDelete(0, 0, []));
    var s := st.sessions[0].value.(slots := seq(CLIENTMAX, _ => Free)[0 := slot], count := count);
    st.(clients := [ClientThread("a", 4, Done), ClientThread("a", 5, b)], sessions := [Some(s)], owner := owner)
  }

  const TABLE1: map<Lock, Tid> := map[MutSession := Client(1)]
  const BOTH1: map<Lock, Tid> := map[MutSession := Client(1), Mut(0) := Client(1)]

  lemma FindsIt(init: State, schedule: seq<(Tid, Choice)>) returns (longer: seq<(Tid, Choice)>)
    requires Run(init, schedule) == Some(Late(Free, 0, Start, map[]))
    ensures Run(init, longer) == Some(Late(Free, 0, Pick(0), BOTH1))
  {
    hide Run;
    var st := Late(Free, 0, Scan, TABLE1);
    longer := ClientMoves(init, schedule, Late(Free, 0, Start, map[]), 1, st);
    assert Find(st, "a", 0) == Some(0) && !Dangling(st);
    var st1 := Late(Free, 0, WantMut(0), TABLE1);
    longer := ClientMoves(init, longer, st, 1, st1);
    longer := ClientMoves(init, longer, st1, 1, Late(Free, 0, Pick(0), BOTH1));
  }

  lemma JoinsIt(init: State, schedule: seq<(Tid, Choice)>) returns (longer: seq<(Tid, Choice)>)
    requires Run(init, schedule) == Some(Late(Free, 0, Pick(0), BOTH1))
    ensures Run(init, longer) == Some(Late(Joining(5, 1), 0, CountUp(0, 0), BOTH1))
  {
    hide Run, EpollEffect, MediaEffect, Find, FirstEmpty, Dangling;
    var st := Late(Free, 0, Pick(0), BOTH1);
    assert LowestFree(st.sessions[0].value.slots, 0) == 0;
    var st1 := Late(Free, 0, Fill(0, 0), BOTH1);
    longer := ClientMoves(init, schedule, st, 1, st1);
    var st2 := Late(Joining(5, 1), 0, CountUp(0, 0), BOTH1);
    var free := seq(CLIENTMAX, _ => Free);
    assert free[0 := Free][0 := Joining(5, 1)] == free[0 := Joining(5, 1)];
    assert st1.sessions[0 := st2.sessions[0]] == st2.sessions;
    longer := ClientMoves(init, longer, st1, 1, st2);
  }

  lemma CountsItself(init: State, schedule: seq<(Tid, Choice)>) returns (longer: seq<(Tid, Choice)>)
    requires Run(init, schedule) == Some(Late(Joining(5, 1), 0, CountUp(0, 0), BOTH1))
    ensures Run(init, longer) == Some(Late(Joining(5, 1), 1, Describe(0, 0), BOTH1))
  {
    hide Run, EpollEffect, MediaEffect, Find, FirstEmpty, Dangling;
    var st := Late(Joining(5, 1), 0, CountUp(0, 0), BOTH1);
    var st1 := Late(Joining(5, 1), 1, Describe(0, 0), BOTH1);
    assert st.sessions[0 := st1.sessions[0]] == st1.sessions;
    longer := ClientMoves(init, schedule, st, 1, st1);
  }

  /** The epoll thread drops the only client of a session, and frees the session's media context. */
  lemma FreesMediaOfEmpty(init: State) returns (schedule: seq<(Tid, Choice)>)
    requires init == TwoClients(Start, Start, map[])
    ensures Run(init, schedule) == Some(Stopped(Exit, true, WantDelete(0, 0, [])))
  {
    hide Run;
    schedule := [];
    RunOfNothing(init);
    schedule := Looks(init, schedule, 0, Start, Start);
    schedule := Joins(init, schedule, Start);
    schedule := LeavesTable(init, schedule);
    schedule := LocksTotal(init, schedule);
    schedule := Finishes(init, schedule);
    schedule := Reports(init, schedule);
    schedule := TakesPacket(init, schedule);
    schedule := Fails(init, schedule);
    schedule := LocksSet(init, schedule);
    schedule := Forgets(init, schedule);
    schedule := Clears(init, schedule);
    schedule := CountsOut(init, schedule);
    schedule := LocksTotalAgain(init, schedule);
    schedule := DropsClient(init, schedule);
    schedule := StopsMedia(init, schedule);
    schedule := MediaEnds(init, schedule);
    schedule := FreesMedia(init, schedule);
  }

  /** A freed media context can be read: the epoll thread drops the only client of a session and frees the context,
      and before it has the lock of the table another client joins the session. */
  lemma FreedReadIsReachable() returns (init: State, schedule: seq<(Tid, Choice)>)
    ensures Initial(init) && Run(init, schedule).Some?
    ensures ReadsFreedMedia(Run(init, schedule).value, Client(1))
    ensures Enabled(Run(init, schedule).value, Client(1)) && Step(Run(init, schedule).value, Client(1), NOTHING) == None
  {
    hide Run;
    init := TwoClients(Start, Start, map[]);
    schedule := FreesMediaOfEmpty(init);
    assert Stopped(Exit, true, WantDelete(0, 0, [])) == Late(Free, 0, Start, map[]);
    schedule := FindsIt(init, schedule);
    schedule := JoinsIt(init, schedule);
    schedule := CountsItself(init, schedule);
  }
}
