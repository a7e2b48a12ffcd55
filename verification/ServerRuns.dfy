/** What holds in every state that the server's threads can reach, under any schedule. */
module ServerRuns {
  import opened Bytes
  import opened Server
  import opened ServerLocks
  import opened ServerInv
  import opened ServerClients
  import opened ServerEpoll

  // ---------------------------------------------------------------- the invariant along a run

  lemma InitialInv(st: State)
    requires Initial(st)
    ensures Inv(st)
  {
    NobodyAdds(st.clients);
    assert forall t :: Holds(st, t) == {};
  }

  lemma {:induction false} NobodyAdds(clients: seq<ClientThread>)
    requires forall c <- clients :: c.pc == Start
    ensures Adds(clients) == 0
  {
    if clients != [] {
      NobodyAdds(clients[..|clients| - 1]);
    }
  }

  /** The client is about to put a session into an entry of the table that it may no longer use. */
  predicate Clashes(st: State, t: Tid) {
    && t.Client? && t.k < |st.clients| && st.clients[t.k].pc.Create?
    && (st.clients[t.k].pc.pos >= |st.table| || st.table[st.clients[t.k].pc.pos] != None)
  }

  lemma ClientsMindNoOwners(st: State, owner: map<Lock, Tid>)
    requires ClientsOk(st)
    ensures ClientsOk(st.(owner := owner))
  {
    var st' := st.(owner := owner);
    forall k | 0 <= k < |st'.clients|
      ensures ClientOk(st', k)
    {
      assert ClientOk(st, k);
    }
  }

  lemma HandsMindNoOwners(st: State, owner: map<Lock, Tid>)
    requires TableOk(st) && HandsOk(st) && CountsOk(st)
    ensures TableOk(st.(owner := owner)) && HandsOk(st.(owner := owner)) && CountsOk(st.(owner := owner))
  {
    var st' := st.(owner := owner);
    assert forall sid: nat :: Live(st', sid) ==> Live(st, sid) && InTable(st, sid) && CountOk(st, sid);
    assert forall e :: IsJoining(st', e) ==> IsJoining(st, e) && JoinedBy(st, e, SlotOf(st, e).thread);
    forall e | IsLeaving(st', e)
      ensures LeftBy(st', e)
    {
      assert IsLeaving(st, e);
    }
  }

  lemma EpollMindsNoOwners(st: State, owner: map<Lock, Tid>)
    requires PendingOk(st) && EpollOk(st) && SumOk(st) && FreedOk(st)
    ensures PendingOk(st.(owner := owner)) && EpollOk(st.(owner := owner)) && SumOk(st.(owner := owner))
    ensures FreedOk(st.(owner := owner))
  {
    var st' := st.(owner := owner);
    assert forall e :: IsWatched(st', e) <==> IsWatched(st, e);
    assert forall e :: IsLeaving(st', e) <==> IsLeaving(st, e);
    assert forall sid: nat :: Live(st', sid) <==> Live(st, sid);
  }

  /** The client has counted itself in a session whose media context the epoll thread has just freed, on its way to
      the lock of the table that the client holds. */
  predicate ReadsFreedMedia(st: State, t: Tid) {
    && t.Client? && t.k < |st.clients| && st.clients[t.k].pc.Describe?
    && st.epoll.WantDelete? && st.epoll.sid == st.clients[t.k].pc.sid
  }

  /** No thread uses a session, a slot or an entry of the table that is not there, but for a client that puts a new
      session where another has been put since it looked, or past the end of a full table. */
  lemma OnlyClashesBreak(st: State, t: Tid, ch: Choice)
    requires Inv(st) && Enabled(st, t)
    ensures StepOn(st, t, ch) == None <==> Clashes(st, t)
  {
    hide Inv, ClientEffect, EpollEffect, MediaEffect;
    match t
    case Client(k) => ClientIsDefined(st, k);
    case Epoll => EpollKeepsInv(st, ch);
    case Media(sid) => MediaKeepsInv(st, sid, ch);
  }

  /** A freed media context is used by no thread but a client that asks it for the audio type while the epoll thread,
      done with the context, waits for the lock of the table. */
  lemma OnlyJoinersReadFreedMedia(st: State, t: Tid)
    requires Inv(st) && Enabled(st, t)
    ensures UsesFreedMedia(st, t) <==> ReadsFreedMedia(st, t)
  {
    hide TableOk, HandsOk, CountsOk, SumOk;
    match t
    case Client(k) =>
      if st.clients[k].pc.Describe? {
        DescribesUnderLock(st, k);
      }
    case Epoll =>
      if st.epoll.Send? {
        assert st.epoll.e in Pending(st.epoll);
      }
    case Media(sid) =>
      if FreedMedia(st, sid) {
        MediaEndsFirst(st, sid);
      }
  }

  lemma DescribesUnderLock(st: State, k: nat)
    requires LocksOk(st) && FreedOk(st) && ClientsOk(st) && k < |st.clients| && st.clients[k].pc.Describe?
    ensures FreedMedia(st, st.clients[k].pc.sid) <==> st.epoll.WantDelete? && st.epoll.sid == st.clients[k].pc.sid
  {
    assert ClientOk(st, k);
    RefersUnderLock(st, k);
    if MutSession in Holds(st, Epoll) {
      OnlyOne(st, Client(k), Epoll, MutSession);
    }
  }

  lemma MediaEndsFirst(st: State, sid: nat)
    requires EpollOk(st) && FreedOk(st) && FreedMedia(st, sid)
    ensures st.sessions[sid].value.media == Exit
  {
  }

  /** What can go wrong in a state that a run reaches, exactly. */
  lemma OnlyTheseBreak(init: State, schedule: seq<(Tid, Choice)>, t: Tid, ch: Choice)
    requires Initial(init) && Run(init, schedule).Some? && Enabled(Run(init, schedule).value, t)
    ensures var st := Run(init, schedule).value;
            Step(st, t, ch) == None <==> Clashes(st, t) || ReadsFreedMedia(st, t)
  {
    var st := Run(init, schedule).value;
    InvAlways(init, schedule);
    hide Run, Inv, StepOn, UsesFreedMedia;
    OnlyClashesBreak(st, t, ch);
    OnlyJoinersReadFreedMedia(st, t);
  }

  lemma FreedIsQuiet(st: State)
    requires EpollOk(st)
    ensures FreesQuietly(st)
  {
  }

  lemma OthersKept(st: State, t: Tid, ch: Choice)
    requires Inv(st) && Enabled(st, t) && Effect(st, t, ch).Some?
    ensures Sound(Effect(st, t, ch).value)
  {
    match t {
      case Client(k) => ClientKeepsInv(st, k);
      case Epoll => EpollKeepsInv(st, ch);
      case Media(sid) => MediaKeepsInv(st, sid, ch);
    }
  }

  lemma StepKeepsInv(st: State, t: Tid, ch: Choice)
    requires Inv(st) && Enabled(st, t) && StepOn(st, t, ch).Some?
    ensures Inv(StepOn(st, t, ch).value)
  {
    hide Effect, LocksOk, TableOk, ClientsOk, HandsOk, PendingOk, EpollOk, CountsOk, SumOk, FreedOk;
    assert FreesQuietly(st) by { FreedIsQuiet(st); }
    LocksKept(st, t, ch);
    OthersKept(st, t, ch);
    var after := Effect(st, t, ch).value;
    ClientsMindNoOwners(after, Owners(st, t));
    HandsMindNoOwners(after, Owners(st, t));
    EpollMindsNoOwners(after, Owners(st, t));
  }

  lemma {:induction false} InvAlways(init: State, schedule: seq<(Tid, Choice)>)
    requires Initial(init) && Run(init, schedule).Some?
    ensures Inv(Run(init, schedule).value)
  {
    if schedule == [] {
      InitialInv(init);
    } else {
      var earlier := schedule[..|schedule| - 1];
      var (t, ch) := schedule[|schedule| - 1];
      InvAlways(init, earlier);
      if Enabled(Run(init, earlier).value, t) {
        StepKeepsInv(Run(init, earlier).value, t, ch);
      }
    }
  }

  // ---------------------------------------------------------------- freedom from deadlock

  /** However a thread that is not finished is held up, the chain of threads waiting for each other ends, after
      at most four others, at a thread that can go on. */
  lemma NoDeadlock(init: State, schedule: seq<(Tid, Choice)>, t: Tid)
    requires Initial(init) && Run(init, schedule).Some? && ActionOf(Run(init, schedule).value, t) != Finished
    ensures var st := Run(init, schedule).value;
            && LocksOk(st)
            && var chain := WaitChain(st, t);
            && |chain| <= 5
            && Enabled(st, chain[|chain| - 1])
  {
    InvAlways(init, schedule);
  }

  /** No lock is ever held by two threads. */
  lemma MutualExclusion(init: State, schedule: seq<(Tid, Choice)>, t: Tid, u: Tid, l: Lock)
    requires Initial(init) && Run(init, schedule).Some?
    requires l in Holds(Run(init, schedule).value, t) && l in Holds(Run(init, schedule).value, u)
    ensures t == u
  {
    InvAlways(init, schedule);
    OnlyOne(Run(init, schedule).value, t, u, l);
  }

  // ---------------------------------------------------------------- the client total

  /** The clients in the sessions that the table shows. */
  function TableTotal(table: seq<Option<nat>>, sessions: seq<Option<Session>>): nat {
    if table == [] then 0
    else
      var last := table[|table| - 1];
      TableTotal(table[..|table| - 1], sessions)
      + (if last.Some? && last.value < |sessions| then TakenIn(sessions[last.value]) else 0)
  }

  ghost predicate Matched(table: seq<Option<nat>>, sessions: seq<Option<Session>>) {
    && (forall i :: 0 <= i < |table| && table[i].Some? ==>
          table[i].value < |sessions| && sessions[table[i].value].Some? && sessions[table[i].value].value.pos == i)
    && (forall sid :: 0 <= sid < |sessions| && sessions[sid].Some? ==>
          sessions[sid].value.pos < |table| && table[sessions[sid].value.pos] == Some(sid))
  }

  lemma {:induction false} TableTotalUpdate(table: seq<Option<nat>>, sessions: seq<Option<Session>>, i: nat, x: Option<nat>)
    requires i < |table| && (table[i].Some? ==> table[i].value < |sessions|) && (x.Some? ==> x.value < |sessions|)
    ensures TableTotal(table[i := x], sessions) + (if table[i].Some? then TakenIn(sessions[table[i].value]) else 0)
         == TableTotal(table, sessions) + (if x.Some? then TakenIn(sessions[x.value]) else 0)
  {
    var n := |table| - 1;
    if i == n {
      assert table[i := x][..n] == table[..n];
    } else {
      assert table[i := x][..n] == table[..n][i := x];
      TableTotalUpdate(table[..n], sessions, i, x);
    }
  }

  lemma {:induction false} TableTotalPrefix(table: seq<Option<nat>>, sessions: seq<Option<Session>>, n: nat)
    requires n <= |sessions| && forall i :: 0 <= i < |table| && table[i].Some? ==> table[i].value < n
    ensures TableTotal(table, sessions[..n]) == TableTotal(table, sessions)
  {
    if table != [] {
      TableTotalPrefix(table[..|table| - 1], sessions, n);
    }
  }

  /** Counting by the table is counting by the sessions. */
  lemma {:induction false} TableTotalIsTotal(table: seq<Option<nat>>, sessions: seq<Option<Session>>)
    requires Matched(table, sessions)
    ensures TableTotal(table, sessions) == Total(sessions)
    decreases |sessions|
  {
    if sessions == [] {
      TableTotalEmpty(table);
    } else {
      var n := |sessions| - 1;
      if sessions[n].Some? {
        var pos := sessions[n].value.pos;
        TableTotalUpdate(table, sessions, pos, None);
        TableTotalPrefix(table[pos := None], sessions, n);
        TableTotalIsTotal(table[pos := None], sessions[..n]);
      } else {
        TableTotalPrefix(table, sessions, n);
        TableTotalIsTotal(table, sessions[..n]);
      }
    }
  }

  lemma {:induction false} TableTotalEmpty(table: seq<Option<nat>>)
    ensures TableTotal(table, []) == 0
  {
    if table != [] {
      TableTotalEmpty(table[..|table| - 1]);
    }
  }

  /** The total that `getClientNum` reports, with the clients not added yet and without those not dropped yet, is
      the number of taken slots in the sessions of the table; and each session's count is the number of its taken
      slots whenever its lock is free, except while the epoll thread frees it. */
  lemma Accounting(init: State, schedule: seq<(Tid, Choice)>)
    requires Initial(init) && Run(init, schedule).Some?
    ensures var st := Run(init, schedule).value;
            && st.sum + Adds(st.clients) - Drops(st.epoll) == TableTotal(st.table, st.sessions)
            && forall sid: nat :: Live(st, sid) && Mut(sid) !in st.owner && !(st.epoll.FreeSession? && st.epoll.sid == sid)
                 ==> st.sessions[sid].value.count == Taken(st.sessions[sid].value.slots)
  {
    InvAlways(init, schedule);
    var st := Run(init, schedule).value;
    hide Run, Taken, Uncounted, Adds, Drops;
    assert Matched(st.table, st.sessions) by { TableMatches(st); }
    TableTotalIsTotal(st.table, st.sessions);
    forall sid: nat | Live(st, sid) && Mut(sid) !in st.owner && !(st.epoll.FreeSession? && st.epoll.sid == sid)
      ensures st.sessions[sid].value.count == Taken(st.sessions[sid].value.slots)
    {
      CountWhenUnlocked(st, sid);
    }
  }

  lemma TableMatches(st: State)
    requires TableOk(st)
    ensures Matched(st.table, st.sessions)
  {
    assert forall sid: nat :: Live(st, sid) ==> InTable(st, sid);
    assert forall sid: nat :: sid < |st.sessions| && st.sessions[sid].Some? ==> Live(st, sid);
  }

  lemma CountWhenUnlocked(st: State, sid: nat)
    requires LocksOk(st) && CountsOk(st) && Live(st, sid) && Mut(sid) !in st.owner
    requires !(st.epoll.FreeSession? && st.epoll.sid == sid)
    ensures st.sessions[sid].value.count == Taken(st.sessions[sid].value.slots)
  {
    hide Taken, Uncounted;
    assert CountOk(st, sid);
    assert Mut(sid) !in Holds(st, Epoll);
    forall k | 0 <= k < |st.clients|
      ensures UncountedOne(st.clients[k].pc, sid) == 0
    {
      assert Mut(sid) !in Holds(st, Client(k));
    }
    UncountedNone(st.clients, sid);
  }

  // ---------------------------------------------------------------- the gap between looking and storing

  /** The entry of the table where a client that found no session is going to store one. */
  function Place(pc: ClientPc): Option<nat> {
    match pc
    case NotFound(pos) => Some(pos)
    case WantTable(pos) => Some(pos)
    case Create(pos) => Some(pos)
    case _ => None
  }

  /** When a client looks and finds no session, its entry is free, unless the table is full. */
  lemma LooksForFree(st: State, k: nat)
    requires k < |st.clients| && st.clients[k].pc == Scan && ClientEffect(st, k).Some?
    requires Place(ClientEffect(st, k).value.clients[k].pc).Some?
    ensures var pos := Place(ClientEffect(st, k).value.clients[k].pc).value;
            pos <= |st.table| && (pos < |st.table| ==> st.table[pos] == None)
    ensures forall i :: 0 <= i < Place(ClientEffect(st, k).value.clients[k].pc).value ==> st.table[i] != None
  {
    hide Dangling;
    FirstEmptyIs(st.table, 0);
  }

  lemma {:induction false} FirstEmptyIs(table: seq<Option<nat>>, i: nat)
    requires i <= |table|
    ensures var pos := FirstEmpty(table, i);
            && i <= pos <= |table| && (pos < |table| ==> table[pos] == None)
            && forall j :: i <= j < pos ==> table[j] != None
    decreases |table| - i
  {
    if i < |table| && table[i] != None {
      FirstEmptyIs(table, i + 1);
    }
  }

  /** From then on the entry stays free exactly as long as no other client stores a session there. */
  lemma StaysFree(st: State, t: Tid, ch: Choice, k: nat)
    requires k < |st.clients| && Place(st.clients[k].pc).Some? && Place(st.clients[k].pc).value < |st.table|
    requires st.table[Place(st.clients[k].pc).value] == None
    requires Enabled(st, t) && t != Client(k) && StepOn(st, t, ch).Some?
    ensures var st' := StepOn(st, t, ch).value;
            var pos := Place(st.clients[k].pc).value;
            && |st'.table| == |st.table| && st'.clients[k] == st.clients[k]
            && (st'.table[pos] == None <==> !(t.Client? && st.clients[t.k].pc == Create(pos)))
  {
    hide Dangling, Find, FirstEmpty, LowestFree, Reportable, NextMedia;
    match t {
      case Client(j) => TableAfterClient(st, j);
      case Epoll => TableAfterEpoll(st, ch);
      case Media(sid) =>
    }
  }

  lemma TableAfterClient(st: State, j: nat)
    requires j < |st.clients| && ClientEffect(st, j).Some?
    ensures var st' := ClientEffect(st, j).value;
            && (forall i :: 0 <= i < |st.clients| && i != j ==> i < |st'.clients| && st'.clients[i] == st.clients[i])
            && st'.table == if st.clients[j].pc.Create? then st.table[st.clients[j].pc.pos := Some(|st.sessions|)]
                            else st.table
  {
    hide Dangling, Find, FirstEmpty, LowestFree;
  }

  lemma TableAfterEpoll(st: State, ch: Choice)
    requires EpollEffect(st, ch).Some?
    ensures var st' := EpollEffect(st, ch).value;
            && st'.clients == st.clients
            && st'.table == if st.epoll.FreeSession? then st.table[st.epoll.pos := None] else st.table
  {
    hide Reportable;
  }

  /** Storing a session over an entry that another thread has filled since keeps the total true exactly when
      nobody is in the session it replaces. */
  lemma OverwritingKeepsTotal(st: State, k: nat)
    requires Inv(st) && k < |st.clients| && st.clients[k].pc.Create?
    requires st.clients[k].pc.pos < |st.table| && st.table[st.clients[k].pc.pos].Some?
    ensures var st' := StoreSession(st, k, st.clients[k].pc.pos);
            st'.sum + Adds(st'.clients) - Drops(st'.epoll) == TableTotal(st'.table, st'.sessions)
            <==> Taken(st.sessions[st.table[st.clients[k].pc.pos].value].value.slots) == 0
  {
    hide LocksOk, ClientsOk, HandsOk, PendingOk, EpollOk, CountsOk, Taken, Adds, Total, TableTotal;
    var pos := st.clients[k].pc.pos;
    var st' := StoreSession(st, k, pos);
    var n := |st.sessions|;
    TableMatches(st);
    TableTotalIsTotal(st.table, st.sessions);
    AddsUpdate(st.clients, k, WantNew(n));
    assert st'.sessions[..n] == st.sessions;
    TableTotalPrefix(st.table, st'.sessions, n);
    TableTotalUpdate(st.table, st'.sessions, pos, Some(n));
    TakenNone(st'.sessions[n].value.slots);
  }

  // ---------------------------------------------------------------- at rest

  function CountTotal(table: seq<Option<nat>>, sessions: seq<Option<Session>>): int {
    if table == [] then 0
    else
      var last := table[|table| - 1];
      CountTotal(table[..|table| - 1], sessions)
      + (if last.Some? && last.value < |sessions| && sessions[last.value].Some? then sessions[last.value].value.count else 0)
  }

  lemma {:induction false} CountTotalIsTableTotal(table: seq<Option<nat>>, sessions: seq<Option<Session>>)
    requires forall i :: 0 <= i < |table| && table[i].Some? && table[i].value < |sessions| && sessions[table[i].value].Some?
               ==> sessions[table[i].value].value.count == TakenIn(sessions[table[i].value])
    ensures CountTotal(table, sessions) == TableTotal(table, sessions)
  {
    if table != [] {
      CountTotalIsTableTotal(table[..|table| - 1], sessions);
    }
  }

  /** No client is on its way in or out. */
  predicate AtRest(st: State) {
    && (forall c <- st.clients :: AddsOne(c.pc) == 0)
    && (st.epoll.Idle? || st.epoll.Poll? || st.epoll.Batch?)
  }

  lemma {:induction false} NobodyOnTheWay(clients: seq<ClientThread>, sid: nat)
    requires forall c <- clients :: AddsOne(c.pc) == 0
    ensures Adds(clients) == 0 && Uncounted(clients, sid) == 0
  {
    if clients != [] {
      NobodyOnTheWay(clients[..|clients| - 1], sid);
    }
  }

  /** Then the client total is the sum of the counts of the sessions in the table. */
  lemma TotalAtRest(init: State, schedule: seq<(Tid, Choice)>)
    requires Initial(init) && Run(init, schedule).Some? && AtRest(Run(init, schedule).value)
    ensures var st := Run(init, schedule).value;
            st.sum == CountTotal(st.table, st.sessions)
  {
    InvAlways(init, schedule);
    var st := Run(init, schedule).value;
    hide Run, Taken, Uncounted, Adds, LocksOk, HandsOk, EpollOk, PendingOk, ClientsOk;
    TableMatches(st);
    TableTotalIsTotal(st.table, st.sessions);
    NobodyOnTheWay(st.clients, 0);
    forall i | 0 <= i < |st.table| && st.table[i].Some? && st.table[i].value < |st.sessions|
             && st.sessions[st.table[i].value].Some?
      ensures st.sessions[st.table[i].value].value.count == TakenIn(st.sessions[st.table[i].value])
    {
      var sid := st.table[i].value;
      assert CountOk(st, sid);
      NobodyOnTheWay(st.clients, sid);
    }
    CountTotalIsTableTotal(st.table, st.sessions);
  }
}
