/** Every step of a client thread keeps the invariant of the server. */
module ServerClients {
  import opened Bytes
  import opened Server
  import opened ServerLocks
  import opened ServerInv
  import Slots

  // ---------------------------------------------------------------- how the counts change

  lemma TakenUpdate(slots: seq<Slot>, i: nat, x: Slot)
    requires i < |slots|
    ensures Taken(slots[i := x]) + (if slots[i] != Free then 1 else 0) == Taken(slots) + (if x != Free then 1 else 0)
  {
    Slots.CountUpdate(slots, IsFree, i, x);
  }

  lemma TakenNone(slots: seq<Slot>)
    ensures Taken(slots) == 0 <==> forall j :: 0 <= j < |slots| ==> slots[j] == Free
  {
    Slots.CountNone(slots, IsFree);
  }

  lemma TakenFits(slots: seq<Slot>)
    ensures Taken(slots) <= |slots|
  {
    Slots.CountBelow(slots, IsFree, |slots|);
    assert slots[..|slots|] == slots;
  }

  lemma {:induction false} TotalUpdate(sessions: seq<Option<Session>>, sid: nat, x: Option<Session>)
    requires sid < |sessions|
    ensures Total(sessions[sid := x]) + TakenIn(sessions[sid]) == Total(sessions) + TakenIn(x)
  {
    var n := |sessions| - 1;
    if sid == n {
      assert sessions[sid := x][..n] == sessions[..n];
    } else {
      assert sessions[sid := x][..n] == sessions[..n][sid := x];
      TotalUpdate(sessions[..n], sid, x);
    }
  }

  function UncountedOne(pc: ClientPc, sid: nat): nat {
    if pc.CountUp? && pc.sid == sid then 1 else 0
  }

  lemma {:induction false} UncountedUpdate(clients: seq<ClientThread>, k: nat, pc: ClientPc, sid: nat)
    requires k < |clients|
    ensures Uncounted(clients[k := clients[k].(pc := pc)], sid) + UncountedOne(clients[k].pc, sid)
         == Uncounted(clients, sid) + UncountedOne(pc, sid)
  {
    var n := |clients| - 1;
    var updated := clients[k := clients[k].(pc := pc)];
    if k == n {
      assert updated[..n] == clients[..n];
    } else {
      assert updated[..n] == clients[..n][k := clients[k].(pc := pc)];
      UncountedUpdate(clients[..n], k, pc, sid);
    }
  }

  lemma {:induction false} UncountedNone(clients: seq<ClientThread>, sid: nat)
    requires forall k :: 0 <= k < |clients| ==> UncountedOne(clients[k].pc, sid) == 0
    ensures Uncounted(clients, sid) == 0
  {
    if clients != [] {
      UncountedNone(clients[..|clients| - 1], sid);
    }
  }

  lemma {:induction false} AddsUpdate(clients: seq<ClientThread>, k: nat, pc: ClientPc)
    requires k < |clients|
    ensures Adds(clients[k := clients[k].(pc := pc)]) + AddsOne(clients[k].pc) == Adds(clients) + AddsOne(pc)
  {
    var n := |clients| - 1;
    var updated := clients[k := clients[k].(pc := pc)];
    if k == n {
      assert updated[..n] == clients[..n];
    } else {
      assert updated[..n] == clients[..n][k := clients[k].(pc := pc)];
      AddsUpdate(clients[..n], k, pc);
    }
  }

  // ---------------------------------------------------------------- one thread at a time in the table

  /** The client thread refers to a session that only the lock of the table keeps in place. */
  predicate Refers(pc: ClientPc) {
    pc.WantMut? || pc.Pick? || pc.WantNew? || pc.Fill? || pc.CountUp? || pc.Describe? || pc.WantEpoll?
    || pc.Register?
  }

  lemma RefersUnderLock(st: State, k: nat)
    requires k < |st.clients| && Refers(st.clients[k].pc)
    ensures MutSession in Holds(st, Client(k))
  {
  }

  lemma OnlyOne(st: State, t: Tid, u: Tid, l: Lock)
    requires LocksOk(st) && l in Holds(st, t) && l in Holds(st, u)
    ensures t == u
  {
    assert st.owner[l] == t && st.owner[l] == u;
  }

  /** What a client's step leaves of the sessions. */
  ghost predicate Grown(st: State, st': State) {
    && |st.sessions| <= |st'.sessions|
    && |st.table| == |st'.table|
    && (forall i :: 0 <= i < |st.table| && st.table[i].Some? ==> st'.table[i] == st.table[i])
    && (forall sid: nat :: Live(st, sid) ==> Live(st', sid) && SameButSlots(st.sessions[sid].value, st'.sessions[sid].value))
    && (forall e :: IsWatched(st, e) ==> IsWatched(st', e))
    && (forall e :: IsLeaving(st, e) ==> IsLeaving(st', e))
  }

  predicate SameButSlots(s: Session, s': Session) {
    && s'.pos == s.pos && s'.media == s.media && s'.run == s.run && s'.freed == s.freed && |s'.slots| == |s.slots|
    && s'.filename == s.filename
  }

  lemma SearchGrows(st: State, k: nat)
    requires k < |st.clients| && ClientEffect(st, k).Some? && ClientOk(st, k)
    requires Searches(st.clients[k].pc)
    ensures Grown(st, ClientEffect(st, k).value)
    ensures ClientEffect(st, k).value.epoll == st.epoll
  {
    hide LowestFree, Find, FirstEmpty, Dangling;
  }

  lemma SlotGrows(st: State, k: nat, pc: ClientPc, e: Entry, slot: Slot)
    requires k < |st.clients| && HasSlot(st, e) && (SlotOf(st, e).Free? || SlotOf(st, e).Joining?)
    ensures Grown(st, SetSlot(At(st, k, pc), e, slot))
  {
  }

  lemma StoreGrows(st: State, k: nat)
    requires k < |st.clients| && ClientEffect(st, k).Some? && ClientOk(st, k)
    requires st.clients[k].pc.Fill? || st.clients[k].pc.Register?
    ensures Grown(st, ClientEffect(st, k).value)
    ensures ClientEffect(st, k).value.epoll == st.epoll
  {
    hide Grown;
    var pc := st.clients[k].pc;
    var e := Entry(pc.sid, pc.slot);
    var after := ClientEffect(st, k).value;
    SlotGrows(st, k, after.clients[k].pc, e, SlotOf(after, e));
  }

  lemma JoinGrows(st: State, k: nat)
    requires k < |st.clients| && ClientEffect(st, k).Some? && ClientOk(st, k)
    requires !Searches(st.clients[k].pc) && !st.clients[k].pc.Fill? && !st.clients[k].pc.Register?
    ensures Grown(st, ClientEffect(st, k).value)
    ensures ClientEffect(st, k).value.epoll == st.epoll
  {
  }

  lemma ClientGrows(st: State, k: nat)
    requires k < |st.clients| && ClientEffect(st, k).Some? && ClientOk(st, k)
    ensures Grown(st, ClientEffect(st, k).value)
    ensures ClientEffect(st, k).value.epoll == st.epoll
  {
    hide ClientEffect, EpollEffect;
    if Searches(st.clients[k].pc) {
      SearchGrows(st, k);
    } else if st.clients[k].pc.Fill? || st.clients[k].pc.Register? {
      StoreGrows(st, k);
    } else {
      JoinGrows(st, k);
    }
  }

  lemma Untouched(st: State, k: nat)
    requires k < |st.clients| && ClientEffect(st, k).Some? && MutSession !in Holds(st, Client(k))
    ensures ClientEffect(st, k).value.sessions == st.sessions
  {
  }

  /** The other client threads do not notice. */
  lemma OthersOk(st: State, k: nat, j: nat)
    requires LocksOk(st) && ClientsOk(st) && k < |st.clients| && ClientEffect(st, k).Some?
    requires j < |st.clients| && j != k
    ensures ClientOk(ClientEffect(st, k).value, j)
  {
    var st' := ClientEffect(st, k).value;
    assert st'.clients[j] == st.clients[j];
    if Refers(st.clients[j].pc) {
      RefersUnderLock(st, j);
      if MutSession in Holds(st, Client(k)) {
        OnlyOne(st, Client(j), Client(k), MutSession);
        assert false;
      }
      Untouched(st, k);
      assert ClientOk(st, j);
    }
  }

  lemma SearchOk(st: State, k: nat)
    requires k < |st.clients| && ClientEffect(st, k).Some? && ClientOk(st, k)
    requires Searches(st.clients[k].pc)
    ensures ClientOk(ClientEffect(st, k).value, k)
  {
    hide Dangling, FirstEmpty, LowestFree, Find;
  }

  lemma JoinOk(st: State, k: nat)
    requires k < |st.clients| && ClientEffect(st, k).Some? && ClientOk(st, k)
    requires !Searches(st.clients[k].pc)
    ensures ClientOk(ClientEffect(st, k).value, k)
  {
    hide Dangling, FirstEmpty, LowestFree, Find;
  }

  lemma SelfOk(st: State, k: nat)
    requires k < |st.clients| && ClientEffect(st, k).Some? && ClientOk(st, k)
    ensures ClientOk(ClientEffect(st, k).value, k)
  {
    hide ClientEffect, EpollEffect;
    if Searches(st.clients[k].pc) {
      SearchOk(st, k);
    } else {
      JoinOk(st, k);
    }
  }

  lemma ClientsKept(st: State, k: nat)
    requires LocksOk(st) && ClientsOk(st) && k < |st.clients| && ClientEffect(st, k).Some?
    ensures ClientsOk(ClientEffect(st, k).value)
  {
    hide ClientEffect, ClientOk, LocksOk;
    var st' := ClientEffect(st, k).value;
    ClientHoldsAfter(st, k);
    forall j | 0 <= j < |st'.clients|
      ensures ClientOk(st', j)
    {
      assert ClientOk(st, j);
      if j == k {
        SelfOk(st, k);
      } else {
        OthersOk(st, k, j);
      }
    }
  }

  // ---------------------------------------------------------------- the table

  lemma TableKept(st: State, st': State)
    requires TableOk(st) && Grown(st, st') && st'.table == st.table
    requires forall sid: nat :: Live(st', sid) ==> Live(st, sid)
    ensures TableOk(st')
  {
  }

  lemma NoNewSession(st: State, k: nat)
    requires k < |st.clients| && ClientEffect(st, k).Some? && !st.clients[k].pc.Create?
    ensures var st' := ClientEffect(st, k).value;
            st'.table == st.table && |st'.sessions| == |st.sessions| && forall sid: nat :: Live(st', sid) ==> Live(st, sid)
  {
    hide LowestFree, Find, FirstEmpty, Dangling;
  }

  lemma TableKeptByCreate(st: State, k: nat)
    requires TableOk(st) && k < |st.clients| && ClientEffect(st, k).Some? && st.clients[k].pc.Create?
    ensures TableOk(ClientEffect(st, k).value)
  {
    var st' := ClientEffect(st, k).value;
    var newSid := |st.sessions|;
    assert st'.sessions[newSid].value.pos == st.clients[k].pc.pos;
    forall sid: nat | Live(st', sid)
      ensures InTable(st', sid) && |st'.sessions[sid].value.slots| == CLIENTMAX
    {
      if sid < newSid {
        assert st'.sessions[sid] == st.sessions[sid];
        assert Live(st, sid) && InTable(st, sid);
      }
    }
    forall i | 0 <= i < |st'.table| && st'.table[i].Some?
      ensures Live(st', st'.table[i].value) && st'.sessions[st'.table[i].value].value.pos == i
    {
      if i != st.clients[k].pc.pos {
        assert Live(st, st.table[i].value);
      }
    }
  }

  lemma TableKeptByClient(st: State, k: nat)
    requires TableOk(st) && k < |st.clients| && ClientOk(st, k) && ClientEffect(st, k).Some?
    ensures TableOk(ClientEffect(st, k).value)
  {
    hide ClientEffect, ClientOk, TableOk, Grown;
    if st.clients[k].pc.Create? {
      TableKeptByCreate(st, k);
    } else {
      ClientGrows(st, k);
      NoNewSession(st, k);
      TableKept(st, ClientEffect(st, k).value);
    }
  }

  // ---------------------------------------------------------------- slots on the move

  lemma JoiningKept(st: State, k: nat, e: Entry)
    requires HandsOk(st) && k < |st.clients| && ClientOk(st, k) && ClientEffect(st, k).Some?
    requires IsJoining(ClientEffect(st, k).value, e)
    ensures var st' := ClientEffect(st, k).value; JoinedBy(st', e, SlotOf(st', e).thread)
  {
    hide Dangling, FirstEmpty, LowestFree, Find;
    var st' := ClientEffect(st, k).value;
    if st.clients[k].pc != Fill(e.sid, e.slot) {
      assert IsJoining(st, e) && SlotOf(st', e) == SlotOf(st, e);
    }
  }

  lemma LeavingKept(st: State, k: nat, e: Entry)
    requires k < |st.clients| && ClientOk(st, k) && ClientEffect(st, k).Some?
    requires IsLeaving(ClientEffect(st, k).value, e)
    ensures IsLeaving(st, e)
  {
    hide Dangling, FirstEmpty, LowestFree, Find;
  }

  lemma HandsKeptByClient(st: State, k: nat)
    requires HandsOk(st) && k < |st.clients| && ClientOk(st, k) && ClientEffect(st, k).Some?
    ensures HandsOk(ClientEffect(st, k).value)
  {
    hide ClientEffect, ClientOk, JoinedBy;
    var st' := ClientEffect(st, k).value;
    ClientHoldsAfter(st, k);
    forall e | IsJoining(st', e)
      ensures JoinedBy(st', e, SlotOf(st', e).thread)
    {
      JoiningKept(st, k, e);
    }
    forall e | IsLeaving(st', e)
      ensures LeftBy(st', e)
    {
      LeavingKept(st, k, e);
    }
  }

  // ---------------------------------------------------------------- the epoll thread does not notice

  lemma PendingKept(st: State, st': State)
    requires Grown(st, st') && st'.epoll == st.epoll && PendingOk(st)
    ensures PendingOk(st')
  {
  }

  /** All that the epoll thread relies on survives, unless it is sweeping the session's slots. */
  lemma EpollKeptByGrowth(st: State, st': State)
    requires Grown(st, st') && st'.epoll == st.epoll && EpollOk(st)
    requires MutSession in Holds(st, Epoll) ==> st'.sessions == st.sessions
    ensures EpollOk(st')
  {
  }

  lemma EpollKeptByClient(st: State, k: nat)
    requires LocksOk(st) && EpollOk(st) && PendingOk(st) && k < |st.clients| && ClientOk(st, k) && ClientEffect(st, k).Some?
    ensures EpollOk(ClientEffect(st, k).value) && PendingOk(ClientEffect(st, k).value)
  {
    hide ClientEffect, ClientOk, EpollOk, PendingOk, Grown, Holds, LocksOk;
    ClientGrows(st, k);
    if MutSession in Holds(st, Epoll) {
      if MutSession in Holds(st, Client(k)) {
        OnlyOne(st, Epoll, Client(k), MutSession);
      }
      Untouched(st, k);
    }
    EpollKeptByGrowth(st, ClientEffect(st, k).value);
    PendingKept(st, ClientEffect(st, k).value);
  }

  // ---------------------------------------------------------------- the counts

  lemma CountKeptByClient(st: State, k: nat, sid: nat)
    requires k < |st.clients| && ClientOk(st, k) && ClientEffect(st, k).Some?
    requires Live(st, sid) && Live(ClientEffect(st, k).value, sid) && CountOk(st, sid)
    ensures CountOk(ClientEffect(st, k).value, sid)
  {
    hide Dangling, FirstEmpty, LowestFree, Find, Taken, Uncounted;
    var st' := ClientEffect(st, k).value;
    UncountedUpdate(st.clients, k, st'.clients[k].pc, sid);
    var pc := st.clients[k].pc;
    if pc.Fill? && pc.sid == sid {
      TakenUpdate(st.sessions[sid].value.slots, pc.slot, Joining(st.clients[k].sock, k));
    } else if pc.Register? && pc.sid == sid {
      TakenUpdate(st.sessions[sid].value.slots, pc.slot, st'.sessions[sid].value.slots[pc.slot]);
    }
  }

  /** A client that has stored its socket has done so in a session that is there. */
  lemma UncountedIsLive(st: State, sid: nat)
    requires ClientsOk(st) && !Live(st, sid)
    ensures Uncounted(st.clients, sid) == 0
  {
    forall k | 0 <= k < |st.clients|
      ensures UncountedOne(st.clients[k].pc, sid) == 0
    {
      assert ClientOk(st, k);
    }
    UncountedNone(st.clients, sid);
  }

  lemma CountOfCreated(st: State, k: nat)
    requires ClientsOk(st) && EpollOk(st) && k < |st.clients| && ClientEffect(st, k).Some? && st.clients[k].pc.Create?
    ensures CountOk(ClientEffect(st, k).value, |st.sessions|)
  {
    hide Taken, Uncounted;
    var sid := |st.sessions|;
    var st' := ClientEffect(st, k).value;
    UncountedIsLive(st, sid);
    UncountedUpdate(st.clients, k, st'.clients[k].pc, sid);
    TakenNone(st'.sessions[sid].value.slots);
  }

  lemma CountsKeptByClient(st: State, k: nat)
    requires ClientsOk(st) && EpollOk(st) && CountsOk(st) && k < |st.clients| && ClientEffect(st, k).Some?
    ensures CountsOk(ClientEffect(st, k).value)
  {
    hide ClientEffect, EpollOk, ClientOk, CountOk;
    var st' := ClientEffect(st, k).value;
    assert ClientOk(st, k);
    forall sid: nat | Live(st', sid)
      ensures CountOk(st', sid)
    {
      if Live(st, sid) {
        CountKeptByClient(st, k, sid);
      } else {
        NewIsCreated(st, k, sid);
        CountOfCreated(st, k);
      }
    }
  }

  lemma NewIsCreated(st: State, k: nat, sid: nat)
    requires k < |st.clients| && ClientEffect(st, k).Some? && Live(ClientEffect(st, k).value, sid) && !Live(st, sid)
    ensures st.clients[k].pc.Create? && sid == |st.sessions|
  {
    hide Dangling, FirstEmpty, LowestFree, Find;
  }

  lemma SumKeptByClient(st: State, k: nat)
    requires SumOk(st) && k < |st.clients| && ClientOk(st, k) && ClientEffect(st, k).Some?
    ensures SumOk(ClientEffect(st, k).value)
  {
    hide Dangling, FirstEmpty, LowestFree, Find, Taken, Total, Adds;
    var st' := ClientEffect(st, k).value;
    AddsUpdate(st.clients, k, st'.clients[k].pc);
    var pc := st.clients[k].pc;
    if pc.Fill? || pc.Register? {
      var s, s' := st.sessions[pc.sid].value, st'.sessions[pc.sid].value;
      TakenUpdate(s.slots, pc.slot, s'.slots[pc.slot]);
      TotalUpdate(st.sessions, pc.sid, Some(s'));
    } else if pc.CountUp? {
      TotalUpdate(st.sessions, pc.sid, st'.sessions[pc.sid]);
    } else if pc.Create? {
      TotalAppend(st.sessions, st'.sessions[|st.sessions|]);
      TakenNone(st'.sessions[|st.sessions|].value.slots);
    }
  }

  lemma TotalAppend(sessions: seq<Option<Session>>, s: Option<Session>)
    ensures Total(sessions + [s]) == Total(sessions) + TakenIn(s)
  {
    assert (sessions + [s])[..|sessions|] == sessions;
  }

  // ---------------------------------------------------------------- the media contexts

  lemma FreedKeptByClient(st: State, k: nat)
    requires FreedOk(st) && EpollOk(st) && k < |st.clients| && ClientOk(st, k) && ClientEffect(st, k).Some?
    ensures FreedOk(ClientEffect(st, k).value)
  {
    var st' := ClientEffect(st, k).value;
    ClientGrows(st, k);
    hide ClientEffect, ClientOk, EpollOk;
    forall sid: nat | Live(st', sid)
      ensures st'.sessions[sid].value.freed <==> PastMedia(st'.epoll, sid)
    {
      if !Live(st, sid) {
        NewIsCreated(st, k, sid);
        NewIsNotFreed(st, k);
      }
    }
  }

  lemma NewIsNotFreed(st: State, k: nat)
    requires EpollOk(st) && k < |st.clients| && ClientEffect(st, k).Some? && st.clients[k].pc.Create?
    ensures var st' := ClientEffect(st, k).value;
            var sid := |st.sessions|;
            Live(st', sid) && !st'.sessions[sid].value.freed && !PastMedia(st'.epoll, sid)
  {
  }

  // ---------------------------------------------------------------- all of it

  lemma ClientKeepsInv(st: State, k: nat)
    requires Inv(st) && k < |st.clients| && ClientEffect(st, k).Some?
    ensures Sound(ClientEffect(st, k).value)
  {
    hide ClientEffect, ClientOk, TableOk, HandsOk, PendingOk, EpollOk, CountsOk, SumOk, FreedOk, LocksOk;
    assert ClientOk(st, k);
    TableKeptByClient(st, k);
    ClientsKept(st, k);
    HandsKeptByClient(st, k);
    EpollKeptByClient(st, k);
    CountsKeptByClient(st, k);
    SumKeptByClient(st, k);
    FreedKeptByClient(st, k);
  }

  /** A client thread finds every session and slot it uses; only the entry it was to put a new session in may
      be out of the table, or taken since it looked. */
  lemma ClientIsDefined(st: State, k: nat)
    requires Inv(st) && k < |st.clients|
    ensures var pc := st.clients[k].pc;
            ClientEffect(st, k) == None <==> pc.Create? && (pc.pos >= |st.table| || st.table[pc.pos] != None)
  {
    hide LowestFree, Find, FirstEmpty, LocksOk, HandsOk, PendingOk, EpollOk, CountsOk, SumOk, FreedOk;
    assert ClientOk(st, k);
    assert !Dangling(st);
  }
}
