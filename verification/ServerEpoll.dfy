/** Every step of the epoll thread and of the media threads keeps the invariant of the server. */
module ServerEpoll {
  import opened Bytes
  import opened Server
  import opened ServerLocks
  import opened ServerInv
  import opened ServerClients

  // ---------------------------------------------------------------- the epoll thread finds what it uses

  lemma EpollIsDefined(st: State, ch: Choice)
    requires TableOk(st) && PendingOk(st) && EpollOk(st)
    ensures EpollEffect(st, ch).Some?
  {
    hide Reportable;
    if st.epoll.Batch? && st.epoll.rest != [] {
      assert st.epoll.rest[0] in Pending(st.epoll);
    } else if st.epoll.Forget? {
      assert st.epoll.e in Pending(st.epoll);
    } else if st.epoll.DropOne? {
    }
  }

  // ---------------------------------------------------------------- what it leaves of the sessions

  /** Short of freeing a session, a step of the epoll thread leaves free slots free, and what joins to its thread. */
  ghost predicate Kept(st: State, st': State) {
    && st'.clients == st.clients
    && st'.table == st.table
    && |st'.sessions| == |st.sessions|
    && (forall sid: nat :: Live(st', sid) <==> Live(st, sid))
    && (forall sid: nat :: Live(st, sid) ==> SameShape(st.sessions[sid].value, st'.sessions[sid].value))
    && (forall e :: HasSlot(st, e) && (SlotOf(st, e).Free? || SlotOf(st, e).Joining?) ==> SlotOf(st', e) == SlotOf(st, e))
    && (forall e :: IsJoining(st', e) ==> IsJoining(st, e))
  }

  predicate SameShape(s: Session, s': Session) {
    s'.pos == s.pos && s'.media == s.media && |s'.slots| == |s.slots| && s'.filename == s.filename
  }

  lemma SlotMoved(st: State, e: Entry, slot: Slot, pc: EpollPc)
    requires HasSlot(st, e) && (SlotOf(st, e).Watched? || SlotOf(st, e).Leaving?) && (slot.Leaving? || slot.Free?)
    ensures Kept(st, SetSlot(st, e, slot).(epoll := pc))
  {
  }

  /** The slot that a step of the epoll thread moves. */
  function MovedSlot(pc: EpollPc): Option<Entry> {
    match pc
    case Forget(e, _) => Some(e)
    case Clear(e, _) => Some(e)
    case SweepDel(_, sid, _, i, _) => Some(Entry(sid, i))
    case SweepClear(_, sid, _, i, _) => Some(Entry(sid, i))
    case _ => None
  }

  lemma EpollMovesSlot(st: State, ch: Choice)
    requires PendingOk(st) && EpollOk(st) && EpollEffect(st, ch).Some? && MovedSlot(st.epoll).Some?
    ensures Kept(st, EpollEffect(st, ch).value)
  {
    hide Kept;
    var e := MovedSlot(st.epoll).value;
    assert st.epoll.Forget? ==> e in Pending(st.epoll);
    SlotMoved(st, e, Leaving(SlotOf(st, e).sd), EpollEffect(st, ch).value.epoll);
    SlotMoved(st, e, Free, EpollEffect(st, ch).value.epoll);
  }

  /** The session of which a step of the epoll thread changes a flag or the count. */
  function TendedSession(st: State): nat {
    match st.epoll
    case CountDown(e, _) => e.sid
    case Stop(pos, _) => if pos < |st.table| && st.table[pos].Some? then st.table[pos].value else 0
    case Await(_, sid, _) => sid
    case _ => 0
  }

  lemma SessionTended(st: State, sid: nat, st': State)
    requires Live(st, sid) && Live(st', sid) && st'.clients == st.clients && st'.table == st.table
    requires st'.sessions == st.sessions[sid := st'.sessions[sid]]
    requires SameShape(st.sessions[sid].value, st'.sessions[sid].value)
    requires st'.sessions[sid].value.slots == st.sessions[sid].value.slots
    ensures Kept(st, st')
  {
  }

  lemma SameSessionsKept(st: State, st': State)
    requires st'.clients == st.clients && st'.table == st.table && st'.sessions == st.sessions
    ensures Kept(st, st')
  {
  }

  lemma TendsOne(st: State, ch: Choice)
    requires EpollEffect(st, ch).Some? && MovedSlot(st.epoll) == None && !st.epoll.FreeSession?
    ensures var st', sid := EpollEffect(st, ch).value, TendedSession(st);
            && st'.clients == st.clients && st'.table == st.table
            && (st'.sessions == st.sessions
                || (Live(st, sid) && Live(st', sid)
                    && st'.sessions == st.sessions[sid := st'.sessions[sid]]
                    && SameShape(st.sessions[sid].value, st'.sessions[sid].value)
                    && st'.sessions[sid].value.slots == st.sessions[sid].value.slots))
  {
    hide Reportable, IsWatched, HasSlot;
  }

  lemma EpollMovesNoSlot(st: State, ch: Choice)
    requires EpollEffect(st, ch).Some? && MovedSlot(st.epoll) == None && !st.epoll.FreeSession?
    ensures Kept(st, EpollEffect(st, ch).value)
  {
    hide Kept, EpollEffect, TendedSession;
    var st' := EpollEffect(st, ch).value;
    TendsOne(st, ch);
    if st'.sessions == st.sessions {
      SameSessionsKept(st, st');
    } else {
      SessionTended(st, TendedSession(st), st');
    }
  }

  lemma EpollKeeps(st: State, ch: Choice)
    requires PendingOk(st) && EpollOk(st) && EpollEffect(st, ch).Some? && !st.epoll.FreeSession?
    ensures Kept(st, EpollEffect(st, ch).value)
  {
    hide EpollEffect, Kept;
    if MovedSlot(st.epoll).Some? {
      EpollMovesSlot(st, ch);
    } else {
      EpollMovesNoSlot(st, ch);
    }
  }

  lemma TableKeptByEpoll(st: State, ch: Choice)
    requires TableOk(st) && PendingOk(st) && EpollOk(st) && EpollEffect(st, ch).Some?
    ensures TableOk(EpollEffect(st, ch).value)
  {
    var st' := EpollEffect(st, ch).value;
    if st.epoll.FreeSession? {
      assert forall sid: nat :: Live(st', sid) ==> Live(st, sid) && InTable(st, sid);
    } else {
      EpollKeeps(st, ch);
      hide EpollEffect, EpollOk, PendingOk;
      assert forall sid: nat :: Live(st', sid) ==> Live(st, sid) && InTable(st, sid);
    }
  }

  lemma ClientsKeptByEpoll(st: State, ch: Choice)
    requires LocksOk(st) && ClientsOk(st) && PendingOk(st) && EpollOk(st) && EpollEffect(st, ch).Some?
    ensures ClientsOk(EpollEffect(st, ch).value)
  {
    hide EpollOk, PendingOk, LocksOk;
    var st' := EpollEffect(st, ch).value;
    EpollHoldsAfter(st, ch);
    if st.epoll.FreeSession? {
      forall k | 0 <= k < |st.clients|
        ensures ClientOk(st', k)
      {
        if Refers(st.clients[k].pc) {
          RefersUnderLock(st, k);
          OnlyOne(st, Client(k), Epoll, MutSession);
        }
      }
    } else {
      EpollKeeps(st, ch);
      hide EpollEffect;
      forall k | 0 <= k < |st.clients|
        ensures ClientOk(st', k)
      {
        assert ClientOk(st, k);
      }
    }
  }

  // ---------------------------------------------------------------- slots on the move

  lemma HandsKeptByEpoll(st: State, ch: Choice)
    requires HandsOk(st) && PendingOk(st) && EpollOk(st) && EpollEffect(st, ch).Some?
    ensures HandsOk(EpollEffect(st, ch).value)
  {
    hide Reportable;
    var st' := EpollEffect(st, ch).value;
    EpollHoldsAfter(st, ch);
    forall e | IsJoining(st', e)
      ensures JoinedBy(st', e, SlotOf(st', e).thread)
    {
      if !st.epoll.FreeSession? {
        EpollKeeps(st, ch);
      }
      assert IsJoining(st, e);
    }
    forall e | IsLeaving(st', e)
      ensures LeftBy(st', e)
    {
      LeavingInHand(st, ch, e);
    }
  }

  lemma LeavingInDeletion(st: State, ch: Choice, e: Entry)
    requires HandsOk(st) && PendingOk(st) && EpollOk(st) && EpollEffect(st, ch).Some?
    requires IsLeaving(EpollEffect(st, ch).value, e)
    requires Deletes(st.epoll)
    ensures LeftBy(EpollEffect(st, ch).value, e)
  {
    hide Reportable, EpollOk, PendingOk;
    assert MovedSlot(st.epoll) != Some(e) ==> IsLeaving(st, e);
  }

  lemma LeavingInService(st: State, ch: Choice, e: Entry)
    requires HandsOk(st) && PendingOk(st) && EpollOk(st) && EpollEffect(st, ch).Some?
    requires IsLeaving(EpollEffect(st, ch).value, e)
    requires !Deletes(st.epoll)
    ensures LeftBy(EpollEffect(st, ch).value, e)
  {
    hide Reportable, EpollOk, PendingOk;
    if MovedSlot(st.epoll) != Some(e) {
      assert IsLeaving(st, e);
    }
  }

  lemma LeavingInHand(st: State, ch: Choice, e: Entry)
    requires HandsOk(st) && PendingOk(st) && EpollOk(st) && EpollEffect(st, ch).Some?
    requires IsLeaving(EpollEffect(st, ch).value, e)
    ensures LeftBy(EpollEffect(st, ch).value, e)
  {
    hide ClientEffect, EpollEffect;
    if Deletes(st.epoll) {
      LeavingInDeletion(st, ch, e);
    } else {
      LeavingInService(st, ch, e);
    }
  }

  // ---------------------------------------------------------------- what the epoll thread relies on

  lemma DeletionKeepsPending(st: State, ch: Choice)
    requires EpollEffect(st, ch).Some? && !st.epoll.Poll?
    requires Deletes(st.epoll)
    ensures var before, after := Pending(st.epoll), Pending(EpollEffect(st, ch).value.epoll);
            after == before || (before != [] && after == before[1..])
  {
    hide Reportable;
  }

  lemma ServiceShrinksPending(st: State, ch: Choice)
    requires EpollEffect(st, ch).Some? && !st.epoll.Poll?
    requires !Deletes(st.epoll)
    ensures var before, after := Pending(st.epoll), Pending(EpollEffect(st, ch).value.epoll);
            after == before || (before != [] && after == before[1..])
  {
    hide Reportable;
  }

  /** The events still to be handled stay, or lose the first. */
  lemma PendingShrinks(st: State, ch: Choice)
    requires EpollEffect(st, ch).Some? && !st.epoll.Poll?
    ensures var before, after := Pending(st.epoll), Pending(EpollEffect(st, ch).value.epoll);
            after == before || (before != [] && after == before[1..])
  {
    hide ClientEffect, EpollEffect;
    if Deletes(st.epoll) {
      DeletionKeepsPending(st, ch);
    } else {
      ServiceShrinksPending(st, ch);
    }
  }

  lemma WatchedInDeletion(st: State, ch: Choice, e: Entry)
    requires PendingOk(st) && EpollOk(st) && EpollEffect(st, ch).Some? && !st.epoll.Poll?
    requires e in Pending(EpollEffect(st, ch).value.epoll) && IsWatched(st, e)
    requires Deletes(st.epoll) && !Sweeps(st.epoll)
    ensures IsWatched(EpollEffect(st, ch).value, e)
  {
    hide Reportable, PendingOk, SweptTo, InTable;
  }

  lemma WatchedInSweep(st: State, ch: Choice, e: Entry)
    requires PendingOk(st) && EpollOk(st) && EpollEffect(st, ch).Some? && Sweeps(st.epoll)
    requires e in Pending(EpollEffect(st, ch).value.epoll) && IsWatched(st, e)
    ensures IsWatched(EpollEffect(st, ch).value, e)
  {
    hide Reportable, PendingOk, InTable;
  }

  lemma WatchedInService(st: State, ch: Choice, e: Entry)
    requires PendingOk(st) && EpollOk(st) && EpollEffect(st, ch).Some? && !st.epoll.Poll?
    requires e in Pending(EpollEffect(st, ch).value.epoll) && IsWatched(st, e)
    requires !Deletes(st.epoll)
    ensures IsWatched(EpollEffect(st, ch).value, e)
  {
    hide Reportable;
    if st.epoll.Forget? {
      var i :| 0 <= i < |st.epoll.rest| && st.epoll.rest[i] == e;
      assert Pending(st.epoll)[0] != Pending(st.epoll)[i + 1];
    }
  }

  /** A client whose event is still to be handled stays watched. */
  lemma StaysWatched(st: State, ch: Choice, e: Entry)
    requires PendingOk(st) && EpollOk(st) && EpollEffect(st, ch).Some? && !st.epoll.Poll?
    requires e in Pending(EpollEffect(st, ch).value.epoll) && IsWatched(st, e)
    ensures IsWatched(EpollEffect(st, ch).value, e)
  {
    hide ClientEffect, EpollEffect;
    if Sweeps(st.epoll) {
      WatchedInSweep(st, ch, e);
    } else if Deletes(st.epoll) {
      WatchedInDeletion(st, ch, e);
    } else {
      WatchedInService(st, ch, e);
    }
  }

  lemma PendingKeptByEpoll(st: State, ch: Choice)
    requires PendingOk(st) && EpollOk(st) && EpollEffect(st, ch).Some?
    ensures PendingOk(EpollEffect(st, ch).value)
  {
    var st' := EpollEffect(st, ch).value;
    if st.epoll.Poll? {
      assert st'.epoll.rest == [] || Reportable(st, ch.events);
      assert forall e :: IsWatched(st', e) <==> IsWatched(st, e);
    } else {
      PendingShrinks(st, ch);
      hide EpollEffect, Pending;
      forall e | e in Pending(st'.epoll)
        ensures IsWatched(st', e)
      {
        assert e in Pending(st.epoll);
        StaysWatched(st, ch, e);
      }
    }
  }

  /** Under the session's lock, every client in the session has been counted. */
  lemma CountedUnderLock(st: State, t: Tid, sid: nat)
    requires LocksOk(st) && Mut(sid) in Holds(st, t) && !t.Client?
    ensures Uncounted(st.clients, sid) == 0
  {
    forall k | 0 <= k < |st.clients|
      ensures UncountedOne(st.clients[k].pc, sid) == 0
    {
      if UncountedOne(st.clients[k].pc, sid) != 0 {
        assert Mut(sid) in Holds(st, Client(k));
        OnlyOne(st, t, Client(k), Mut(sid));
      }
    }
    UncountedNone(st.clients, sid);
  }

  /** When a session's last client has left, no event of its clients is still to be handled. */
  lemma NoEventsLeft(st: State, ch: Choice)
    requires LocksOk(st) && PendingOk(st) && EpollOk(st) && CountsOk(st)
    requires st.epoll.CountDown? && EpollEffect(st, ch).value.epoll.left == 0
    ensures Avoids(st.epoll.rest, st.epoll.e.sid)
  {
    hide Taken, Uncounted;
    var sid := st.epoll.e.sid;
    CountedUnderLock(st, Epoll, sid);
    assert CountOk(st, sid);
    forall e | e in st.epoll.rest
      ensures e.sid != sid
    {
      assert e in Pending(st.epoll) && IsWatched(st, e);
      if e.sid == sid {
        TakenNone(st.sessions[sid].value.slots);
      }
    }
  }

  /** With the table locked by the epoll thread, a taken slot is a watched one. */
  lemma SweptIsWatched(st: State, e: Entry)
    requires LocksOk(st) && HandsOk(st) && st.epoll.Sweep? && HasSlot(st, e) && SlotOf(st, e) != Free
    ensures IsWatched(st, e)
  {
    if IsJoining(st, e) {
      var k := SlotOf(st, e).thread;
      assert JoinedBy(st, e, k);
      RefersUnderLock(st, k);
      OnlyOne(st, Client(k), Epoll, MutSession);
      assert false;
    }
    assert IsLeaving(st, e) ==> LeftBy(st, e);
  }

  lemma ServiceKept(st: State, ch: Choice)
    requires LocksOk(st) && TableOk(st) && PendingOk(st) && EpollOk(st) && CountsOk(st)
    requires EpollEffect(st, ch).Some? && !Deletes(st.epoll)
    ensures EpollOk(EpollEffect(st, ch).value)
  {
    hide LocksOk, CountsOk, CountOk, Reportable;
    if st.epoll.CountDown? && EpollEffect(st, ch).value.epoll.left == 0 {
      NoEventsLeft(st, ch);
    }
    if st.epoll.DropOne? {
      assert InTable(st, st.epoll.e.sid);
    }
  }

  lemma SweepKept(st: State, ch: Choice)
    requires LocksOk(st) && TableOk(st) && HandsOk(st) && PendingOk(st) && EpollOk(st)
    requires Enabled(st, Epoll) && EpollEffect(st, ch).Some? && Deletes(st.epoll)
    requires Sweeps(st.epoll)
    ensures EpollOk(EpollEffect(st, ch).value)
  {
    hide LocksOk, HandsOk, PendingOk, Reportable;
    if EpollEffect(st, ch).value.epoll.WantSweepDel? {
      SweptIsWatched(st, Entry(st.epoll.sid, st.epoll.i));
    }
  }

  lemma AroundSweepKept(st: State, ch: Choice)
    requires LocksOk(st) && TableOk(st) && HandsOk(st) && PendingOk(st) && EpollOk(st)
    requires Enabled(st, Epoll) && EpollEffect(st, ch).Some? && Deletes(st.epoll)
    requires !Sweeps(st.epoll)
    ensures EpollOk(EpollEffect(st, ch).value)
  {
    hide LocksOk, HandsOk, PendingOk, Reportable;
  }

  lemma DeletionKept(st: State, ch: Choice)
    requires LocksOk(st) && TableOk(st) && HandsOk(st) && PendingOk(st) && EpollOk(st)
    requires Enabled(st, Epoll) && EpollEffect(st, ch).Some? && Deletes(st.epoll)
    ensures EpollOk(EpollEffect(st, ch).value)
  {
    hide ClientEffect, EpollEffect;
    if Sweeps(st.epoll) {
      SweepKept(st, ch);
    } else {
      AroundSweepKept(st, ch);
    }
  }

  // ---------------------------------------------------------------- the counts

  lemma CountInDeletion(st: State, ch: Choice, sid: nat)
    requires EpollOk(st) && PendingOk(st) && EpollEffect(st, ch).Some?
    requires !st.epoll.WantSweep? && !st.epoll.FreeSession?
    requires Live(st, sid) && Live(EpollEffect(st, ch).value, sid) && CountOk(st, sid)
    requires Deletes(st.epoll)
    ensures CountOk(EpollEffect(st, ch).value, sid)
  {
    hide Taken, Uncounted, Reportable, PendingOk;
    var st' := EpollEffect(st, ch).value;
    var moved := MovedSlot(st.epoll);
    if moved.Some? && moved.value.sid == sid {
      TakenUpdate(st.sessions[sid].value.slots, moved.value.slot, SlotOf(st', moved.value));
    }
  }

  lemma CountInService(st: State, ch: Choice, sid: nat)
    requires EpollOk(st) && PendingOk(st) && EpollEffect(st, ch).Some?
    requires !st.epoll.WantSweep? && !st.epoll.FreeSession?
    requires Live(st, sid) && Live(EpollEffect(st, ch).value, sid) && CountOk(st, sid)
    requires !Deletes(st.epoll)
    ensures CountOk(EpollEffect(st, ch).value, sid)
  {
    hide Taken, Uncounted, Reportable;
    var st' := EpollEffect(st, ch).value;
    var moved := MovedSlot(st.epoll);
    if moved.Some? && moved.value.sid == sid {
      assert st.epoll.Forget? ==> moved.value in Pending(st.epoll);
      TakenUpdate(st.sessions[sid].value.slots, moved.value.slot, SlotOf(st', moved.value));
    }
  }

  lemma CountKeptByEpoll(st: State, ch: Choice, sid: nat)
    requires EpollOk(st) && PendingOk(st) && EpollEffect(st, ch).Some?
    requires !st.epoll.WantSweep? && !st.epoll.FreeSession?
    requires Live(st, sid) && Live(EpollEffect(st, ch).value, sid) && CountOk(st, sid)
    ensures CountOk(EpollEffect(st, ch).value, sid)
  {
    hide ClientEffect, EpollEffect;
    if Deletes(st.epoll) {
      CountInDeletion(st, ch, sid);
    } else {
      CountInService(st, ch, sid);
    }
  }

  lemma CountsKeptByEpoll(st: State, ch: Choice)
    requires EpollOk(st) && PendingOk(st) && CountsOk(st) && EpollEffect(st, ch).Some?
    ensures CountsOk(EpollEffect(st, ch).value)
  {
    hide Taken, Uncounted, PendingOk, Reportable;
    var st' := EpollEffect(st, ch).value;
    forall sid: nat | Live(st', sid)
      ensures CountOk(st', sid)
    {
      assert Live(st, sid) && CountOk(st, sid);
      if !st.epoll.WantSweep? && !st.epoll.FreeSession? {
        CountKeptByEpoll(st, ch, sid);
      }
    }
  }

  lemma SumKeptByMove(st: State, ch: Choice)
    requires EpollOk(st) && PendingOk(st) && SumOk(st) && EpollEffect(st, ch).Some? && MovedSlot(st.epoll).Some?
    ensures SumOk(EpollEffect(st, ch).value)
  {
    hide Taken, Total, Adds, PendingOk, Reportable;
    var e := MovedSlot(st.epoll).value;
    if st.epoll.Forget? {
      PendingOne(st);
    }
    var st' := EpollEffect(st, ch).value;
    TakenUpdate(st.sessions[e.sid].value.slots, e.slot, SlotOf(st', e));
    TotalUpdate(st.sessions, e.sid, st'.sessions[e.sid]);
  }

  lemma PendingOne(st: State)
    requires PendingOk(st) && st.epoll.Forget?
    ensures IsWatched(st, st.epoll.e)
  {
    assert st.epoll.e in Pending(st.epoll);
  }

  lemma SumKeptByFree(st: State, ch: Choice)
    requires TableOk(st) && EpollOk(st) && SumOk(st) && EpollEffect(st, ch).Some? && st.epoll.FreeSession?
    ensures SumOk(EpollEffect(st, ch).value)
  {
    hide Taken, Total, Adds;
    TotalUpdate(st.sessions, st.epoll.sid, None);
    TakenNone(st.sessions[st.epoll.sid].value.slots);
  }

  lemma SumKeptElsewhere(st: State, ch: Choice)
    requires SumOk(st) && EpollEffect(st, ch).Some?
    requires MovedSlot(st.epoll) == None && !st.epoll.FreeSession?
    ensures SumOk(EpollEffect(st, ch).value)
  {
    hide Taken, Total, Adds, EpollEffect;
    var st' := EpollEffect(st, ch).value;
    DropsElsewhere(st, ch);
    TendsOne(st, ch);
    if st'.sessions != st.sessions {
      var sid := TendedSession(st);
      TotalUpdate(st.sessions, sid, st'.sessions[sid]);
    }
  }

  lemma DropsElsewhere(st: State, ch: Choice)
    requires EpollEffect(st, ch).Some? && MovedSlot(st.epoll) == None && !st.epoll.FreeSession?
    ensures var st' := EpollEffect(st, ch).value; st'.sum - Drops(st'.epoll) == st.sum - Drops(st.epoll)
  {
    hide EpollEffect, Drops;
    if Deletes(st.epoll) {
      DropsInDeletion(st, ch);
    } else {
      DropsInService(st, ch);
    }
  }

  lemma DropsInService(st: State, ch: Choice)
    requires EpollEffect(st, ch).Some? && MovedSlot(st.epoll) == None && !Deletes(st.epoll)
    ensures var st' := EpollEffect(st, ch).value; st'.sum - Drops(st'.epoll) == st.sum - Drops(st.epoll)
  {
    hide Reportable, IsWatched, HasSlot;
  }

  lemma DropsInDeletion(st: State, ch: Choice)
    requires EpollEffect(st, ch).Some? && MovedSlot(st.epoll) == None && !st.epoll.FreeSession? && Deletes(st.epoll)
    ensures var st' := EpollEffect(st, ch).value; st'.sum - Drops(st'.epoll) == st.sum - Drops(st.epoll)
  {
    hide Reportable, IsWatched, HasSlot;
  }

  lemma SumKeptByEpoll(st: State, ch: Choice)
    requires TableOk(st) && EpollOk(st) && PendingOk(st) && SumOk(st) && EpollEffect(st, ch).Some?
    ensures SumOk(EpollEffect(st, ch).value)
  {
    hide EpollEffect, TableOk, EpollOk, PendingOk, SumOk;
    if MovedSlot(st.epoll).Some? {
      SumKeptByMove(st, ch);
    } else if st.epoll.FreeSession? {
      SumKeptByFree(st, ch);
    } else {
      SumKeptElsewhere(st, ch);
    }
  }

  // ---------------------------------------------------------------- the media contexts

  lemma FreedInDeletion(st: State, ch: Choice, sid: nat)
    requires TableOk(st) && EpollOk(st) && EpollEffect(st, ch).Some? && Deletes(st.epoll)
    requires Live(EpollEffect(st, ch).value, sid)
    requires Live(st, sid) && (st.sessions[sid].value.freed <==> PastMedia(st.epoll, sid))
    ensures var st' := EpollEffect(st, ch).value; st'.sessions[sid].value.freed <==> PastMedia(st'.epoll, sid)
  {
    hide Reportable, SweptTo, InTable;
  }

  lemma FreedInService(st: State, ch: Choice, sid: nat)
    requires EpollEffect(st, ch).Some? && !Deletes(st.epoll)
    requires Live(EpollEffect(st, ch).value, sid)
    requires Live(st, sid) && (st.sessions[sid].value.freed <==> PastMedia(st.epoll, sid))
    ensures var st' := EpollEffect(st, ch).value; st'.sessions[sid].value.freed <==> PastMedia(st'.epoll, sid)
  {
    hide Reportable;
  }

  lemma FreedKeptByEpoll(st: State, ch: Choice)
    requires TableOk(st) && PendingOk(st) && EpollOk(st) && FreedOk(st) && EpollEffect(st, ch).Some?
    ensures FreedOk(EpollEffect(st, ch).value)
  {
    hide EpollEffect, EpollOk, TableOk, PendingOk, PastMedia;
    var st' := EpollEffect(st, ch).value;
    forall sid: nat | Live(st', sid)
      ensures st'.sessions[sid].value.freed <==> PastMedia(st'.epoll, sid)
    {
      StaysLive(st, ch, sid);
      if Deletes(st.epoll) {
        FreedInDeletion(st, ch, sid);
      } else {
        FreedInService(st, ch, sid);
      }
    }
  }

  lemma StaysLive(st: State, ch: Choice, sid: nat)
    requires EpollEffect(st, ch).Some? && Live(EpollEffect(st, ch).value, sid)
    ensures Live(st, sid)
  {
    hide EpollEffect;
    if MovedSlot(st.epoll) == None && !st.epoll.FreeSession? {
      EpollMovesNoSlot(st, ch);
    } else {
      StaysLiveMoving(st, ch, sid);
    }
  }

  lemma StaysLiveMoving(st: State, ch: Choice, sid: nat)
    requires EpollEffect(st, ch).Some? && Live(EpollEffect(st, ch).value, sid)
    requires MovedSlot(st.epoll).Some? || st.epoll.FreeSession?
    ensures Live(st, sid)
  {
  }

  lemma EpollKeepsInv(st: State, ch: Choice)
    requires Inv(st) && Enabled(st, Epoll)
    ensures EpollEffect(st, ch).Some?
    ensures Sound(EpollEffect(st, ch).value)
  {
    hide EpollEffect, TableOk, HandsOk, PendingOk, EpollOk, CountsOk, SumOk, FreedOk, LocksOk, ClientsOk, Enabled;
    EpollIsDefined(st, ch);
    TableKeptByEpoll(st, ch);
    ClientsKeptByEpoll(st, ch);
    HandsKeptByEpoll(st, ch);
    PendingKeptByEpoll(st, ch);
    if Deletes(st.epoll) {
      DeletionKept(st, ch);
    } else {
      ServiceKept(st, ch);
    }
    CountsKeptByEpoll(st, ch);
    SumKeptByEpoll(st, ch);
    FreedKeptByEpoll(st, ch);
  }

  // ---------------------------------------------------------------- the media threads

  /** Under the session's lock the count is the number of taken slots, so the callback stays within the slots. */
  lemma CountUnderLock(st: State, t: Tid, sid: nat)
    requires LocksOk(st) && TableOk(st) && CountsOk(st) && EpollOk(st) && Live(st, sid)
    requires Mut(sid) in Holds(st, t) && t.Media?
    ensures st.sessions[sid].value.count == Taken(st.sessions[sid].value.slots) <= CLIENTMAX
  {
    hide Taken, Uncounted;
    CountedUnderLock(st, t, sid);
    assert CountOk(st, sid);
    if Mut(sid) in Holds(st, Epoll) {
      OnlyOne(st, t, Epoll, Mut(sid));
    }
    TakenFits(st.sessions[sid].value.slots);
  }

  lemma MediaIsDefined(st: State, sid: nat, ch: Choice)
    requires Inv(st) && Live(st, sid)
    ensures MediaEffect(st, sid, ch).Some?
  {
    hide LocksOk, TableOk, ClientsOk, HandsOk, PendingOk, EpollOk, CountsOk, SumOk;
    if st.sessions[sid].value.media.Visit? {
      CountUnderLock(st, Media(sid), sid);
      assert |st.sessions[sid].value.slots| == CLIENTMAX by { SlotCount(st, sid); }
    }
  }

  lemma SlotCount(st: State, sid: nat)
    requires TableOk(st) && Live(st, sid)
    ensures |st.sessions[sid].value.slots| == CLIENTMAX
  {
  }

  /** Only the place of the media thread in its loop differs. */
  ghost predicate OnlyMedia(st: State, st': State, sid: nat) {
    && Live(st, sid) && Live(st', sid)
    && st.sessions[sid].value.media != Exit
    && st' == st.(sessions := st'.sessions)
    && st'.sessions == st.sessions[sid := st'.sessions[sid]]
    && st'.sessions[sid].value == st.sessions[sid].value.(media := st'.sessions[sid].value.media)
  }

  lemma SameSlots(st: State, st': State, sid: nat)
    requires OnlyMedia(st, st', sid)
    ensures forall e :: HasSlot(st', e) <==> HasSlot(st, e)
    ensures forall e :: HasSlot(st, e) ==> SlotOf(st', e) == SlotOf(st, e)
    ensures forall other: nat :: Live(st', other) <==> Live(st, other)
    ensures forall other: nat :: Live(st, other) ==> st'.sessions[other].value.slots == st.sessions[other].value.slots
    ensures forall other: nat :: Quiet(st, other) ==> Quiet(st', other)
  {
  }

  lemma PartsKeptByMedia(st: State, st': State, sid: nat)
    requires OnlyMedia(st, st', sid) && TableOk(st) && HandsOk(st) && PendingOk(st)
    ensures TableOk(st') && HandsOk(st') && PendingOk(st')
  {
    SameSlots(st, st', sid);
    assert forall other: nat :: Live(st', other) ==> Live(st, other) && InTable(st, other);
    assert st'.epoll == st.epoll;
    forall e | IsLeaving(st', e)
      ensures LeftBy(st', e)
    {
      assert IsLeaving(st, e);
    }
  }

  lemma ClientsKeptByMedia(st: State, st': State, sid: nat)
    requires OnlyMedia(st, st', sid) && ClientsOk(st)
    ensures ClientsOk(st')
  {
    SameSlots(st, st', sid);
    forall k | 0 <= k < |st'.clients|
      ensures ClientOk(st', k)
    {
      assert ClientOk(st, k);
    }
  }

  lemma EpollKeptByMedia(st: State, st': State, sid: nat)
    requires OnlyMedia(st, st', sid) && EpollOk(st)
    ensures EpollOk(st')
  {
    SameSlots(st, st', sid);
  }

  lemma CountsKeptByMedia(st: State, st': State, sid: nat)
    requires OnlyMedia(st, st', sid) && CountsOk(st) && SumOk(st)
    ensures CountsOk(st') && SumOk(st')
  {
    hide Taken, Total, Uncounted, Adds;
    TotalUpdate(st.sessions, sid, st'.sessions[sid]);
    forall other: nat | Live(st', other)
      ensures CountOk(st', other)
    {
      assert Live(st, other) && CountOk(st, other);
    }
  }

  lemma FreedKeptByMedia(st: State, st': State, sid: nat)
    requires OnlyMedia(st, st', sid) && FreedOk(st)
    ensures FreedOk(st')
  {
    assert st'.epoll == st.epoll;
    forall other: nat | Live(st', other)
      ensures st'.sessions[other].value.freed <==> PastMedia(st'.epoll, other)
    {
      assert Live(st, other);
    }
  }

  lemma MediaKeepsInv(st: State, sid: nat, ch: Choice)
    requires Inv(st) && Live(st, sid) && st.sessions[sid].value.media != Exit
    ensures MediaEffect(st, sid, ch).Some?
    ensures Sound(MediaEffect(st, sid, ch).value)
  {
    hide TableOk, ClientsOk, HandsOk, PendingOk, EpollOk, CountsOk, SumOk, FreedOk, LocksOk, NextMedia;
    MediaIsDefined(st, sid, ch);
    var st' := MediaEffect(st, sid, ch).value;
    assert OnlyMedia(st, st', sid);
    PartsKeptByMedia(st, st', sid);
    ClientsKeptByMedia(st, st', sid);
    EpollKeptByMedia(st, st', sid);
    CountsKeptByMedia(st, st', sid);
    FreedKeptByMedia(st, st', sid);
  }
}
