/** What is shared is changed only under its lock. */
module ServerAccess {
  import opened Bytes
  import opened Server
  import opened ServerLocks
  import opened ServerInv
  import opened ServerClients
  import opened ServerEpoll
  import opened ServerRuns

  /** The slots are taken and free alike. */
  predicate SameTaken(s: Session, s': Session) {
    |s'.slots| == |s.slots| && forall i :: 0 <= i < |s.slots| ==> (s'.slots[i] == Free <==> s.slots[i] == Free)
  }

  /** What the step from st to st' changes, its thread holds the lock of: the table, a session's count and which of its
      slots are taken, the epoll set, and the total. */
  ghost predicate UnderLocks(st: State, st': State, held: set<Lock>) {
    && (st'.table != st.table ==> MutSession in held)
    && (forall sid: nat :: Live(st, sid) && Live(st', sid) && !SameCounts(st, st', sid) ==> Mut(sid) in held)
    && (forall e: Entry :: Live(st, e.sid) && Live(st', e.sid) && IsWatched(st', e) != IsWatched(st, e) ==>
          MutEpoll in held)
    && (st'.sum != st.sum ==> MutClientCount in held)
  }

  predicate SameCounts(st: State, st': State, sid: nat)
    requires Live(st, sid) && Live(st', sid)
  {
    var s, s' := st.sessions[sid].value, st'.sessions[sid].value;
    s'.count == s.count && SameTaken(s, s')
  }

  lemma SearchUnderLocks(st: State, k: nat)
    requires k < |st.clients| && ClientOk(st, k) && ClientEffect(st, k).Some? && Searches(st.clients[k].pc)
    ensures UnderLocks(st, ClientEffect(st, k).value, ClientHolds(st.clients[k].pc))
  {
    hide Dangling, Find, FirstEmpty, LowestFree;
  }

  lemma JoinUnderLocks(st: State, k: nat)
    requires k < |st.clients| && ClientOk(st, k) && ClientEffect(st, k).Some? && !Searches(st.clients[k].pc)
    ensures UnderLocks(st, ClientEffect(st, k).value, ClientHolds(st.clients[k].pc))
  {
  }

  lemma MovesUnderLocks(st: State, ch: Choice)
    requires PendingOk(st) && EpollOk(st) && EpollEffect(st, ch).Some? && MovedSlot(st.epoll).Some?
    ensures UnderLocks(st, EpollEffect(st, ch).value, EpollHolds(st.epoll))
  {
    hide PendingOk, SweptTo;
    if st.epoll.Forget? {
      PendingOne(st);
    }
  }

  lemma FreesUnderLocks(st: State, ch: Choice)
    requires EpollEffect(st, ch).Some? && st.epoll.FreeSession?
    ensures UnderLocks(st, EpollEffect(st, ch).value, EpollHolds(st.epoll))
  {
  }

  /** Elsewhere only the count-downs change what is shared. */
  lemma CountsUnderLocks(st: State, ch: Choice)
    requires EpollEffect(st, ch).Some? && MovedSlot(st.epoll) == None && !st.epoll.FreeSession?
    ensures UnderLocks(st, EpollEffect(st, ch).value, EpollHolds(st.epoll))
  {
    hide EpollEffect, EpollHolds;
    TendsOne(st, ch);
    TendsCount(st, ch);
  }

  lemma TendsCount(st: State, ch: Choice)
    requires EpollEffect(st, ch).Some? && MovedSlot(st.epoll) == None && !st.epoll.FreeSession?
    ensures var st', sid := EpollEffect(st, ch).value, TendedSession(st);
            && (st'.sum != st.sum ==> MutClientCount in EpollHolds(st.epoll))
            && (Live(st, sid) && Live(st', sid) && st'.sessions[sid].value.count != st.sessions[sid].value.count ==>
                  Mut(sid) in EpollHolds(st.epoll))
  {
    hide Reportable, IsWatched, HasSlot;
  }

  lemma MediaUnderLocks(st: State, sid: nat, ch: Choice)
    requires Live(st, sid) && MediaEffect(st, sid, ch).Some?
    ensures UnderLocks(st, MediaEffect(st, sid, ch).value, Holds(st, Media(sid)))
  {
    hide NextMedia;
  }

  /** In every reachable state, whatever the thread: who changes the table holds its lock, who changes a session's
      count or takes or frees a slot holds the session's, who changes the epoll set its own, and so the total's. */
  lemma ChangesUnderLocks(init: State, schedule: seq<(Tid, Choice)>, t: Tid, ch: Choice)
    requires Initial(init) && Run(init, schedule).Some? && Enabled(Run(init, schedule).value, t)
    requires StepOn(Run(init, schedule).value, t, ch).Some?
    ensures var st := Run(init, schedule).value;
            UnderLocks(st, StepOn(st, t, ch).value, Holds(st, t))
  {
    var st := Run(init, schedule).value;
    InvAlways(init, schedule);
    hide Run, UnderLocks, ClientEffect, EpollEffect, MediaEffect, LocksOk, TableOk, HandsOk, CountsOk, SumOk, FreedOk;
    hide EpollOk, PendingOk;
    match t {
      case Client(k) =>
        assert ClientOk(st, k);
        if Searches(st.clients[k].pc) {
          SearchUnderLocks(st, k);
        } else {
          JoinUnderLocks(st, k);
        }
      case Epoll =>
        if MovedSlot(st.epoll).Some? {
          MovesUnderLocks(st, ch);
        } else if st.epoll.FreeSession? {
          FreesUnderLocks(st, ch);
        } else {
          CountsUnderLocks(st, ch);
        }
      case Media(sid) => MediaUnderLocks(st, sid, ch);
    }
    LocksAside(st, Effect(st, t, ch).value, Owners(st, t), Holds(st, t));
  }

  lemma LocksAside(st: State, st': State, owner: map<Lock, Tid>, held: set<Lock>)
    requires UnderLocks(st, st', held)
    ensures UnderLocks(st, st'.(owner := owner), held)
  {
    var st'' := st'.(owner := owner);
    assert forall e :: IsWatched(st'', e) <==> IsWatched(st', e);
    assert forall sid: nat :: Live(st'', sid) <==> Live(st', sid);
    assert forall sid: nat :: Live(st, sid) && Live(st', sid) ==>
      (SameCounts(st, st'', sid) <==> SameCounts(st, st', sid));
  }

  /** While the media thread is in its callback, nobody changes the count or which slots are taken, and nobody takes a
      packet out of the ring that it stores into. */
  lemma CallbackUndisturbed(init: State, schedule: seq<(Tid, Choice)>, sid: nat, t: Tid, ch: Choice)
    requires Initial(init) && Run(init, schedule).Some? && Enabled(Run(init, schedule).value, t) && t != Media(sid)
    requires var st := Run(init, schedule).value;
             && StepOn(st, t, ch).Some? && Live(st, sid) && Live(StepOn(st, t, ch).value, sid)
             && Mut(sid) in Holds(st, Media(sid))
    ensures var st := Run(init, schedule).value;
            && SameCounts(st, StepOn(st, t, ch).value, sid)
            && !(st.epoll.Taking? && st.epoll.e.sid == sid)
  {
    var st := Run(init, schedule).value;
    InvAlways(init, schedule);
    ChangesUnderLocks(init, schedule, t, ch);
    hide Run, Inv, StepOn, UnderLocks;
    Undisturbed(st, StepOn(st, t, ch).value, sid, t);
  }

  lemma Undisturbed(st: State, st': State, sid: nat, t: Tid)
    requires Inv(st) && UnderLocks(st, st', Holds(st, t)) && t != Media(sid)
    requires Live(st, sid) && Live(st', sid) && Mut(sid) in Holds(st, Media(sid))
    ensures SameCounts(st, st', sid) && !(st.epoll.Taking? && st.epoll.e.sid == sid)
  {
    hide Sound, SameCounts;
    if Mut(sid) in Holds(st, t) {
      OnlyOne(st, t, Media(sid), Mut(sid));
    }
    if st.epoll.Taking? && st.epoll.e.sid == sid {
      OnlyOne(st, Epoll, Media(sid), Mut(sid));
    }
  }
}
