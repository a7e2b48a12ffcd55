/** The life of a session: it plays until its last client has left, and then it is deleted. */
module ServerLife {
  import opened Bytes
  import opened Server
  import opened ServerLocks
  import opened ServerInv
  import opened ServerClients
  import opened ServerEpoll
  import opened ServerRuns
  import opened ServerFind

  // ---------------------------------------------------------------- empty sessions

  predicate WithLeft(pc: EpollPc) {
    pc.Cleared? || pc.WantDrop? || pc.DropOne?
  }

  /** The epoll thread is between counting a client of the session down and freeing the session. */
  predicate StandsFor(st: State, sid: nat) {
    match st.epoll
    case CountDown(e, _) => e.sid == sid
    case Cleared(e, _, _) => e.sid == sid
    case WantDrop(e, _, _) => e.sid == sid
    case DropOne(e, _, _) => e.sid == sid
    case Stop(pos, _) => pos < |st.table| && st.table[pos] == Some(sid)
    case _ => Stopped(st.epoll, sid)
  }

  /** A client's thread is about to put the first client into the session. */
  predicate Enters(pc: ClientPc, sid: nat) {
    (pc.WantNew? || pc.Fill?) && pc.sid == sid
  }

  ghost predicate OnTheWayIn(st: State, sid: nat) {
    exists k: nat :: k < |st.clients| && Enters(st.clients[k].pc, sid)
  }

  predicate Occupied(st: State, sid: nat)
    requires Live(st, sid)
  {
    exists i :: 0 <= i < |st.sessions[sid].value.slots| && st.sessions[sid].value.slots[i] != Free
  }

  ghost predicate EmptyOk(st: State, sid: nat)
    requires Live(st, sid)
  {
    Occupied(st, sid) || OnTheWayIn(st, sid) || StandsFor(st, sid)
  }

  /** A client that has left others behind has left a session with a taken slot. */
  predicate LeftOk(st: State) {
    WithLeft(st.epoll) && st.epoll.left != 0 && Live(st, st.epoll.e.sid) ==> Occupied(st, st.epoll.e.sid)
  }

  // ---------------------------------------------------------------- playing

  /** The epoll thread has told the session's media thread to stop. */
  predicate Stopped(pc: EpollPc, sid: nat) {
    && (pc.Await? || pc.WantDelete? || pc.Check? || pc.WantSweep? || pc.Sweep? || pc.WantSweepDel? || pc.SweepDel?
        || pc.SweepClear? || pc.Release? || pc.FreeSession?)
    && pc.sid == sid
  }

  predicate PlaysOk(st: State, sid: nat)
    requires Live(st, sid)
  {
    && (st.sessions[sid].value.run <==> !Stopped(st.epoll, sid))
    && (st.sessions[sid].value.media == Exit ==> !st.sessions[sid].value.run)
  }

  ghost predicate LifeOk(st: State) {
    && LeftOk(st)
    && forall sid: nat :: Live(st, sid) ==> EmptyOk(st, sid) && PlaysOk(st, sid)
  }

  // ---------------------------------------------------------------- a client's step

  lemma TakenStay(st: State, k: nat, sid: nat)
    requires k < |st.clients| && ClientOk(st, k) && ClientEffect(st, k).Some? && Live(st, sid)
    ensures Live(ClientEffect(st, k).value, sid)
    ensures Occupied(st, sid) ==> Occupied(ClientEffect(st, k).value, sid)
  {
    hide Dangling, FirstEmpty, LowestFree, Find;
    var slots := st.sessions[sid].value.slots;
    if Occupied(st, sid) {
      var i :| 0 <= i < |slots| && slots[i] != Free;
      assert ClientEffect(st, k).value.sessions[sid].value.slots[i] != Free;
    }
  }

  /** The client that was to be the first of the session is now in it. */
  lemma ComesIn(st: State, k: nat, sid: nat)
    requires k < |st.clients| && ClientOk(st, k) && ClientEffect(st, k).Some? && Live(st, sid)
    requires Enters(st.clients[k].pc, sid)
    ensures var st' := ClientEffect(st, k).value;
            k < |st'.clients| && (Enters(st'.clients[k].pc, sid) || (Live(st', sid) && Occupied(st', sid)))
  {
    var st' := ClientEffect(st, k).value;
    if st.clients[k].pc.Fill? {
      assert st'.sessions[sid].value.slots[st.clients[k].pc.slot] != Free;
    }
  }

  lemma OthersComeIn(st: State, k: nat, j: nat)
    requires k < |st.clients| && ClientEffect(st, k).Some? && j < |st.clients| && j != k
    ensures var st' := ClientEffect(st, k).value; j < |st'.clients| && st'.clients[j] == st.clients[j]
  {
    ClientHoldsAfter(st, k);
  }

  lemma SameStanding(st: State, st': State, sid: nat)
    requires st'.epoll == st.epoll && Grown(st, st') && StandsFor(st, sid)
    ensures StandsFor(st', sid)
  {
  }

  lemma EmptyKeptByClient(st: State, k: nat, sid: nat)
    requires k < |st.clients| && ClientOk(st, k) && ClientEffect(st, k).Some? && Live(st, sid) && EmptyOk(st, sid)
    ensures Live(ClientEffect(st, k).value, sid) && EmptyOk(ClientEffect(st, k).value, sid)
  {
    hide ClientEffect, ClientOk, Enters, Occupied, StandsFor, Grown;
    var st' := ClientEffect(st, k).value;
    TakenStay(st, k, sid);
    ClientGrows(st, k);
    if OnTheWayIn(st, sid) {
      var j: nat :| j < |st.clients| && Enters(st.clients[j].pc, sid);
      if j == k {
        ComesIn(st, k, sid);
      } else {
        OthersComeIn(st, k, j);
        assert Enters(st'.clients[j].pc, sid);
      }
    } else if StandsFor(st, sid) {
      SameStanding(st, st', sid);
    }
  }

  lemma CreatedIsAwaited(st: State, k: nat)
    requires EpollOk(st) && k < |st.clients| && ClientEffect(st, k).Some? && st.clients[k].pc.Create?
    ensures var st', sid := ClientEffect(st, k).value, |st.sessions|;
            Live(st', sid) && EmptyOk(st', sid) && PlaysOk(st', sid)
  {
    var st', sid := ClientEffect(st, k).value, |st.sessions|;
    assert Enters(st'.clients[k].pc, sid);
  }

  lemma LifeKeptByClient(st: State, k: nat)
    requires Inv(st) && LifeOk(st) && k < |st.clients| && ClientEffect(st, k).Some?
    ensures LifeOk(ClientEffect(st, k).value)
  {
    hide LocksOk, TableOk, HandsOk, CountsOk, SumOk, FreedOk, PendingOk, EpollOk;
    hide ClientEffect, ClientOk, EmptyOk, Occupied;
    var st' := ClientEffect(st, k).value;
    assert ClientOk(st, k);
    ClientGrows(st, k);
    forall sid: nat | Live(st', sid)
      ensures EmptyOk(st', sid) && PlaysOk(st', sid)
    {
      if Live(st, sid) {
        EmptyKeptByClient(st, k, sid);
      } else {
        NewIsCreated(st, k, sid);
        CreatedIsAwaited(st, k);
      }
    }
    if WithLeft(st.epoll) && st.epoll.left != 0 {
      LeftIsLive(st);
      TakenStay(st, k, st.epoll.e.sid);
    }
  }

  lemma LeftIsLive(st: State)
    requires EpollOk(st) && WithLeft(st.epoll)
    ensures Live(st, st.epoll.e.sid)
  {
  }

  // ---------------------------------------------------------------- the epoll thread's step

  /** What the step of the epoll thread may empty is what it stands for then. */
  lemma EmptiedIsStoodFor(st: State, ch: Choice, sid: nat)
    requires PendingOk(st) && EpollOk(st) && EpollEffect(st, ch).Some?
    requires Live(st, sid) && Live(EpollEffect(st, ch).value, sid) && Occupied(st, sid)
    ensures Occupied(EpollEffect(st, ch).value, sid) || StandsFor(EpollEffect(st, ch).value, sid)
  {
    hide EpollEffect, StandsFor, Kept, PendingOk, EpollOk;
    var slots := st.sessions[sid].value.slots;
    var i :| 0 <= i < |slots| && slots[i] != Free;
    if MovedSlot(st.epoll) == Some(Entry(sid, i)) {
      MovesOut(st, ch);
    } else {
      SlotStays(st, ch, Entry(sid, i));
      assert EpollEffect(st, ch).value.sessions[sid].value.slots[i] != Free;
    }
  }

  lemma MovesOut(st: State, ch: Choice)
    requires EpollEffect(st, ch).Some? && MovedSlot(st.epoll).Some?
    ensures var st', e := EpollEffect(st, ch).value, MovedSlot(st.epoll).value;
            StandsFor(st', e.sid) || (Live(st', e.sid) && Occupied(st', e.sid))
  {
    var st', e := EpollEffect(st, ch).value, MovedSlot(st.epoll).value;
    if st.epoll.Forget? {
      assert st'.sessions[e.sid].value.slots[e.slot] != Free;
    }
  }

  lemma SlotStays(st: State, ch: Choice, e: Entry)
    requires EpollEffect(st, ch).Some? && HasSlot(st, e) && Live(EpollEffect(st, ch).value, e.sid)
    requires MovedSlot(st.epoll) != Some(e)
    ensures HasSlot(EpollEffect(st, ch).value, e) && SlotOf(EpollEffect(st, ch).value, e) == SlotOf(st, e)
  {
    hide EpollEffect;
    if MovedSlot(st.epoll) == None && !st.epoll.FreeSession? {
      TendsOne(st, ch);
    } else {
      SlotStaysMoving(st, ch, e);
    }
  }

  lemma SlotStaysMoving(st: State, ch: Choice, e: Entry)
    requires EpollEffect(st, ch).Some? && HasSlot(st, e) && Live(EpollEffect(st, ch).value, e.sid)
    requires MovedSlot(st.epoll) != Some(e) && (MovedSlot(st.epoll).Some? || st.epoll.FreeSession?)
    ensures HasSlot(EpollEffect(st, ch).value, e) && SlotOf(EpollEffect(st, ch).value, e) == SlotOf(st, e)
  {
  }

  /** The epoll thread gives up a session that it stands for only with a taken slot in it, or freed. */
  lemma StandsUntilDone(st: State, ch: Choice, sid: nat)
    requires TableOk(st) && EpollOk(st) && LeftOk(st) && EpollEffect(st, ch).Some?
    requires Live(st, sid) && Live(EpollEffect(st, ch).value, sid) && StandsFor(st, sid)
    ensures Occupied(EpollEffect(st, ch).value, sid) || StandsFor(EpollEffect(st, ch).value, sid)
  {
    hide EpollEffect, EpollOk, TableOk, LeftOk;
    if st.epoll.DropOne? {
      GivesUpOccupied(st, ch);
    } else if Deletes(st.epoll) {
      StandsInDeletion(st, ch, sid);
    } else {
      StandsBefore(st, ch, sid);
    }
  }

  lemma GivesUpOccupied(st: State, ch: Choice)
    requires TableOk(st) && EpollOk(st) && LeftOk(st) && EpollEffect(st, ch).Some? && st.epoll.DropOne?
    ensures var st', sid := EpollEffect(st, ch).value, st.epoll.e.sid;
            Live(st', sid) && (Occupied(st', sid) || StandsFor(st', sid))
  {
    assert InTable(st, st.epoll.e.sid);
    if st.epoll.left != 0 {
      assert Occupied(st, st.epoll.e.sid);
      assert EpollEffect(st, ch).value.sessions == st.sessions;
    }
  }

  lemma StandsInDeletion(st: State, ch: Choice, sid: nat)
    requires EpollOk(st) && EpollEffect(st, ch).Some? && Deletes(st.epoll)
    requires Live(EpollEffect(st, ch).value, sid) && StandsFor(st, sid)
    ensures StandsFor(EpollEffect(st, ch).value, sid)
  {
    hide SweptTo, IsWatched;
  }

  lemma StandsBefore(st: State, ch: Choice, sid: nat)
    requires EpollEffect(st, ch).Some? && !Deletes(st.epoll) && !st.epoll.DropOne? && StandsFor(st, sid)
    ensures StandsFor(EpollEffect(st, ch).value, sid)
  {
    hide Reportable, IsWatched;
  }

  lemma OnTheWayKept(st: State, st': State, sid: nat)
    requires st'.clients == st.clients && OnTheWayIn(st, sid)
    ensures OnTheWayIn(st', sid)
  {
  }

  lemma EmptyKeptByEpoll(st: State, ch: Choice, sid: nat)
    requires TableOk(st) && PendingOk(st) && EpollOk(st) && LeftOk(st) && EpollEffect(st, ch).Some?
    requires Live(st, sid) && Live(EpollEffect(st, ch).value, sid) && EmptyOk(st, sid)
    ensures EmptyOk(EpollEffect(st, ch).value, sid)
  {
    hide EpollEffect, EpollOk, PendingOk, TableOk, LeftOk, StandsFor, OnTheWayIn, Occupied;
    EpollHoldsAfter(st, ch);
    if Occupied(st, sid) {
      EmptiedIsStoodFor(st, ch, sid);
    } else if StandsFor(st, sid) {
      StandsUntilDone(st, ch, sid);
    } else {
      OnTheWayKept(st, EpollEffect(st, ch).value, sid);
    }
  }

  /** The count that decides is the number of taken slots. */
  lemma LeftIsCounted(st: State, ch: Choice)
    requires LocksOk(st) && CountsOk(st) && EpollOk(st) && EpollEffect(st, ch).Some? && st.epoll.CountDown?
    ensures LeftOk(EpollEffect(st, ch).value)
  {
    hide Taken, Uncounted, Occupied;
    var sid := st.epoll.e.sid;
    var st' := EpollEffect(st, ch).value;
    CountedUnderLock(st, Epoll, sid);
    assert CountOk(st, sid);
    assert st'.epoll.left == Taken(st.sessions[sid].value.slots);
    TakenNone(st'.sessions[sid].value.slots);
    EmptyIsFree(st', sid);
  }

  lemma EmptyIsFree(st: State, sid: nat)
    requires Live(st, sid)
    ensures var slots := st.sessions[sid].value.slots;
            Occupied(st, sid) <==> !(forall j :: 0 <= j < |slots| ==> slots[j] == Free)
  {
  }

  lemma LeftKeptByEpoll(st: State, ch: Choice)
    requires LocksOk(st) && CountsOk(st) && EpollOk(st) && LeftOk(st) && EpollEffect(st, ch).Some?
    ensures LeftOk(EpollEffect(st, ch).value)
  {
    hide LocksOk, CountsOk, Reportable, Taken, EpollOk, Occupied;
    if st.epoll.CountDown? {
      LeftIsCounted(st, ch);
    } else {
      LeftStays(st, ch);
    }
  }

  lemma LeftStays(st: State, ch: Choice)
    requires LeftOk(st) && EpollEffect(st, ch).Some? && !st.epoll.CountDown?
    ensures LeftOk(EpollEffect(st, ch).value)
  {
    hide Reportable, IsWatched, HasSlot, Occupied;
    var st' := EpollEffect(st, ch).value;
    if WithLeft(st'.epoll) {
      assert WithLeft(st.epoll) && st'.epoll.left == st.epoll.left && st'.epoll.e == st.epoll.e;
      assert st'.sessions == st.sessions;
      SameOccupied(st, st', st.epoll.e.sid);
    }
  }

  lemma SameOccupied(st: State, st': State, sid: nat)
    requires st'.sessions == st.sessions
    ensures Live(st', sid) <==> Live(st, sid)
    ensures Live(st, sid) ==> (Occupied(st', sid) <==> Occupied(st, sid))
  {
  }

  lemma PlaysInDeletion(st: State, ch: Choice, sid: nat)
    requires EpollOk(st) && EpollEffect(st, ch).Some? && Deletes(st.epoll)
    requires Live(st, sid) && Live(EpollEffect(st, ch).value, sid) && PlaysOk(st, sid)
    ensures PlaysOk(EpollEffect(st, ch).value, sid)
  {
    hide SweptTo, IsWatched;
  }

  lemma PlaysInService(st: State, ch: Choice, sid: nat)
    requires EpollEffect(st, ch).Some? && !Deletes(st.epoll)
    requires Live(st, sid) && Live(EpollEffect(st, ch).value, sid) && PlaysOk(st, sid)
    ensures PlaysOk(EpollEffect(st, ch).value, sid)
  {
    hide Reportable;
  }

  lemma LifeKeptByEpoll(st: State, ch: Choice)
    requires Inv(st) && LifeOk(st) && EpollEffect(st, ch).Some?
    ensures LifeOk(EpollEffect(st, ch).value)
  {
    hide LocksOk, TableOk, HandsOk, CountsOk, SumOk, FreedOk, PendingOk, ClientsOk, EpollOk, EpollEffect;
    hide EmptyOk, PlaysOk, LeftOk;
    var st' := EpollEffect(st, ch).value;
    LeftKeptByEpoll(st, ch);
    forall sid: nat | Live(st', sid)
      ensures EmptyOk(st', sid) && PlaysOk(st', sid)
    {
      StaysLive(st, ch, sid);
      EmptyKeptByEpoll(st, ch, sid);
      if Deletes(st.epoll) {
        PlaysInDeletion(st, ch, sid);
      } else {
        PlaysInService(st, ch, sid);
      }
    }
  }

  // ---------------------------------------------------------------- a media thread's step

  /** A media thread ends only when its run flag is down. */
  lemma EndsWhenTold(s: Session, ch: Choice)
    requires s.media != Exit && NextMedia(s, ch) == Some(Exit)
    ensures !s.run
  {
  }

  lemma LifeKeptByMedia(st: State, sid: nat, ch: Choice)
    requires LifeOk(st) && Live(st, sid) && st.sessions[sid].value.media != Exit && MediaEffect(st, sid, ch).Some?
    ensures LifeOk(MediaEffect(st, sid, ch).value)
  {
    hide NextMedia;
    var st' := MediaEffect(st, sid, ch).value;
    assert OnlyMedia(st, st', sid);
    if NextMedia(st.sessions[sid].value, ch) == Some(Exit) {
      EndsWhenTold(st.sessions[sid].value, ch);
    }
    forall other: nat | Live(st', other)
      ensures EmptyOk(st', other) && PlaysOk(st', other)
    {
      assert Live(st, other) && st'.sessions[other].value.slots == st.sessions[other].value.slots;
      assert Occupied(st', other) <==> Occupied(st, other);
    }
  }

  // ---------------------------------------------------------------- along a run

  lemma LifeMindsNoOwners(st: State, owner: map<Lock, Tid>)
    requires LifeOk(st)
    ensures LifeOk(st.(owner := owner))
  {
    var st' := st.(owner := owner);
    forall sid: nat | Live(st', sid)
      ensures EmptyOk(st', sid) && PlaysOk(st', sid)
    {
      assert Live(st, sid) && EmptyOk(st, sid);
      assert Occupied(st', sid) <==> Occupied(st, sid);
    }
  }

  lemma LifeKept(st: State, t: Tid, ch: Choice)
    requires Inv(st) && LifeOk(st) && Enabled(st, t) && StepOn(st, t, ch).Some?
    ensures LifeOk(StepOn(st, t, ch).value)
  {
    hide Inv, LifeOk, ClientEffect, EpollEffect, MediaEffect;
    match t {
      case Client(k) => LifeKeptByClient(st, k);
      case Epoll => LifeKeptByEpoll(st, ch);
      case Media(sid) => LifeKeptByMedia(st, sid, ch);
    }
    LifeMindsNoOwners(Effect(st, t, ch).value, Owners(st, t));
  }

  lemma {:induction false} LifeAlways(init: State, schedule: seq<(Tid, Choice)>)
    requires Initial(init) && Run(init, schedule).Some?
    ensures LifeOk(Run(init, schedule).value)
  {
    hide Inv, StepOn;
    if schedule != [] {
      var earlier := schedule[..|schedule| - 1];
      var (t, ch) := schedule[|schedule| - 1];
      LifeAlways(init, earlier);
      InvAlways(init, earlier);
      hide LifeOk;
      if Enabled(Run(init, earlier).value, t) {
        LifeKept(Run(init, earlier).value, t, ch);
      }
    }
  }

  /** No session is left empty and forgotten: in every reachable state a session of which no slot is taken has a client
      on its way into it, or the epoll thread has just counted its last client down and is about to delete it. */
  lemma EmptyIsDeleted(init: State, schedule: seq<(Tid, Choice)>, sid: nat)
    requires Initial(init) && Run(init, schedule).Some? && Live(Run(init, schedule).value, sid)
    requires var slots := Run(init, schedule).value.sessions[sid].value.slots;
             forall i :: 0 <= i < |slots| ==> slots[i] == Free
    ensures var st := Run(init, schedule).value;
            || StandsFor(st, sid)
            || exists k: nat :: k < |st.clients| && Enters(st.clients[k].pc, sid)
  {
    LifeAlways(init, schedule);
    hide Run, StandsFor, Enters;
  }

  /** A session plays until its deletion has begun, and its media thread does not end before. */
  lemma PlaysUntilDeleted(init: State, schedule: seq<(Tid, Choice)>, sid: nat)
    requires Initial(init) && Run(init, schedule).Some? && Live(Run(init, schedule).value, sid)
    ensures var st := Run(init, schedule).value;
            && (st.sessions[sid].value.run <==> !Stopped(st.epoll, sid))
            && (!Stopped(st.epoll, sid) ==> st.sessions[sid].value.media != Exit)
  {
    LifeAlways(init, schedule);
    hide Run, EmptyOk;
  }

  /** With every client's thread at its end and the epoll thread between two events, every session in the table has a
      client and plays. */
  lemma NoneForgotten(init: State, schedule: seq<(Tid, Choice)>, i: nat)
    requires Initial(init) && Run(init, schedule).Some?
    requires var st := Run(init, schedule).value;
             && (forall c <- st.clients :: c.pc == Done) && (st.epoll.Idle? || st.epoll.Poll? || st.epoll.Batch?)
             && i < |st.table| && st.table[i].Some?
    ensures var st := Run(init, schedule).value;
            var sid := st.table[i].value;
            Live(st, sid) && Occupied(st, sid) && st.sessions[sid].value.run && st.sessions[sid].value.media != Exit
  {
    LifeAlways(init, schedule);
    InvAlways(init, schedule);
    hide Run, Occupied, LocksOk, HandsOk, CountsOk, SumOk, FreedOk, PendingOk, ClientsOk, EpollOk;
    var st := Run(init, schedule).value;
    assert forall k: nat :: k < |st.clients| ==> st.clients[k] in st.clients;
    assert Live(st, st.table[i].value);
    assert EmptyOk(st, st.table[i].value) && PlaysOk(st, st.table[i].value);
  }
}
