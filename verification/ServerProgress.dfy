/** Threads get on: what a thread does between two waits takes a bounded number of its steps, and a callback looks at
    every client of its session. */
module ServerProgress {
  import opened Bytes
  import opened Server
  import opened ServerLocks
  import opened ServerInv
  import opened ServerClients
  import opened ServerEpoll
  import opened ServerRuns

  // ---------------------------------------------------------------- the epoll thread

  /** An upper bound of the steps that the epoll thread takes for one event, and for one slot in a deletion. */
  const PER_EVENT := 5000
  const PER_SLOT := 4

  function Behind(i: nat): nat {
    if i < CLIENTMAX then PER_SLOT * (CLIENTMAX - i) else 0
  }

  /** The steps that are still ahead of the epoll thread in the handling of an event. */
  function Stage(pc: EpollPc): nat {
    match pc
    case WantTake(_, _) => 4900
    case WantQueue(_, _) => 4890
    case Taking(_, _) => 4880
    case Took(_, _, _) => 4870
    case Send(_, _) => 4860
    case WantForget(_, _) => 4850
    case Forget(_, _) => 4840
    case WantClear(_, _) => 4830
    case Clear(_, _) => 4820
    case CountDown(_, _) => 4810
    case Cleared(_, _, _) => 4800
    case WantDrop(_, _, _) => 4790
    case DropOne(_, _, _) => 4780
    case Stop(_, _) => 4770
    case Await(_, _, _) => 4760
    case WantDelete(_, _, _) => 4750
    case Check(_, _, _) => 4740
    case WantSweep(_, _, _) => 4730
    case Sweep(_, _, _, i, _) => 20 + Behind(i)
    case WantSweepDel(_, _, _, i, _) => 19 + Behind(i)
    case SweepDel(_, _, _, i, _) => 18 + Behind(i)
    case SweepClear(_, _, _, i, _) => 17 + Behind(i)
    case Release(_, _, _, _) => 10
    case FreeSession(_, _, _, _) => 9
    case Freed(_, _) => 8
    case WantDropAll(_, _) => 7
    case DropAll(_, _) => 6
    case _ => 5
  }

  function StepsAhead(pc: EpollPc): nat {
    PER_EVENT * |RestOf(pc)| + Stage(pc)
  }

  predicate WithinSlots(st: State) {
    Sweeps(st.epoll) ==> Live(st, st.epoll.sid) && |st.sessions[st.epoll.sid].value.slots| == CLIENTMAX
  }

  lemma ServiceAdvances(st: State, ch: Choice)
    requires EpollEffect(st, ch).Some? && !Deletes(st.epoll) && !st.epoll.Idle? && !st.epoll.Poll?
    ensures var pc := EpollEffect(st, ch).value.epoll; pc.Idle? || StepsAhead(pc) < StepsAhead(st.epoll)
  {
    hide Reportable, IsWatched, HasSlot;
  }

  lemma DeletionAdvances(st: State, ch: Choice)
    requires EpollEffect(st, ch).Some? && Deletes(st.epoll) && !Sweeps(st.epoll)
    ensures var pc := EpollEffect(st, ch).value.epoll; !pc.Poll? && StepsAhead(pc) < StepsAhead(st.epoll)
  {
  }

  lemma SweepAdvances(st: State, ch: Choice)
    requires EpollEffect(st, ch).Some? && Sweeps(st.epoll) && WithinSlots(st)
    requires st.epoll.Sweep? || st.epoll.i < CLIENTMAX
    ensures var pc := EpollEffect(st, ch).value.epoll; !pc.Poll? && StepsAhead(pc) < StepsAhead(st.epoll)
  {
  }

  lemma SweepIsWithin(st: State)
    requires TableOk(st) && EpollOk(st) && Sweeps(st.epoll)
    ensures WithinSlots(st) && (st.epoll.Sweep? || st.epoll.i < CLIENTMAX)
  {
    hide SweptTo;
  }

  /** Whatever it finds, and however many sessions it deletes on the way, each step brings the epoll thread nearer to
      the next `epoll_wait`. */
  lemma EpollComesBack(init: State, schedule: seq<(Tid, Choice)>, ch: Choice)
    requires Initial(init) && Run(init, schedule).Some? && Enabled(Run(init, schedule).value, Epoll)
    requires var pc := Run(init, schedule).value.epoll; !pc.Idle? && !pc.Poll?
    ensures var st := Run(init, schedule).value;
            && StepOn(st, Epoll, ch).Some?
            && var pc := StepOn(st, Epoll, ch).value.epoll;
            pc.Idle? || (!pc.Poll? && StepsAhead(pc) < StepsAhead(st.epoll))
  {
    var st := Run(init, schedule).value;
    InvAlways(init, schedule);
    hide Run, EpollEffect, StepsAhead;
    EpollAdvances(st, ch);
  }

  lemma EpollAdvances(st: State, ch: Choice)
    requires Inv(st) && Enabled(st, Epoll) && !st.epoll.Idle? && !st.epoll.Poll?
    ensures EpollEffect(st, ch).Some?
    ensures var pc := EpollEffect(st, ch).value.epoll;
            pc.Idle? || (!pc.Poll? && StepsAhead(pc) < StepsAhead(st.epoll))
  {
    hide LocksOk, TableOk, HandsOk, CountsOk, SumOk, FreedOk, PendingOk, ClientsOk, EpollOk;
    hide EpollEffect, StepsAhead, Enabled;
    EpollKeepsInv(st, ch);
    if Sweeps(st.epoll) {
      SweepIsWithin(st);
      SweepAdvances(st, ch);
    } else if Deletes(st.epoll) {
      DeletionAdvances(st, ch);
    } else {
      ServiceAdvances(st, ch);
      ServiceDoesNotPoll(st, ch);
    }
  }

  lemma ServiceDoesNotPoll(st: State, ch: Choice)
    requires EpollEffect(st, ch).Some? && !Deletes(st.epoll) && !st.epoll.Idle?
    ensures !EpollEffect(st, ch).value.epoll.Poll?
  {
    hide Reportable, IsWatched, HasSlot;
  }

  // ---------------------------------------------------------------- the media threads

  /** The slots that a callback has still to look at. */
  function Ahead(count: int, i: nat): nat {
    if i < count then count - i else 0
  }

  function MediaSteps(s: Session): nat {
    match s.media
    case Exit => 0
    case Loop => 1
    case Unlock => 2
    case Visit(i) => 3 + 3 * Ahead(s.count, i)
    case WantList(i) => 3 + 3 * Ahead(s.count, i) - 1
    case Store(i) => 3 + 3 * Ahead(s.count, i) - 2
    case WantLock => 4 + 3 * Ahead(s.count, 0)
  }

  /** As long as it plays, the thread calls back exactly when there is a packet. */
  lemma CallsBack(s: Session, ch: Choice)
    requires s.run && s.media == Loop
    ensures NextMedia(s, ch) == Some(WantLock) <==> ch.flag
    ensures NextMedia(s, ch) == Some(Loop) <==> !ch.flag
  {
  }

  /** A slot that the thread is about to store into is below the count. */
  predicate InBounds(s: Session) {
    (s.media.WantList? || s.media.Store?) ==> s.media.i < s.count
  }

  /** A media thread that has been told to stop comes nearer to its end with every step, as long as nobody changes the
      count; which nobody does while it is in its callback. */
  lemma MediaEnds(s: Session, ch: Choice)
    requires !s.run && s.media != Exit && InBounds(s) && NextMedia(s, ch).Some?
    ensures var s' := s.(media := NextMedia(s, ch).value); InBounds(s') && MediaSteps(s') < MediaSteps(s)
  {
  }

  /** The slots into whose rings the callback stores, from where the thread is to the end of the loop. */
  function Stored(s: Session): seq<nat>
    requires InBounds(s) && s.count <= |s.slots|
    decreases MediaSteps(s)
  {
    match s.media
    case Visit(i) => VisitGoesOn(s); Stored(s.(media := NextMedia(s, Choice([], false)).value))
    case WantList(i) => Stored(s.(media := NextMedia(s, Choice([], false)).value))
    case Store(i) => [i] + Stored(s.(media := NextMedia(s, Choice([], false)).value))
    case _ => []
  }

  lemma VisitGoesOn(s: Session)
    requires s.media.Visit? && s.count <= |s.slots|
    ensures forall ch :: NextMedia(s, ch).Some?
    ensures forall ch :: var s' := s.(media := NextMedia(s, ch).value); InBounds(s') && MediaSteps(s') < MediaSteps(s)
  {
  }

  function TakenFrom(s: Session, i: nat): seq<nat>
    decreases |s.slots| - i
  {
    if i >= s.count || i >= |s.slots| then []
    else (if s.slots[i] != Free then [i] else []) + TakenFrom(s, i + 1)
  }

  lemma {:induction false} StoresTaken(s: Session, i: nat)
    requires s.media == Visit(i) && s.count <= |s.slots|
    ensures Stored(s) == TakenFrom(s, i)
    decreases |s.slots| - i
  {
    VisitGoesOn(s);
    if i < s.count {
      var ch := Choice([], false);
      var s1 := s.(media := NextMedia(s, ch).value);
      StoresTaken(s.(media := Visit(i + 1)), i + 1);
      assert TakenFrom(s.(media := Visit(i + 1)), i + 1) == TakenFrom(s, i + 1) by {
        SameTakenFrom(s, Visit(i + 1), i + 1);
      }
      if s.slots[i] != Free {
        var s2 := s1.(media := NextMedia(s1, ch).value);
        assert s1.media == WantList(i) && s2.media == Store(i);
        assert s2.(media := NextMedia(s2, ch).value) == s.(media := Visit(i + 1));
        assert Stored(s2) == [i] + Stored(s.(media := Visit(i + 1)));
        assert Stored(s) == Stored(s1) == Stored(s2);
      }
    }
  }

  lemma {:induction false} SameTakenFrom(s: Session, pc: MediaPc, i: nat)
    ensures TakenFrom(s.(media := pc), i) == TakenFrom(s, i)
    decreases |s.slots| - i
  {
    if i < s.count && i < |s.slots| {
      SameTakenFrom(s, pc, i + 1);
    }
  }

  lemma {:induction false} TakenFromIs(s: Session, i: nat)
    ensures forall j: nat :: j in TakenFrom(s, i) <==> i <= j < s.count && j < |s.slots| && s.slots[j] != Free
    ensures forall a, b :: 0 <= a < b < |TakenFrom(s, i)| ==> TakenFrom(s, i)[a] < TakenFrom(s, i)[b]
    decreases |s.slots| - i
  {
    if i < s.count && i < |s.slots| {
      TakenFromIs(s, i + 1);
      var rest := TakenFrom(s, i + 1);
      assert forall a :: 0 <= a < |rest| ==> rest[a] in rest;
    }
  }

  /** A callback stores into the ring of every taken slot below the count, of each once and upwards, and of no other. */
  lemma CallbackStores(s: Session)
    requires s.media == Visit(0) && s.count <= |s.slots|
    ensures forall j: nat :: j in Stored(s) <==> j < s.count && s.slots[j] != Free
    ensures forall a, b :: 0 <= a < b < |Stored(s)| ==> Stored(s)[a] < Stored(s)[b]
  {
    StoresTaken(s, 0);
    TakenFromIs(s, 0);
  }

  // ---------------------------------------------------------------- the client threads

  function ClientSteps(pc: ClientPc): nat {
    match pc
    case Done => 0
    case AddOne => 1
    case WantSum => 2
    case UnlockTable => 3
    case UnlockMut(_) => 4
    case Register(_, _) => 5
    case WantEpoll(_, _) => 6
    case Describe(_, _) => 7
    case CountUp(_, _) => 8
    case Fill(_, _) => 9
    case RejectTable => 1
    case RejectMut(_) => 2
    case Pick(_) => 10
    case WantMut(_) => 11
    case WantNew(_) => 10
    case Create(_) => 11
    case WantTable(_) => 12
    case NotFound(_) => 13
    case Scan => 14
    case Start => 15
  }

  /** A client's thread ends after at most fifteen steps. */
  lemma ClientAdvances(st: State, k: nat)
    requires k < |st.clients| && st.clients[k].pc != Done && ClientEffect(st, k).Some?
    ensures ClientSteps(ClientEffect(st, k).value.clients[k].pc) < ClientSteps(st.clients[k].pc) <= 15
  {
    hide Dangling, Find, FirstEmpty, LowestFree;
  }
}
