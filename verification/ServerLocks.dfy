/** Mutual exclusion, the order of the locks, and freedom from deadlock. */
module ServerLocks {
  import opened Bytes
  import opened Server

  // ---------------------------------------------------------------- the locks a thread holds

  function ClientHolds(pc: ClientPc): set<Lock> {
    match pc
    case Scan => {MutSession}
    case WantMut(_) => {MutSession}
    case Pick(sid) => {MutSession, Mut(sid)}
    case RejectMut(sid) => {MutSession, Mut(sid)}
    case RejectTable => {MutSession}
    case NotFound(_) => {MutSession}
    case Create(_) => {MutSession}
    case WantNew(_) => {MutSession}
    case Fill(sid, _) => {MutSession, Mut(sid)}
    case CountUp(sid, _) => {MutSession, Mut(sid)}
    case Describe(sid, _) => {MutSession, Mut(sid)}
    case WantEpoll(sid, _) => {MutSession, Mut(sid)}
    case Register(sid, _) => {MutSession, Mut(sid), MutEpoll}
    case UnlockMut(sid) => {MutSession, Mut(sid)}
    case UnlockTable => {MutSession}
    case AddOne => {MutClientCount}
    case _ => {}
  }

  function EpollHolds(pc: EpollPc): set<Lock> {
    match pc
    case Poll => {MutEpoll}
    case WantQueue(e, _) => {Mut(e.sid)}
    case Taking(e, _) => {Mut(e.sid), MutList(e.sid, e.slot)}
    case Took(e, _, _) => {Mut(e.sid)}
    case Forget(_, _) => {MutEpoll}
    case Clear(e, _) => {Mut(e.sid)}
    case CountDown(e, _) => {Mut(e.sid)}
    case Cleared(e, _, _) => {Mut(e.sid)}
    case DropOne(_, _, _) => {MutClientCount}
    case Check(_, _, _) => {MutSession}
    case WantSweep(_, _, _) => {MutSession}
    case Sweep(_, sid, _, _, _) => {MutSession, Mut(sid)}
    case WantSweepDel(_, sid, _, _, _) => {MutSession, Mut(sid)}
    case SweepDel(_, sid, _, _, _) => {MutSession, Mut(sid), MutEpoll}
    case SweepClear(_, sid, _, _, _) => {MutSession, Mut(sid)}
    case Release(_, sid, _, _) => {MutSession, Mut(sid)}
    case FreeSession(_, _, _, _) => {MutSession}
    case Freed(_, _) => {MutSession}
    case DropAll(_, _) => {MutClientCount}
    case _ => {}
  }

  function MediaHolds(sid: nat, pc: MediaPc): set<Lock> {
    match pc
    case Visit(_) => {Mut(sid)}
    case WantList(_) => {Mut(sid)}
    case Store(i) => {Mut(sid), MutList(sid, i)}
    case Unlock => {Mut(sid)}
    case _ => {}
  }

  function Holds(st: State, t: Tid): set<Lock> {
    match t
    case Client(k) => if k < |st.clients| then ClientHolds(st.clients[k].pc) else {}
    case Epoll => EpollHolds(st.epoll)
    case Media(sid) => if Live(st, sid) then MediaHolds(sid, st.sessions[sid].value.media) else {}
  }

  /** Every lock that a thread holds is its own alone, and every owned lock is held by its owner. */
  ghost predicate LocksOk(st: State) {
    && (forall t: Tid, l: Lock :: l in Holds(st, t) ==> l in st.owner && st.owner[l] == t)
    && (forall l: Lock :: l in st.owner ==> l in Holds(st, st.owner[l]))
  }

  function HoldsAfter(held: set<Lock>, a: Action): set<Lock> {
    match a
    case Acquire(l) => held + {l}
    case Unlocks(l) => held - {l}
    case _ => held
  }

  // ---------------------------------------------------------------- the order of the locks

  function Rank(l: Lock): nat {
    match l
    case MutSession => 1
    case Mut(_) => 2
    case _ => 3
  }

  /** Joining comes before every lock; a thread that does not wait for a lock comes last. */
  function ActionRank(a: Action): nat {
    match a
    case Join(_) => 0
    case Acquire(l) => Rank(l)
    case _ => 4
  }

  /** A thread asks for a lock only above every lock it holds, joins only while it holds none, gives up
      only what it holds, and has nothing left when it ends. */
  lemma AsksInOrder(st: State, t: Tid)
    ensures forall l :: l in Holds(st, t) ==> Rank(l) < ActionRank(ActionOf(st, t))
    ensures ActionOf(st, t).Unlocks? ==> ActionOf(st, t).l in Holds(st, t)
    ensures ActionOf(st, t).Finished? ==> Holds(st, t) == {}
    ensures ActionOf(st, t).Join? ==> t == Epoll
  {
  }

  // ---------------------------------------------------------------- mutual exclusion

  function MediaPcOf(st: State, sid: nat): MediaPc {
    if Live(st, sid) then st.sessions[sid].value.media else Exit
  }

  /** The media threads hold the same locks in both states. */
  ghost predicate SameMedia(st: State, st': State) {
    forall sid: nat :: MediaHolds(sid, MediaPcOf(st', sid)) == MediaHolds(sid, MediaPcOf(st, sid))
  }

  /** The client has not found its slot yet. */
  predicate Searches(pc: ClientPc) {
    pc.Start? || pc.Scan? || pc.WantMut? || pc.Pick? || pc.RejectMut? || pc.RejectTable? || pc.NotFound?
    || pc.WantTable? || pc.Create? || pc.WantNew?
  }

  lemma SearchHoldsAfter(st: State, k: nat)
    requires k < |st.clients| && ClientEffect(st, k).Some?
    requires Searches(st.clients[k].pc)
    ensures var st' := ClientEffect(st, k).value;
            && |st'.clients| == |st.clients| && st'.epoll == st.epoll
            && ClientHolds(st'.clients[k].pc) == HoldsAfter(ClientHolds(st.clients[k].pc), ClientAction(st.clients[k].pc))
            && forall j :: 0 <= j < |st.clients| && j != k ==> st'.clients[j] == st.clients[j]
  {
    hide LowestFree, Find, FirstEmpty, Dangling;
  }

  lemma JoinHoldsAfter(st: State, k: nat)
    requires k < |st.clients| && ClientEffect(st, k).Some?
    requires !Searches(st.clients[k].pc)
    ensures var st' := ClientEffect(st, k).value;
            && |st'.clients| == |st.clients| && st'.epoll == st.epoll
            && ClientHolds(st'.clients[k].pc) == HoldsAfter(ClientHolds(st.clients[k].pc), ClientAction(st.clients[k].pc))
            && forall j :: 0 <= j < |st.clients| && j != k ==> st'.clients[j] == st.clients[j]
  {
    hide LowestFree, Find, FirstEmpty, Dangling;
  }

  lemma ClientHoldsAfter(st: State, k: nat)
    requires k < |st.clients| && ClientEffect(st, k).Some?
    ensures var st' := ClientEffect(st, k).value;
            && |st'.clients| == |st.clients| && st'.epoll == st.epoll
            && ClientHolds(st'.clients[k].pc) == HoldsAfter(ClientHolds(st.clients[k].pc), ClientAction(st.clients[k].pc))
            && forall j :: 0 <= j < |st.clients| && j != k ==> st'.clients[j] == st.clients[j]
  {
    hide ClientEffect, EpollEffect;
    if Searches(st.clients[k].pc) {
      SearchHoldsAfter(st, k);
    } else {
      JoinHoldsAfter(st, k);
    }
  }

  lemma ClientKeepsMedia(st: State, k: nat)
    requires k < |st.clients| && ClientEffect(st, k).Some?
    ensures SameMedia(st, ClientEffect(st, k).value)
  {
    hide ClientHolds, EpollHolds, LowestFree, Find, FirstEmpty;
  }

  lemma EpollHoldsAfter(st: State, ch: Choice)
    requires EpollEffect(st, ch).Some?
    ensures var st' := EpollEffect(st, ch).value;
            st'.clients == st.clients && EpollHolds(st'.epoll) == HoldsAfter(EpollHolds(st.epoll), EpollAction(st.epoll))
  {
    hide EpollEffect;
    if Sweeps(st.epoll) {
      SweepHoldsAfter(st, ch);
    } else if Deletes(st.epoll) {
      DeletionHoldsAfter(st, ch);
    } else {
      ServiceHoldsAfter(st, ch);
    }
  }

  /** The epoll thread is in `delSession`. */
  predicate Deletes(pc: EpollPc) {
    pc.Stop? || pc.Await? || pc.WantDelete? || pc.Check? || pc.WantSweep? || pc.Sweep? || pc.WantSweepDel?
    || pc.SweepDel? || pc.SweepClear? || pc.Release? || pc.FreeSession? || pc.Freed? || pc.WantDropAll? || pc.DropAll?
  }

  lemma ServiceHoldsAfter(st: State, ch: Choice)
    requires EpollEffect(st, ch).Some? && !Deletes(st.epoll)
    ensures var st' := EpollEffect(st, ch).value;
            st'.clients == st.clients && EpollHolds(st'.epoll) == HoldsAfter(EpollHolds(st.epoll), EpollAction(st.epoll))
  {
    hide Reportable;
  }

  /** The epoll thread is in the loop of `delSession` over the slots. */
  predicate Sweeps(pc: EpollPc) {
    pc.Sweep? || pc.WantSweepDel? || pc.SweepDel? || pc.SweepClear?
  }

  lemma SweepHoldsAfter(st: State, ch: Choice)
    requires EpollEffect(st, ch).Some? && Sweeps(st.epoll)
    ensures var st' := EpollEffect(st, ch).value;
            st'.clients == st.clients && EpollHolds(st'.epoll) == HoldsAfter(EpollHolds(st.epoll), EpollAction(st.epoll))
  {
    hide Reportable;
  }

  lemma DeletionHoldsAfter(st: State, ch: Choice)
    requires EpollEffect(st, ch).Some? && Deletes(st.epoll) && !Sweeps(st.epoll)
    ensures var st' := EpollEffect(st, ch).value;
            st'.clients == st.clients && EpollHolds(st'.epoll) == HoldsAfter(EpollHolds(st.epoll), EpollAction(st.epoll))
  {
    hide Reportable;
  }

  lemma SweepKeepsMedia(st: State, ch: Choice)
    requires EpollEffect(st, ch).Some? && Sweeps(st.epoll)
    ensures SameMedia(st, EpollEffect(st, ch).value)
  {
    hide ClientHolds, EpollHolds, Reportable;
  }

  lemma DeletionKeepsMedia(st: State, ch: Choice)
    requires EpollEffect(st, ch).Some? && FreesQuietly(st)
    requires Deletes(st.epoll) && !Sweeps(st.epoll)
    ensures SameMedia(st, EpollEffect(st, ch).value)
  {
    hide ClientHolds, EpollHolds, Reportable;
  }

  lemma ServiceKeepsMedia(st: State, ch: Choice)
    requires EpollEffect(st, ch).Some? && FreesQuietly(st)
    requires !Deletes(st.epoll)
    ensures SameMedia(st, EpollEffect(st, ch).value)
  {
    hide ClientHolds, EpollHolds, Reportable;
  }

  lemma EpollKeepsMedia(st: State, ch: Choice)
    requires EpollEffect(st, ch).Some? && FreesQuietly(st)
    ensures SameMedia(st, EpollEffect(st, ch).value)
  {
    hide ClientEffect, EpollEffect;
    if Sweeps(st.epoll) {
      SweepKeepsMedia(st, ch);
    } else if Deletes(st.epoll) {
      DeletionKeepsMedia(st, ch);
    } else {
      ServiceKeepsMedia(st, ch);
    }
  }

  lemma MediaHoldsAfter(st: State, sid: nat, ch: Choice)
    requires Live(st, sid) && MediaEffect(st, sid, ch).Some?
    ensures var st' := MediaEffect(st, sid, ch).value;
            && st'.clients == st.clients && st'.epoll == st.epoll
            && MediaHolds(sid, MediaPcOf(st', sid))
               == HoldsAfter(MediaHolds(sid, MediaPcOf(st, sid)), MediaAction(sid, MediaPcOf(st, sid)))
            && forall other: nat :: other != sid ==> MediaPcOf(st', other) == MediaPcOf(st, other)
  {
  }

  /** A session is freed only after its media thread has ended. */
  predicate FreesQuietly(st: State) {
    st.epoll.FreeSession? && Live(st, st.epoll.sid) ==> st.sessions[st.epoll.sid].value.media == Exit
  }

  lemma HoldsAfterStep(st: State, t: Tid, ch: Choice)
    requires Enabled(st, t) && StepOn(st, t, ch).Some? && FreesQuietly(st)
    ensures var st' := StepOn(st, t, ch).value;
            && (forall u :: u != t ==> Holds(st', u) == Holds(st, u))
            && Holds(st', t) == HoldsAfter(Holds(st, t), ActionOf(st, t))
  {
    hide ClientEffect, EpollEffect, MediaEffect, ClientHolds, EpollHolds, MediaHolds;
    match t {
      case Client(k) =>
        ClientHoldsAfter(st, k);
        ClientKeepsMedia(st, k);
      case Epoll =>
        EpollHoldsAfter(st, ch);
        EpollKeepsMedia(st, ch);
      case Media(sid) =>
        MediaHoldsAfter(st, sid, ch);
    }
    MediaIsPc(st);
    MediaIsPc(Effect(st, t, ch).value);
  }

  lemma MediaIsPc(st: State)
    ensures forall sid: nat :: Holds(st, Media(sid)) == MediaHolds(sid, MediaPcOf(st, sid))
  {
    forall sid: nat
      ensures Holds(st, Media(sid)) == MediaHolds(sid, MediaPcOf(st, sid))
    {
      assert Live(st, sid) || MediaHolds(sid, Exit) == {};
    }
  }

  lemma OwnersKept(st: State, st': State, t: Tid)
    requires LocksOk(st) && Enabled(st, t) && st'.owner == Owners(st, t)
    requires ActionOf(st, t).Unlocks? ==> ActionOf(st, t).l in Holds(st, t)
    requires forall u :: u != t ==> Holds(st', u) == Holds(st, u)
    requires Holds(st', t) == HoldsAfter(Holds(st, t), ActionOf(st, t))
    ensures LocksOk(st')
  {
    hide ActionOf, Holds;
    forall u: Tid, l: Lock | l in Holds(st', u)
      ensures l in st'.owner && st'.owner[l] == u
    {
      match ActionOf(st, t)
      case Acquire(m) => assert l == m || l in Holds(st, u);
      case Unlocks(m) =>
        assert l in Holds(st, u);
        assert st.owner[m] == t;
        assert l != m;
        assert l in st'.owner;
      case _ => assert l in Holds(st, u);
    }
    forall l: Lock | l in st'.owner
      ensures l in Holds(st', st'.owner[l])
    {
      assert l in st.owner || ActionOf(st, t) == Acquire(l);
      var u := st'.owner[l];
      assert l in Holds(st, u) || ActionOf(st, t) == Acquire(l);
      assert u == t || Holds(st', u) == Holds(st, u);
    }
  }

  lemma LocksKept(st: State, t: Tid, ch: Choice)
    requires LocksOk(st) && Enabled(st, t) && StepOn(st, t, ch).Some? && FreesQuietly(st)
    ensures LocksOk(StepOn(st, t, ch).value)
  {
    hide Effect, Holds, ActionOf, Owners, Enabled, FreesQuietly, HoldsAfter, LocksOk;
    HoldsAfterStep(st, t, ch);
    AsksInOrder(st, t);
    OwnersKept(st, StepOn(st, t, ch).value, t);
  }

  // ---------------------------------------------------------------- freedom from deadlock

  /** The thread that t waits for: the owner of the lock it wants, or the media thread it joins. */
  function WaitsFor(st: State, t: Tid): Option<Tid> {
    match ActionOf(st, t)
    case Acquire(l) => if l in st.owner then Some(st.owner[l]) else None
    case Join(sid) => if Enabled(st, t) then None else Some(Media(sid))
    case _ => None
  }

  /** The thread waited for is not finished, and it asks for something above what it is waited for. */
  lemma WaitsUpwards(st: State, t: Tid)
    requires LocksOk(st) && WaitsFor(st, t).Some?
    ensures var u := WaitsFor(st, t).value;
            ActionRank(ActionOf(st, t)) < ActionRank(ActionOf(st, u)) && ActionOf(st, u) != Finished
  {
    AsksInOrder(st, t);
    AsksInOrder(st, WaitsFor(st, t).value);
  }

  /** t, the thread it waits for, the thread that one waits for, and so on to the end. */
  ghost function WaitChain(st: State, t: Tid): (chain: seq<Tid>)
    requires LocksOk(st) && ActionOf(st, t) != Finished
    ensures 0 < |chain| <= 5 - ActionRank(ActionOf(st, t)) && chain[0] == t
    ensures forall i :: 0 <= i < |chain| - 1 ==> WaitsFor(st, chain[i]) == Some(chain[i + 1])
    ensures WaitsFor(st, chain[|chain| - 1]) == None && ActionOf(st, chain[|chain| - 1]) != Finished
    decreases 4 - ActionRank(ActionOf(st, t))
  {
    if WaitsFor(st, t) == None then [t]
    else
      WaitsUpwards(st, t);
      [t] + WaitChain(st, WaitsFor(st, t).value)
  }
}
