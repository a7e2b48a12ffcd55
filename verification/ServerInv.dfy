/** What every step of the server keeps: sessions and slots are there when a thread uses them, each session's
    count is the number of its taken slots, and the client total is the sum of them. */
module ServerInv {
  import opened Bytes
  import opened Server
  import Slots
  import opened ServerLocks

  // ---------------------------------------------------------------- the invariant

  /** The table and the live sessions point at each other. */
  ghost predicate TableOk(st: State) {
    && (forall i :: 0 <= i < |st.table| && st.table[i].Some? ==> Live(st, st.table[i].value))
    && (forall i :: 0 <= i < |st.table| && st.table[i].Some? ==> st.sessions[st.table[i].value].value.pos == i)
    && (forall sid: nat :: Live(st, sid) ==> InTable(st, sid))
    && (forall sid: nat :: Live(st, sid) ==> |st.sessions[sid].value.slots| == CLIENTMAX)
  }

  ghost predicate InTable(st: State, sid: nat)
    requires Live(st, sid)
  {
    var pos := st.sessions[sid].value.pos;
    pos < |st.table| && st.table[pos] == Some(sid)
  }

  /** What a client thread relies on. */
  ghost predicate ClientOk(st: State, k: nat)
    requires k < |st.clients|
  {
    match st.clients[k].pc
    case WantMut(sid) => Live(st, sid)
    case Pick(sid) => Live(st, sid)
    case WantNew(sid) => HasSlot(st, Entry(sid, 0)) && SlotOf(st, Entry(sid, 0)) == Free
    case Fill(sid, slot) => HasSlot(st, Entry(sid, slot)) && SlotOf(st, Entry(sid, slot)) == Free
    case CountUp(sid, slot) => IsJoining(st, Entry(sid, slot))
    case Describe(sid, slot) => IsJoining(st, Entry(sid, slot))
    case WantEpoll(sid, slot) => IsJoining(st, Entry(sid, slot))
    case Register(sid, slot) => IsJoining(st, Entry(sid, slot))
    case _ => true
  }

  ghost predicate IsJoining(st: State, e: Entry) {
    HasSlot(st, e) && SlotOf(st, e).Joining?
  }

  ghost predicate IsLeaving(st: State, e: Entry) {
    HasSlot(st, e) && SlotOf(st, e).Leaving?
  }

  ghost predicate ClientsOk(st: State) {
    forall k :: 0 <= k < |st.clients| ==> ClientOk(st, k)
  }

  /** A slot on its way in or out is in the hands of the thread that moves it. */
  ghost predicate HandsOk(st: State) {
    && (forall e :: IsJoining(st, e) ==> JoinedBy(st, e, SlotOf(st, e).thread))
    && (forall e :: IsLeaving(st, e) ==> LeftBy(st, e))
  }

  predicate JoinedBy(st: State, e: Entry, k: nat) {
    && k < |st.clients|
    && st.clients[k].pc in {CountUp(e.sid, e.slot), Describe(e.sid, e.slot), WantEpoll(e.sid, e.slot),
                            Register(e.sid, e.slot)}
  }

  predicate LeftBy(st: State, e: Entry) {
    match st.epoll
    case WantClear(f, _) => e == f
    case Clear(f, _) => e == f
    case SweepClear(_, sid, _, i, _) => e == Entry(sid, i)
    case _ => false
  }

  // what the epoll thread relies on

  function RestOf(pc: EpollPc): seq<Entry> {
    if pc.Idle? || pc.Poll? then [] else pc.rest
  }

  /** The events still to be handled, the one in hand included as long as its client is watched. */
  function Pending(pc: EpollPc): seq<Entry> {
    if pc.WantTake? || pc.WantQueue? || pc.Taking? || pc.Took? || pc.Send? || pc.WantForget? || pc.Forget?
    then [pc.e] + pc.rest
    else RestOf(pc)
  }

  ghost predicate PendingOk(st: State) {
    && (forall e <- Pending(st.epoll) :: IsWatched(st, e))
    && (forall i, j :: 0 <= i < j < |Pending(st.epoll)| ==> Pending(st.epoll)[i] != Pending(st.epoll)[j])
  }

  predicate Avoids(rest: seq<Entry>, sid: nat) {
    forall e <- rest :: e.sid != sid
  }

  /** The session that the epoll thread is deleting. */
  predicate Deleting(st: State, pos: nat, sid: nat, rest: seq<Entry>) {
    pos < |st.table| && st.table[pos] == Some(sid) && Live(st, sid) && Avoids(rest, sid)
  }

  predicate Quiet(st: State, sid: nat) {
    Live(st, sid) && st.sessions[sid].value.media == Exit
  }

  ghost predicate SweptTo(st: State, sid: nat, i: nat) {
    && Live(st, sid) && i <= |st.sessions[sid].value.slots|
    && forall j :: 0 <= j < i ==> st.sessions[sid].value.slots[j] == Free
  }

  ghost predicate EpollOk(st: State) {
    match st.epoll
    case WantClear(e, _) => IsLeaving(st, e)
    case Clear(e, _) => IsLeaving(st, e)
    case CountDown(e, _) => Live(st, e.sid)
    case Cleared(e, rest, left) => Live(st, e.sid) && (left == 0 ==> Avoids(rest, e.sid))
    case WantDrop(e, rest, left) => Live(st, e.sid) && (left == 0 ==> Avoids(rest, e.sid))
    case DropOne(e, rest, left) => Live(st, e.sid) && (left == 0 ==> Avoids(rest, e.sid))
    case Stop(pos, rest) => pos < |st.table| && st.table[pos].Some? && Deleting(st, pos, st.table[pos].value, rest)
    case Await(pos, sid, rest) => Deleting(st, pos, sid, rest)
    case WantDelete(pos, sid, rest) => Deleting(st, pos, sid, rest) && Quiet(st, sid)
    case Check(pos, sid, rest) => Deleting(st, pos, sid, rest) && Quiet(st, sid)
    case WantSweep(pos, sid, rest) => Deleting(st, pos, sid, rest) && Quiet(st, sid)
    case Sweep(pos, sid, rest, i, _) => Deleting(st, pos, sid, rest) && Quiet(st, sid) && SweptTo(st, sid, i)
    case WantSweepDel(pos, sid, rest, i, num) =>
      Deleting(st, pos, sid, rest) && Quiet(st, sid) && SweptTo(st, sid, i) && IsWatched(st, Entry(sid, i)) && num > 0
    case SweepDel(pos, sid, rest, i, num) =>
      Deleting(st, pos, sid, rest) && Quiet(st, sid) && SweptTo(st, sid, i) && IsWatched(st, Entry(sid, i)) && num > 0
    case SweepClear(pos, sid, rest, i, num) =>
      Deleting(st, pos, sid, rest) && Quiet(st, sid) && SweptTo(st, sid, i) && IsLeaving(st, Entry(sid, i)) && num > 0
    case Release(pos, sid, rest, _) => Deleting(st, pos, sid, rest) && Quiet(st, sid) && SweptTo(st, sid, CLIENTMAX)
    case FreeSession(pos, sid, rest, _) => Deleting(st, pos, sid, rest) && Quiet(st, sid) && SweptTo(st, sid, CLIENTMAX)
    case _ => true
  }

  // the counts

  /** The number of taken slots. */
  function Taken(slots: seq<Slot>): nat {
    Slots.Count(slots, IsFree)
  }

  function Total(sessions: seq<Option<Session>>): nat {
    if sessions == [] then 0
    else Total(sessions[..|sessions| - 1]) + TakenIn(sessions[|sessions| - 1])
  }

  function TakenIn(s: Option<Session>): nat {
    if s.Some? then Taken(s.value.slots) else 0
  }

  /** Client threads that have stored their socket in the session but not counted it yet. */
  function Uncounted(clients: seq<ClientThread>, sid: nat): nat {
    if clients == [] then 0
    else
      Uncounted(clients[..|clients| - 1], sid)
      + (var pc := clients[|clients| - 1].pc; if pc.CountUp? && pc.sid == sid then 1 else 0)
  }

  /** Clients in a slot whose thread has not added them to the total yet. */
  function Adds(clients: seq<ClientThread>): nat {
    if clients == [] then 0
    else Adds(clients[..|clients| - 1]) + AddsOne(clients[|clients| - 1].pc)
  }

  function AddsOne(pc: ClientPc): nat {
    if pc.CountUp? || pc.Describe? || pc.WantEpoll? || pc.Register? || pc.UnlockMut? || pc.UnlockTable?
       || pc.WantSum? || pc.AddOne?
    then 1 else 0
  }

  /** Clients that have left their slot but not the total yet. */
  function Drops(pc: EpollPc): int {
    match pc
    case CountDown(_, _) => 1
    case Cleared(_, _, _) => 1
    case WantDrop(_, _, _) => 1
    case DropOne(_, _, _) => 1
    case Sweep(_, _, _, _, num) => num
    case WantSweepDel(_, _, _, _, num) => num - 1
    case SweepDel(_, _, _, _, num) => num - 1
    case SweepClear(_, _, _, _, num) => num - 1
    case Release(_, _, _, num) => num
    case FreeSession(_, _, _, num) => num
    case Freed(_, num) => num
    case WantDropAll(_, num) => num
    case DropAll(_, num) => num
    case _ => 0
  }

  predicate BeingSwept(pc: EpollPc, sid: nat) {
    (pc.Sweep? || pc.WantSweepDel? || pc.SweepDel? || pc.SweepClear? || pc.Release? || pc.FreeSession?) && pc.sid == sid
  }

  ghost predicate CountOk(st: State, sid: nat)
    requires Live(st, sid)
  {
    BeingSwept(st.epoll, sid) ||
    Taken(st.sessions[sid].value.slots) + (if st.epoll.CountDown? && st.epoll.e.sid == sid then 1 else 0)
      == st.sessions[sid].value.count + Uncounted(st.clients, sid)
  }

  ghost predicate CountsOk(st: State) {
    forall sid: nat :: Live(st, sid) ==> CountOk(st, sid)
  }

  ghost predicate SumOk(st: State) {
    st.sum + Adds(st.clients) - Drops(st.epoll) == Total(st.sessions)
  }

  // the media contexts

  /** The epoll thread has freed the media context of the session that it is deleting. */
  predicate PastMedia(pc: EpollPc, sid: nat) {
    (pc.WantDelete? || pc.Check? || pc.WantSweep? || BeingSwept(pc, sid)) && pc.sid == sid
  }

  /** Only a session that is being deleted points to a freed media context. */
  ghost predicate FreedOk(st: State) {
    forall sid: nat :: Live(st, sid) ==> (st.sessions[sid].value.freed <==> PastMedia(st.epoll, sid))
  }

  /** All but the locks. */
  ghost predicate Sound(st: State) {
    && TableOk(st) && ClientsOk(st) && HandsOk(st) && PendingOk(st) && EpollOk(st) && CountsOk(st) && SumOk(st)
    && FreedOk(st)
  }

  ghost predicate Inv(st: State) {
    LocksOk(st) && Sound(st)
  }
}
