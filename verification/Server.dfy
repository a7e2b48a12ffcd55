/** The threads of the server as interleaved atomic steps: any number of client threads in `addClient`, the
    epoll thread in `epollLoop` and `delSession`, and one media thread in each session. A thread does at most
    one thing that another thread can see in a step; an unlock may come with the last thing done under the lock. */
module Server {
  import opened Bytes
  import Slots

  const CLIENTMAX := 1024
  const FILEMAX := 1024

  // ---------------------------------------------------------------- the state

  /** A slot of a session, free when its `sd` is -1. A taken slot is on its way in (client thread `thread` has not
      put it in the epoll set yet), watched by epoll, or on its way out (in the epoll set no more). */
  datatype Slot = Free | Joining(sd: int, thread: nat) | Watched(sd: int) | Leaving(sd: int)

  datatype MediaPc =
    | Loop                   // at the test of the run flag
    | WantLock               // mediaCallBack: before locking the session
    | Visit(i: nat)          // about to look at slot i
    | WantList(i: nat)
    | Store(i: nat)          // in sendData, with the slot's list locked
    | Unlock
    | Exit

  /** `run` is the flag of the session's media context, `media` the place of its thread, and `freed` says that the
      context has been given back, though the session still points to it. */
  datatype Session = Session(pos: nat, filename: string, slots: seq<Slot>, count: int, run: bool, media: MediaPc,
                             freed: bool)

  datatype ClientPc =
    | Start
    | Scan                              // holds the table
    | WantMut(sid: nat)                 // found its session
    | Pick(sid: nat)
    | RejectMut(sid: nat) | RejectTable // no free slot
    | NotFound(pos: nat)                // no such session; pos was the first free entry of the table
    | WantTable(pos: nat)
    | Create(pos: nat)
    | WantNew(sid: nat)
    | Fill(sid: nat, slot: nat)         // about to store its socket
    | CountUp(sid: nat, slot: nat)      // about to increment the session's count
    | Describe(sid: nat, slot: nat)     // about to ask the media context for the audio type
    | WantEpoll(sid: nat, slot: nat)
    | Register(sid: nat, slot: nat)
    | UnlockMut(sid: nat) | UnlockTable
    | WantSum | AddOne
    | Done

  datatype ClientThread = ClientThread(path: string, sock: int, pc: ClientPc)

  /** A client as the epoll set refers to it. */
  datatype Entry = Entry(sid: nat, slot: nat)

  datatype EpollPc =
    | Idle
    | Poll                                                  // in epoll_wait, with the epoll lock
    | Batch(rest: seq<Entry>)                               // the events still to be handled
    | WantTake(e: Entry, rest: seq<Entry>)
    | WantQueue(e: Entry, rest: seq<Entry>)
    | Taking(e: Entry, rest: seq<Entry>)
    | Took(e: Entry, rest: seq<Entry>, data: bool)
    | Send(e: Entry, rest: seq<Entry>)                      // asks the media context for the codecs, and sends
    | WantForget(e: Entry, rest: seq<Entry>)                // the send failed: eventDel
    | Forget(e: Entry, rest: seq<Entry>)
    | WantClear(e: Entry, rest: seq<Entry>)
    | Clear(e: Entry, rest: seq<Entry>)
    | CountDown(e: Entry, rest: seq<Entry>)
    | Cleared(e: Entry, rest: seq<Entry>, left: int)
    | WantDrop(e: Entry, rest: seq<Entry>, left: int)
    | DropOne(e: Entry, rest: seq<Entry>, left: int)
    | Stop(pos: nat, rest: seq<Entry>)                      // delSession(pos)
    | Await(pos: nat, sid: nat, rest: seq<Entry>)           // joining the media thread, then freeing its context
    | WantDelete(pos: nat, sid: nat, rest: seq<Entry>)
    | Check(pos: nat, sid: nat, rest: seq<Entry>)
    | WantSweep(pos: nat, sid: nat, rest: seq<Entry>)
    | Sweep(pos: nat, sid: nat, rest: seq<Entry>, i: nat, num: nat)
    | WantSweepDel(pos: nat, sid: nat, rest: seq<Entry>, i: nat, num: nat)
    | SweepDel(pos: nat, sid: nat, rest: seq<Entry>, i: nat, num: nat)
    | SweepClear(pos: nat, sid: nat, rest: seq<Entry>, i: nat, num: nat)
    | Release(pos: nat, sid: nat, rest: seq<Entry>, num: nat)
    | FreeSession(pos: nat, sid: nat, rest: seq<Entry>, num: nat)
    | Freed(rest: seq<Entry>, num: nat)
    | WantDropAll(rest: seq<Entry>, num: nat)
    | DropAll(rest: seq<Entry>, num: nat)

  datatype Lock = MutSession | Mut(sid: nat) | MutList(sid: nat, slot: nat) | MutEpoll | MutClientCount

  datatype Tid = Client(k: nat) | Epoll | Media(sid: nat)

  /** Sessions get numbers in the order of their creation; a freed session is None. */
  datatype State = State(table: seq<Option<nat>>, sessions: seq<Option<Session>>, sum: int,
                         clients: seq<ClientThread>, epoll: EpollPc, owner: map<Lock, Tid>)

  predicate Live(st: State, sid: nat) {
    sid < |st.sessions| && st.sessions[sid].Some?
  }

  predicate HasSlot(st: State, e: Entry) {
    Live(st, e.sid) && e.slot < |st.sessions[e.sid].value.slots|
  }

  function SlotOf(st: State, e: Entry): Slot
    requires HasSlot(st, e)
  {
    st.sessions[e.sid].value.slots[e.slot]
  }

  predicate IsWatched(st: State, e: Entry) {
    HasSlot(st, e) && SlotOf(st, e).Watched?
  }

  // ---------------------------------------------------------------- what a thread does next

  datatype Action = Acquire(l: Lock) | Unlocks(l: Lock) | Local | Join(sid: nat) | Finished

  function ClientAction(pc: ClientPc): Action {
    match pc
    case Start => Acquire(MutSession)
    case WantMut(sid) => Acquire(Mut(sid))
    case RejectMut(sid) => Unlocks(Mut(sid))
    case RejectTable => Unlocks(MutSession)
    case NotFound(_) => Unlocks(MutSession)
    case WantTable(_) => Acquire(MutSession)
    case WantNew(sid) => Acquire(Mut(sid))
    case WantEpoll(_, _) => Acquire(MutEpoll)
    case Register(_, _) => Unlocks(MutEpoll)
    case UnlockMut(sid) => Unlocks(Mut(sid))
    case UnlockTable => Unlocks(MutSession)
    case WantSum => Acquire(MutClientCount)
    case AddOne => Unlocks(MutClientCount)
    case Done => Finished
    case _ => Local
  }

  function EpollAction(pc: EpollPc): Action {
    match pc
    case Idle => Acquire(MutEpoll)
    case Poll => Unlocks(MutEpoll)
    case WantTake(e, _) => Acquire(Mut(e.sid))
    case WantQueue(e, _) => Acquire(MutList(e.sid, e.slot))
    case Taking(e, _) => Unlocks(MutList(e.sid, e.slot))
    case Took(e, _, _) => Unlocks(Mut(e.sid))
    case WantForget(_, _) => Acquire(MutEpoll)
    case Forget(_, _) => Unlocks(MutEpoll)
    case WantClear(e, _) => Acquire(Mut(e.sid))
    case Cleared(e, _, _) => Unlocks(Mut(e.sid))
    case WantDrop(_, _, _) => Acquire(MutClientCount)
    case DropOne(_, _, _) => Unlocks(MutClientCount)
    case Await(_, sid, _) => Join(sid)
    case WantDelete(_, _, _) => Acquire(MutSession)
    case WantSweep(_, sid, _) => Acquire(Mut(sid))
    case WantSweepDel(_, _, _, _, _) => Acquire(MutEpoll)
    case SweepDel(_, _, _, _, _) => Unlocks(MutEpoll)
    case Release(_, sid, _, _) => Unlocks(Mut(sid))
    case Freed(_, _) => Unlocks(MutSession)
    case WantDropAll(_, _) => Acquire(MutClientCount)
    case DropAll(_, _) => Unlocks(MutClientCount)
    case _ => Local
  }

  function MediaAction(sid: nat, pc: MediaPc): Action {
    match pc
    case WantLock => Acquire(Mut(sid))
    case WantList(i) => Acquire(MutList(sid, i))
    case Store(i) => Unlocks(MutList(sid, i))
    case Unlock => Unlocks(Mut(sid))
    case Exit => Finished
    case _ => Local
  }

  function ActionOf(st: State, t: Tid): Action {
    match t
    case Client(k) => if k < |st.clients| then ClientAction(st.clients[k].pc) else Finished
    case Epoll => EpollAction(st.epoll)
    case Media(sid) => if Live(st, sid) then MediaAction(sid, st.sessions[sid].value.media) else Finished
  }

  // ---------------------------------------------------------------- what the step does, locks aside

  /** What a step may choose: the events epoll reports, and the outcome of a branch that depends on data. */
  datatype Choice = Choice(events: seq<Entry>, flag: bool)

  function SetSession(st: State, sid: nat, s: Session): State
    requires sid < |st.sessions|
  {
    st.(sessions := st.sessions[sid := Some(s)])
  }

  function At(st: State, k: nat, pc: ClientPc): State
    requires k < |st.clients|
  {
    st.(clients := st.clients[k := st.clients[k].(pc := pc)])
  }

  function SetSlot(st: State, e: Entry, slot: Slot): State
    requires HasSlot(st, e)
  {
    var s := st.sessions[e.sid].value;
    SetSession(st, e.sid, s.(slots := s.slots[e.slot := slot]))
  }

  predicate Dangling(st: State) {
    exists i :: 0 <= i < |st.table| && st.table[i].Some? && !Live(st, st.table[i].value)
  }

  /** The first entry from i on whose session's file name begins with the path. */
  function Find(st: State, path: string, i: nat): (found: Option<nat>)
    requires i <= |st.table|
    ensures found.Some? ==> Live(st, found.value) && path <= st.sessions[found.value].value.filename
    decreases |st.table| - i
  {
    if i == |st.table| then None
    else if st.table[i].Some? && Live(st, st.table[i].value) && path <= st.sessions[st.table[i].value].value.filename
    then st.table[i]
    else Find(st, path, i + 1)
  }

  function FirstEmpty(table: seq<Option<nat>>, i: nat): (pos: nat)
    requires i <= |table|
    decreases |table| - i
  {
    if i == |table| || table[i] == None then i else FirstEmpty(table, i + 1)
  }

  /** `get_free_clientinfo`: the lowest free slot, or the number of slots if there is none. */
  function LowestFree(slots: seq<Slot>, i: nat): (slot: nat)
    requires i <= |slots|
    ensures i <= slot <= |slots|
    ensures slot < |slots| ==> slots[slot] == Free
    ensures forall j :: i <= j < slot ==> slots[j] != Free
  {
    Slots.Lowest(slots, IsFree, i)
  }

  predicate IsFree(slot: Slot) {
    slot == Free
  }

  /** A new session goes to the entry `pos` of the table, whatever is there. */
  function StoreSession(st: State, k: nat, pos: nat): State
    requires k < |st.clients| && pos < |st.table|
  {
    var sid := |st.sessions|;
    var s := Session(pos, st.clients[k].path, seq(CLIENTMAX, _ => Free), 0, true, Loop, false);
    At(st, k, WantNew(sid)).(table := st.table[pos := Some(sid)], sessions := st.sessions + [Some(s)])
  }

  /** None: the thread uses a session or a slot that is not there, or an entry of the table that it may not. */
  function ClientEffect(st: State, k: nat): Option<State>
    requires k < |st.clients|
  {
    var c := st.clients[k];
    match c.pc
    case Start => Some(At(st, k, Scan))
    case Scan =>
      var found := Find(st, c.path, 0);
      if Dangling(st) then None
      else Some(At(st, k, if found.Some? then WantMut(found.value) else NotFound(FirstEmpty(st.table, 0))))
    case WantMut(sid) => Some(At(st, k, Pick(sid)))
    case Pick(sid) =>
      if !Live(st, sid) then None
      else
        var slots := st.sessions[sid].value.slots;
        var slot := LowestFree(slots, 0);
        Some(At(st, k, if slot == |slots| then RejectMut(sid) else Fill(sid, slot)))
    case RejectMut(_) => Some(At(st, k, RejectTable))
    case RejectTable => Some(At(st, k, Done))
    case NotFound(pos) => Some(At(st, k, WantTable(pos)))
    case WantTable(pos) => Some(At(st, k, Create(pos)))
    case Create(pos) =>
      if pos >= |st.table| || st.table[pos] != None then None else Some(StoreSession(st, k, pos))
    case WantNew(sid) => Some(At(st, k, Fill(sid, 0)))
    case Fill(sid, slot) =>
      if !HasSlot(st, Entry(sid, slot)) then None
      else Some(SetSlot(At(st, k, CountUp(sid, slot)), Entry(sid, slot), Joining(c.sock, k)))
    case CountUp(sid, slot) =>
      if !Live(st, sid) then None
      else
        var s := st.sessions[sid].value;
        Some(SetSession(At(st, k, Describe(sid, slot)), sid, s.(count := s.count + 1)))
    case Describe(sid, slot) => if !Live(st, sid) then None else Some(At(st, k, WantEpoll(sid, slot)))
    case WantEpoll(sid, slot) => Some(At(st, k, Register(sid, slot)))
    case Register(sid, slot) =>
      if !HasSlot(st, Entry(sid, slot)) || SlotOf(st, Entry(sid, slot)) == Free then None
      else Some(SetSlot(At(st, k, UnlockMut(sid)), Entry(sid, slot), Watched(SlotOf(st, Entry(sid, slot)).sd)))
    case UnlockMut(_) => Some(At(st, k, UnlockTable))
    case UnlockTable => Some(At(st, k, WantSum))
    case WantSum => Some(At(st, k, AddOne))
    case AddOne => Some(At(st, k, Done).(sum := st.sum + 1))
    case Done => Some(st)
  }

  /** What `epoll_wait` may report: watched clients, each once. */
  predicate Reportable(st: State, events: seq<Entry>) {
    && (forall e <- events :: IsWatched(st, e))
    && (forall i, j :: 0 <= i < j < |events| ==> events[i] != events[j])
  }

  function EpollEffect(st: State, ch: Choice): Option<State> {
    match st.epoll
    case Idle => Some(st.(epoll := Poll))
    case Poll => Some(st.(epoll := Batch(if Reportable(st, ch.events) then ch.events else [])))
    case Batch(rest) =>
      if rest == [] then Some(st.(epoll := Idle))
      else if !HasSlot(st, rest[0]) then None
      else Some(st.(epoll := WantTake(rest[0], rest[1..])))
    case WantTake(e, rest) => Some(st.(epoll := WantQueue(e, rest)))
    case WantQueue(e, rest) => Some(st.(epoll := Taking(e, rest)))
    case Taking(e, rest) => Some(st.(epoll := Took(e, rest, ch.flag)))
    case Took(e, rest, data) => Some(st.(epoll := if data then Send(e, rest) else Batch(rest)))
    case Send(e, rest) => Some(st.(epoll := if ch.flag then Batch(rest) else WantForget(e, rest)))
    case WantForget(e, rest) => Some(st.(epoll := Forget(e, rest)))
    case Forget(e, rest) =>
      if !IsWatched(st, e) then None
      else Some(SetSlot(st, e, Leaving(SlotOf(st, e).sd)).(epoll := WantClear(e, rest)))
    case WantClear(e, rest) => Some(st.(epoll := Clear(e, rest)))
    case Clear(e, rest) =>
      if !HasSlot(st, e) then None else Some(SetSlot(st, e, Free).(epoll := CountDown(e, rest)))
    case CountDown(e, rest) =>
      if !Live(st, e.sid) then None
      else
        var s := st.sessions[e.sid].value;
        Some(SetSession(st, e.sid, s.(count := s.count - 1)).(epoll := Cleared(e, rest, s.count - 1)))
    case Cleared(e, rest, left) => Some(st.(epoll := WantDrop(e, rest, left)))
    case WantDrop(e, rest, left) => Some(st.(epoll := DropOne(e, rest, left)))
    case DropOne(e, rest, left) =>
      var st' := st.(sum := st.sum - 1);
      if left != 0 then Some(st'.(epoll := Batch(rest)))
      else if !Live(st, e.sid) then None
      else Some(st'.(epoll := Stop(st.sessions[e.sid].value.pos, rest)))
    case Stop(pos, rest) =>
      if pos >= |st.table| || st.table[pos] == None || !Live(st, st.table[pos].value) then None
      else
        var sid := st.table[pos].value;
        Some(SetSession(st, sid, st.sessions[sid].value.(run := false)).(epoll := Await(pos, sid, rest)))
    case Await(pos, sid, rest) =>
      if !Live(st, sid) then None
      else Some(SetSession(st, sid, st.sessions[sid].value.(freed := true)).(epoll := WantDelete(pos, sid, rest)))
    case WantDelete(pos, sid, rest) => Some(st.(epoll := Check(pos, sid, rest)))
    case Check(pos, sid, rest) =>
      if pos >= |st.table| then None
      else if st.table[pos] == None then Some(st.(epoll := Freed(rest, 0)))
      else Some(st.(epoll := WantSweep(pos, st.table[pos].value, rest)))
    case WantSweep(pos, sid, rest) => Some(st.(epoll := Sweep(pos, sid, rest, 0, 0)))
    case Sweep(pos, sid, rest, i, num) =>
      if !Live(st, sid) then None
      else if i >= |st.sessions[sid].value.slots| then Some(st.(epoll := Release(pos, sid, rest, num)))
      else if st.sessions[sid].value.slots[i] != Free then Some(st.(epoll := WantSweepDel(pos, sid, rest, i, num + 1)))
      else Some(st.(epoll := Sweep(pos, sid, rest, i + 1, num)))
    case WantSweepDel(pos, sid, rest, i, num) => Some(st.(epoll := SweepDel(pos, sid, rest, i, num)))
    case SweepDel(pos, sid, rest, i, num) =>
      if !IsWatched(st, Entry(sid, i)) then None
      else
        Some(SetSlot(st, Entry(sid, i), Leaving(SlotOf(st, Entry(sid, i)).sd))
             .(epoll := SweepClear(pos, sid, rest, i, num)))
    case SweepClear(pos, sid, rest, i, num) =>
      if !HasSlot(st, Entry(sid, i)) then None
      else Some(SetSlot(st, Entry(sid, i), Free).(epoll := Sweep(pos, sid, rest, i + 1, num)))
    case Release(pos, sid, rest, num) => Some(st.(epoll := FreeSession(pos, sid, rest, num)))
    case FreeSession(pos, sid, rest, num) =>
      if pos >= |st.table| || !Live(st, sid) then None
      else Some(st.(table := st.table[pos := None], sessions := st.sessions[sid := None], epoll := Freed(rest, num)))
    case Freed(rest, num) => Some(st.(epoll := WantDropAll(rest, num)))
    case WantDropAll(rest, num) => Some(st.(epoll := DropAll(rest, num)))
    case DropAll(rest, num) => Some(st.(sum := st.sum - num, epoll := Batch(rest)))
  }

  function NextMedia(s: Session, ch: Choice): Option<MediaPc> {
    match s.media
    case Loop => Some(if !s.run then Exit else if ch.flag then WantLock else Loop)
    case WantLock => Some(Visit(0))
    case Visit(i) =>
      if i >= s.count then Some(Unlock)
      else if i >= |s.slots| then None
      else if s.slots[i] != Free then Some(WantList(i))
      else Some(Visit(i + 1))
    case WantList(i) => Some(Store(i))
    case Store(i) => Some(Visit(i + 1))
    case Unlock => Some(Loop)
    case Exit => Some(Exit)
  }

  function MediaEffect(st: State, sid: nat, ch: Choice): Option<State>
    requires Live(st, sid)
  {
    var s := st.sessions[sid].value;
    var next := NextMedia(s, ch);
    if next == None then None else Some(SetSession(st, sid, s.(media := next.value)))
  }

  function Effect(st: State, t: Tid, ch: Choice): Option<State>
    requires ActionOf(st, t) != Finished
  {
    match t
    case Client(k) => ClientEffect(st, k)
    case Epoll => EpollEffect(st, ch)
    case Media(sid) => MediaEffect(st, sid, ch)
  }

  // ---------------------------------------------------------------- steps and runs

  /** Whether a thread that is not finished can go on: the lock it wants is free, the thread it joins has ended. */
  predicate Enabled(st: State, t: Tid) {
    match ActionOf(st, t)
    case Finished => false
    case Acquire(l) => l !in st.owner
    case Join(sid) => Live(st, sid) ==> st.sessions[sid].value.media == Exit
    case _ => true
  }

  /** The owners of the locks after the step. */
  function Owners(st: State, t: Tid): map<Lock, Tid> {
    match ActionOf(st, t)
    case Acquire(l) => st.owner[l := t]
    case Unlocks(l) => st.owner - {l}
    case _ => st.owner
  }

  predicate FreedMedia(st: State, sid: nat) {
    Live(st, sid) && st.sessions[sid].value.freed
  }

  /** The step of thread t uses a media context that has been freed: a client asks it for the audio type, the epoll
      thread for the codecs or to stop, and its own thread lives in it. */
  predicate UsesFreedMedia(st: State, t: Tid) {
    match t
    case Client(k) => k < |st.clients| && st.clients[k].pc.Describe? && FreedMedia(st, st.clients[k].pc.sid)
    case Epoll =>
      || (st.epoll.Send? && FreedMedia(st, st.epoll.e.sid))
      || (st.epoll.Stop? && st.epoll.pos < |st.table| && st.table[st.epoll.pos].Some?
          && FreedMedia(st, st.table[st.epoll.pos].value))
    case Media(sid) => FreedMedia(st, sid)
  }

  /** A step of thread t: None when the thread uses a session, a slot or an entry of the table that is not there or
      that it may not, or a freed media context. */
  function Step(st: State, t: Tid, ch: Choice): Option<State>
    requires Enabled(st, t)
  {
    if UsesFreedMedia(st, t) then None else StepOn(st, t, ch)
  }

  /** The same when a freed media context is taken to hold something: what is read there decides nothing here. */
  function StepOn(st: State, t: Tid, ch: Choice): Option<State>
    requires Enabled(st, t)
  {
    var after := Effect(st, t, ch);
    if after == None then None else Some(after.value.(owner := Owners(st, t)))
  }

  /** A run under a schedule, the newest step last. A thread that cannot go on does not. A run goes on after the
      use of a freed media context, so that what holds of all runs holds also of those. */
  function Run(init: State, schedule: seq<(Tid, Choice)>): Option<State> {
    if schedule == [] then Some(init)
    else
      var before := Run(init, schedule[..|schedule| - 1]);
      var (t, ch) := schedule[|schedule| - 1];
      if before == None then None
      else if !Enabled(before.value, t) then before
      else StepOn(before.value, t, ch)
  }

  predicate Initial(st: State) {
    && st.table == seq(FILEMAX, _ => None)
    && st.sessions == []
    && st.sum == 0
    && (forall c <- st.clients :: c.pc == Start && c.sock > 0)
    && st.epoll == Idle
    && st.owner == map[]
  }
}
