/** What the epoll thread does about the events that epoll reports, as a record of the whole run: nothing is skipped,
    done twice or out of order. */
module ServerEvents {
  import opened Bytes
  import opened Server
  import opened ServerLocks
  import opened ServerInv
  import opened ServerEpoll
  import ServerClients
  import opened ServerRuns

  /** The events reported; the clients from whose rings a packet was to be taken, and those of them whose rings had one;
      the clients that were sent a packet, and those for whom that failed; the clients that lost their slots because of
      it; the sessions whose count came down to 0, and the sessions freed. */
  datatype Log = Log(reported: seq<Entry>, asked: seq<Entry>, loaded: seq<Entry>, sent: seq<Entry>, failed: seq<Entry>,
                     left: seq<Entry>, emptied: seq<nat>, freed: seq<nat>)

  const NOTHING_YET := Log([], [], [], [], [], [], [], [])

  function If<T>(b: bool, x: T): seq<T> {
    if b then [x] else []
  }

  /** What a step of the epoll thread adds to the record. */
  function Noted(log: Log, st: State, ch: Choice): Log {
    match st.epoll
    case Poll => if Reportable(st, ch.events) then log.(reported := log.reported + ch.events) else log
    case Taking(e, _) => log.(asked := log.asked + [e], loaded := log.loaded + If(ch.flag, e))
    case Send(e, _) => log.(sent := log.sent + [e], failed := log.failed + If(!ch.flag, e))
    case Clear(e, _) => log.(left := log.left + [e])
    case CountDown(e, _) =>
      log.(emptied := log.emptied + If(Live(st, e.sid) && st.sessions[e.sid].value.count == 1, e.sid))
    case FreeSession(_, sid, _, _) => log.(freed := log.freed + [sid])
    case _ => log
  }

  function LogOf(init: State, schedule: seq<(Tid, Choice)>): Log {
    if schedule == [] then NOTHING_YET
    else
      var before := Run(init, schedule[..|schedule| - 1]);
      var (t, ch) := schedule[|schedule| - 1];
      var log := LogOf(init, schedule[..|schedule| - 1]);
      if t == Epoll && before.Some? && Enabled(before.value, t) then Noted(log, before.value, ch) else log
  }

  /** Epoll may report any watched clients, each once, and each of them is then to be handled. */
  lemma ReportsAny(st: State, events: seq<Entry>, flag: bool)
    requires st.epoll == Poll
    requires forall e <- events :: IsWatched(st, e)
    requires forall i, j :: 0 <= i < j < |events| ==> events[i] != events[j]
    ensures EpollEffect(st, Choice(events, flag)) == Some(st.(epoll := Batch(events)))
    ensures forall log :: Noted(log, st, Choice(events, flag)).reported == log.reported + events
  {
  }

  // ---------------------------------------------------------------- what is still to be done

  function ToAsk(pc: EpollPc): seq<Entry> {
    if pc.WantTake? || pc.WantQueue? || pc.Taking? then [pc.e] + pc.rest else RestOf(pc)
  }

  function ToSend(pc: EpollPc): seq<Entry> {
    if pc.Send? || (pc.Took? && pc.data) then [pc.e] else []
  }

  function ToLeave(pc: EpollPc): seq<Entry> {
    if pc.WantForget? || pc.Forget? || pc.WantClear? || pc.Clear? then [pc.e] else []
  }

  function ToFree(st: State): seq<nat> {
    match st.epoll
    case Cleared(e, _, left) => If(left == 0, e.sid)
    case WantDrop(e, _, left) => If(left == 0, e.sid)
    case DropOne(e, _, left) => If(left == 0, e.sid)
    case Stop(pos, _) => if pos < |st.table| && st.table[pos].Some? then [st.table[pos].value] else []
    case Await(_, sid, _) => [sid]
    case WantDelete(_, sid, _) => [sid]
    case Check(_, sid, _) => [sid]
    case WantSweep(_, sid, _) => [sid]
    case Sweep(_, sid, _, _, _) => [sid]
    case WantSweepDel(_, sid, _, _, _) => [sid]
    case SweepDel(_, sid, _, _, _) => [sid]
    case SweepClear(_, sid, _, _, _) => [sid]
    case Release(_, sid, _, _) => [sid]
    case FreeSession(_, sid, _, _) => [sid]
    case _ => []
  }

  ghost predicate AllHandled(log: Log, st: State) {
    && log.reported == log.asked + ToAsk(st.epoll)
    && log.loaded == log.sent + ToSend(st.epoll)
    && log.failed == log.left + ToLeave(st.epoll)
    && log.emptied == log.freed + ToFree(st)
  }

  // ---------------------------------------------------------------- steps

  /** The epoll thread has not asked for the packet of the event in hand yet. */
  predicate Asking(pc: EpollPc) {
    pc.Poll? || pc.Batch? || pc.WantTake? || pc.WantQueue? || pc.Taking?
  }

  lemma AskedWhenAsking(log: Log, st: State, ch: Choice)
    requires log.reported == log.asked + ToAsk(st.epoll) && EpollEffect(st, ch).Some? && Asking(st.epoll)
    ensures var log' := Noted(log, st, ch); log'.reported == log'.asked + ToAsk(EpollEffect(st, ch).value.epoll)
  {
    hide Reportable, IsWatched, HasSlot;
    if st.epoll.Taking? {
      Assoc(log.asked, [st.epoll.e], st.epoll.rest);
    }
  }

  lemma AskedBefore(log: Log, st: State, ch: Choice)
    requires EpollEffect(st, ch).Some? && !Asking(st.epoll) && !Deletes(st.epoll)
    ensures var log' := Noted(log, st, ch); log'.reported == log.reported && log'.asked == log.asked
    ensures ToAsk(EpollEffect(st, ch).value.epoll) == ToAsk(st.epoll)
  {
    hide IsWatched, HasSlot, SetSlot, SetSession;
  }

  lemma AskedInService(log: Log, st: State, ch: Choice)
    requires log.reported == log.asked + ToAsk(st.epoll) && EpollEffect(st, ch).Some? && !Deletes(st.epoll)
    ensures var log' := Noted(log, st, ch); log'.reported == log'.asked + ToAsk(EpollEffect(st, ch).value.epoll)
  {
    hide Noted, EpollEffect, ToAsk;
    if Asking(st.epoll) {
      AskedWhenAsking(log, st, ch);
    } else {
      AskedBefore(log, st, ch);
    }
  }

  lemma SentInService(log: Log, st: State, ch: Choice)
    requires log.loaded == log.sent + ToSend(st.epoll) && EpollEffect(st, ch).Some? && !Deletes(st.epoll)
    ensures var log' := Noted(log, st, ch); log'.loaded == log'.sent + ToSend(EpollEffect(st, ch).value.epoll)
  {
    hide Reportable, IsWatched, HasSlot, SetSlot, SetSession;
  }

  lemma LeftInService(log: Log, st: State, ch: Choice)
    requires log.failed == log.left + ToLeave(st.epoll) && EpollEffect(st, ch).Some? && !Deletes(st.epoll)
    ensures var log' := Noted(log, st, ch); log'.failed == log'.left + ToLeave(EpollEffect(st, ch).value.epoll)
  {
    hide Reportable, IsWatched, HasSlot, SetSlot, SetSession;
  }

  lemma HandledInDeletion(log: Log, st: State, ch: Choice)
    requires AllHandled(log, st) && EpollEffect(st, ch).Some? && Deletes(st.epoll)
    ensures var log', pc := Noted(log, st, ch), EpollEffect(st, ch).value.epoll;
            && log'.reported == log'.asked + ToAsk(pc)
            && log'.loaded == log'.sent + ToSend(pc)
            && log'.failed == log'.left + ToLeave(pc)
  {
    hide EpollEffect, ToFree;
    DeletionLeavesEvents(st, ch);
  }

  lemma DeletionLeavesEvents(st: State, ch: Choice)
    requires EpollEffect(st, ch).Some? && Deletes(st.epoll)
    ensures var pc := EpollEffect(st, ch).value.epoll;
            ToAsk(pc) == ToAsk(st.epoll) && ToSend(pc) == [] == ToLeave(pc)
  {
    hide IsWatched, HasSlot, SetSlot, SetSession;
  }

  lemma FreedInItsTurn(log: Log, st: State, ch: Choice)
    requires EpollOk(st) && log.emptied == log.freed + ToFree(st) && EpollEffect(st, ch).Some?
    requires Deletes(st.epoll)
    ensures var log' := Noted(log, st, ch); log'.emptied == log'.freed + ToFree(EpollEffect(st, ch).value)
  {
    hide EpollOk, EpollEffect;
    if st.epoll.FreeSession? {
      LastIsFreed(st, ch);
    } else if Sweeps(st.epoll) {
      SweepsTheSame(st, ch);
    } else {
      ChecksTheSame(st);
      DeletesTheSame(st, ch);
    }
  }

  lemma LastIsFreed(st: State, ch: Choice)
    requires st.epoll.FreeSession? && EpollEffect(st, ch).Some?
    ensures ToFree(EpollEffect(st, ch).value) == []
  {
  }

  lemma SweepsTheSame(st: State, ch: Choice)
    requires Sweeps(st.epoll) && EpollEffect(st, ch).Some?
    ensures ToFree(EpollEffect(st, ch).value) == ToFree(st)
  {
  }

  lemma ChecksTheSame(st: State)
    requires EpollOk(st)
    ensures st.epoll.Check? ==> st.epoll.pos < |st.table| && st.table[st.epoll.pos] == Some(st.epoll.sid)
  {
  }

  lemma DeletesTheSame(st: State, ch: Choice)
    requires Deletes(st.epoll) && !Sweeps(st.epoll) && !st.epoll.FreeSession? && EpollEffect(st, ch).Some?
    requires st.epoll.Check? ==> st.epoll.pos < |st.table| && st.table[st.epoll.pos] == Some(st.epoll.sid)
    ensures ToFree(EpollEffect(st, ch).value) == ToFree(st)
  {
  }

  lemma EmptiedInItsTurn(log: Log, st: State, ch: Choice)
    requires TableOk(st) && EpollOk(st) && log.emptied == log.freed + ToFree(st) && EpollEffect(st, ch).Some?
    requires !Deletes(st.epoll)
    ensures var log' := Noted(log, st, ch); log'.emptied == log'.freed + ToFree(EpollEffect(st, ch).value)
  {
    hide Reportable, IsWatched, HasSlot;
    if st.epoll.DropOne? {
      assert InTable(st, st.epoll.e.sid);
    }
  }

  lemma HandledByStep(log: Log, st: State, ch: Choice)
    requires TableOk(st) && EpollOk(st) && AllHandled(log, st) && EpollEffect(st, ch).Some?
    ensures AllHandled(Noted(log, st, ch), EpollEffect(st, ch).value)
  {
    hide EpollEffect, TableOk, EpollOk, ToAsk, ToSend, ToLeave, ToFree, Noted;
    if Deletes(st.epoll) {
      HandledInDeletion(log, st, ch);
      FreedInItsTurn(log, st, ch);
    } else {
      AskedInService(log, st, ch);
      SentInService(log, st, ch);
      LeftInService(log, st, ch);
      EmptiedInItsTurn(log, st, ch);
    }
  }

  /** Between stopping and freeing a session the epoll thread finds it where it was. */
  lemma SameToFree(st: State, st': State)
    requires EpollOk(st) && st'.epoll == st.epoll && |st'.table| == |st.table|
    requires forall i :: 0 <= i < |st.table| && st.table[i].Some? ==> st'.table[i] == st.table[i]
    ensures ToFree(st') == ToFree(st)
  {
    hide SweptTo, IsWatched, HasSlot;
  }

  lemma HandledByOthers(log: Log, st: State, t: Tid, ch: Choice)
    requires Inv(st) && AllHandled(log, st) && Enabled(st, t) && t != Epoll && StepOn(st, t, ch).Some?
    ensures AllHandled(log, StepOn(st, t, ch).value)
  {
    hide LocksOk, TableOk, HandsOk, CountsOk, SumOk, FreedOk, PendingOk, EpollOk;
    hide ClientEffect, NextMedia, ClientOk, ToAsk, ToSend, ToLeave, ToFree;
    match t {
      case Client(k) =>
        assert ClientOk(st, k);
        ServerClients.ClientGrows(st, k);
      case Media(_) =>
      case Epoll =>
    }
    SameToFree(st, StepOn(st, t, ch).value);
  }

  lemma HandledMindsNoOwners(log: Log, st: State, owner: map<Lock, Tid>)
    requires AllHandled(log, st)
    ensures AllHandled(log, st.(owner := owner))
  {
  }

  lemma {:induction false} HandledAlways(init: State, schedule: seq<(Tid, Choice)>)
    requires Initial(init) && Run(init, schedule).Some?
    ensures AllHandled(LogOf(init, schedule), Run(init, schedule).value)
  {
    hide Sound, LocksOk, EpollEffect, ClientEffect, MediaEffect, Noted;
    if schedule == [] {
      NothingToHandle(init);
    } else {
      var earlier := schedule[..|schedule| - 1];
      var (t, ch) := schedule[|schedule| - 1];
      HandledAlways(init, earlier);
      InvAlways(init, earlier);
      hide AllHandled;
      var log, st := LogOf(init, earlier), Run(init, earlier).value;
      if Enabled(st, t) {
        if t == Epoll {
          HandledByEpoll(log, st, ch);
        } else {
          HandledByOthers(log, st, t, ch);
        }
      }
    }
  }

  lemma NothingToHandle(init: State)
    requires Initial(init)
    ensures AllHandled(NOTHING_YET, init)
  {
  }

  lemma HandledByEpoll(log: Log, st: State, ch: Choice)
    requires Inv(st) && AllHandled(log, st) && Enabled(st, Epoll) && StepOn(st, Epoll, ch).Some?
    ensures AllHandled(Noted(log, st, ch), StepOn(st, Epoll, ch).value)
  {
    hide LocksOk, TableOk, HandsOk, CountsOk, SumOk, FreedOk, PendingOk, EpollOk, EpollEffect, Noted, AllHandled;
    HandledByStep(log, st, ch);
    HandledMindsNoOwners(Noted(log, st, ch), EpollEffect(st, ch).value, Owners(st, Epoll));
  }

  /** In every run: the clients asked for a packet are the ones reported, in order, but for those still in hand; every
      packet taken is sent before anything else is; every client whose send failed loses its slot, and no other does by
      the epoll thread's loop; and every session whose count came to 0 is freed. */
  lemma EveryEventHandled(init: State, schedule: seq<(Tid, Choice)>)
    requires Initial(init) && Run(init, schedule).Some?
    ensures var log, st := LogOf(init, schedule), Run(init, schedule).value;
            && log.asked <= log.reported && log.sent <= log.loaded && log.left <= log.failed && log.freed <= log.emptied
            && |log.loaded| <= |log.sent| + 1 && |log.failed| <= |log.left| + 1 && |log.emptied| <= |log.freed| + 1
            && (st.epoll.Idle? || st.epoll.Poll? ==>
                  log.asked == log.reported && log.sent == log.loaded && log.left == log.failed && log.freed == log.emptied)
  {
    HandledAlways(init, schedule);
    hide Run, LogOf;
  }
}
