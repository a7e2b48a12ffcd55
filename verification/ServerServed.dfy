/** What becomes of a client thread: it ends with its client watched in a slot of a session by its path, or turned away
    from such a session because every slot was taken. */
module ServerServed {
  import opened Bytes
  import opened Server
  import opened ServerLocks
  import opened ServerInv
  import opened ServerClients
  import opened ServerEpoll
  import opened ServerRuns
  import opened ServerFind

  // ---------------------------------------------------------------- the two ends

  ghost predicate InSession(st: State, k: nat, sid: nat) {
    k < |st.clients| && Live(st, sid) && st.clients[k].path <= st.sessions[sid].value.filename
  }

  /** The client's socket is in a slot of a session by its path, and in the epoll set. */
  ghost predicate Served(st: State, k: nat) {
    exists e: Entry :: InSession(st, k, e.sid) && IsWatched(st, e) && SlotOf(st, e).sd == st.clients[k].sock
  }

  /** The client looks for a slot in a session by its path that has none. */
  ghost predicate TurnedAway(st: State, k: nat) {
    exists sid: nat :: && InSession(st, k, sid) && st.clients[k].pc == Pick(sid)
                       && forall i :: 0 <= i < |st.sessions[sid].value.slots| ==> st.sessions[sid].value.slots[i] != Free
  }

  ghost predicate WasServed(init: State, schedule: seq<(Tid, Choice)>, k: nat) {
    exists n: nat :: n <= |schedule| && Run(init, schedule[..n]).Some? && Served(Run(init, schedule[..n]).value, k)
  }

  ghost predicate WasTurnedAway(init: State, schedule: seq<(Tid, Choice)>, k: nat) {
    exists n: nat :: n <= |schedule| && Run(init, schedule[..n]).Some? && TurnedAway(Run(init, schedule[..n]).value, k)
  }

  // ---------------------------------------------------------------- where a client is on its way

  /** The session that a client is about to enter. */
  function Bound(pc: ClientPc): Option<nat> {
    match pc
    case WantMut(sid) => Some(sid)
    case Pick(sid) => Some(sid)
    case WantNew(sid) => Some(sid)
    case Fill(sid, _) => Some(sid)
    case CountUp(sid, _) => Some(sid)
    case Describe(sid, _) => Some(sid)
    case WantEpoll(sid, _) => Some(sid)
    case Register(sid, _) => Some(sid)
    case _ => None
  }

  predicate Rejected(pc: ClientPc) {
    pc.RejectMut? || pc.RejectTable?
  }

  predicate Entered(pc: ClientPc) {
    pc.UnlockMut? || pc.UnlockTable? || pc.WantSum? || pc.AddOne?
  }

  /** A client goes into a session by its path only, and the socket it puts there is its own. */
  ghost predicate BoundOk(st: State) {
    && (forall k :: 0 <= k < |st.clients| && Bound(st.clients[k].pc).Some? ==>
          InSession(st, k, Bound(st.clients[k].pc).value))
    && (forall e :: IsJoining(st, e) ==>
          var k := SlotOf(st, e).thread; k < |st.clients| && SlotOf(st, e).sd == st.clients[k].sock)
  }

  /** Where client k's thread is tells what has happened to it. */
  ghost predicate PastOk(init: State, schedule: seq<(Tid, Choice)>, k: nat, pc: ClientPc) {
    && (Rejected(pc) ==> WasTurnedAway(init, schedule, k))
    && (Entered(pc) ==> WasServed(init, schedule, k))
    && (pc == Done ==> WasServed(init, schedule, k) || WasTurnedAway(init, schedule, k))
  }

  // ---------------------------------------------------------------- steps

  /** A client's step leaves the other clients where they are, and every client its path and socket. */
  lemma OthersStay(st: State, k: nat)
    requires k < |st.clients| && ClientEffect(st, k).Some?
    ensures var st' := ClientEffect(st, k).value;
            && |st'.clients| == |st.clients|
            && st'.clients == st.clients[k := st.clients[k].(pc := st'.clients[k].pc)]
  {
    hide Dangling, Find, FirstEmpty, LowestFree;
  }

  lemma BoundBySearch(st: State, k: nat)
    requires BoundOk(st) && k < |st.clients| && ClientOk(st, k) && ClientEffect(st, k).Some?
    requires Bound(ClientEffect(st, k).value.clients[k].pc).Some?
    ensures InSession(ClientEffect(st, k).value, k, Bound(ClientEffect(st, k).value.clients[k].pc).value)
  {
    hide Dangling, FirstEmpty, LowestFree;
  }

  lemma SocketsKeptByClient(st: State, k: nat, e: Entry)
    requires BoundOk(st) && k < |st.clients| && ClientOk(st, k) && ClientEffect(st, k).Some?
    requires IsJoining(ClientEffect(st, k).value, e)
    ensures var st' := ClientEffect(st, k).value;
            var j := SlotOf(st', e).thread; j < |st'.clients| && SlotOf(st', e).sd == st'.clients[j].sock
  {
    hide Dangling, FirstEmpty, LowestFree, Find;
    if st.clients[k].pc != Fill(e.sid, e.slot) {
      assert IsJoining(st, e);
    }
  }

  lemma BoundKeptByClient(st: State, k: nat)
    requires Inv(st) && BoundOk(st) && k < |st.clients| && ClientEffect(st, k).Some?
    ensures BoundOk(ClientEffect(st, k).value)
  {
    hide LocksOk, TableOk, HandsOk, CountsOk, SumOk, FreedOk, EpollOk, PendingOk, ClientEffect, ClientOk, InSession;
    var st' := ClientEffect(st, k).value;
    assert ClientOk(st, k);
    OthersStay(st, k);
    ClientGrows(st, k);
    forall j | 0 <= j < |st'.clients| && Bound(st'.clients[j].pc).Some?
      ensures InSession(st', j, Bound(st'.clients[j].pc).value)
    {
      if j == k {
        BoundBySearch(st, k);
      } else {
        BoundIsLive(st, j);
        StillIn(st, st', j, Bound(st.clients[j].pc).value);
      }
    }
    forall e | IsJoining(st', e)
      ensures var j := SlotOf(st', e).thread; j < |st'.clients| && SlotOf(st', e).sd == st'.clients[j].sock
    {
      SocketsKeptByClient(st, k, e);
    }
  }

  lemma StillIn(st: State, st': State, j: nat, sid: nat)
    requires InSession(st, j, sid) && Live(st', sid) && j < |st'.clients| && st'.clients[j].path == st.clients[j].path
    requires st'.sessions[sid].value.filename == st.sessions[sid].value.filename
    ensures InSession(st', j, sid)
  {
  }

  lemma BoundKeptByEpoll(st: State, ch: Choice)
    requires Inv(st) && BoundOk(st) && Enabled(st, Epoll)
    ensures EpollEffect(st, ch).Some? && BoundOk(EpollEffect(st, ch).value)
  {
    hide LocksOk, TableOk, HandsOk, CountsOk, SumOk, FreedOk, EpollOk, PendingOk, EpollEffect, ClientOk, Enabled;
    EpollKeepsInv(st, ch);
    var st' := EpollEffect(st, ch).value;
    EpollHoldsAfter(st, ch);
    forall j | 0 <= j < |st'.clients| && Bound(st'.clients[j].pc).Some?
      ensures InSession(st', j, Bound(st'.clients[j].pc).value)
    {
      var sid := Bound(st'.clients[j].pc).value;
      BoundIsLive(st', j);
      assert InSession(st, j, sid);
      NameKeptByEpoll(st, ch, sid);
    }
    forall e | IsJoining(st', e)
      ensures var j := SlotOf(st', e).thread; j < |st'.clients| && SlotOf(st', e).sd == st'.clients[j].sock
    {
      JoiningKeptByEpoll(st, ch, e);
    }
  }

  lemma BoundIsLive(st: State, k: nat)
    requires ClientsOk(st) && k < |st.clients| && Bound(st.clients[k].pc).Some?
    ensures Live(st, Bound(st.clients[k].pc).value)
  {
    assert ClientOk(st, k);
  }

  lemma JoiningKeptByEpoll(st: State, ch: Choice, e: Entry)
    requires PendingOk(st) && EpollOk(st) && EpollEffect(st, ch).Some? && IsJoining(EpollEffect(st, ch).value, e)
    ensures IsJoining(st, e) && SlotOf(EpollEffect(st, ch).value, e) == SlotOf(st, e)
  {
    hide EpollOk, PendingOk;
    if !st.epoll.FreeSession? {
      EpollKeeps(st, ch);
      hide EpollEffect;
    }
  }

  lemma BoundKeptByMedia(st: State, sid: nat, ch: Choice)
    requires BoundOk(st) && Live(st, sid) && MediaEffect(st, sid, ch).Some?
    ensures BoundOk(MediaEffect(st, sid, ch).value)
  {
    hide NextMedia;
    var st' := MediaEffect(st, sid, ch).value;
    forall e | IsJoining(st', e)
      ensures var j := SlotOf(st', e).thread; j < |st'.clients| && SlotOf(st', e).sd == st'.clients[j].sock
    {
      assert IsJoining(st, e);
    }
    forall j | 0 <= j < |st'.clients| && Bound(st'.clients[j].pc).Some?
      ensures InSession(st', j, Bound(st'.clients[j].pc).value)
    {
      assert InSession(st, j, Bound(st.clients[j].pc).value);
    }
  }

  lemma BoundMindsNoOwners(st: State, owner: map<Lock, Tid>)
    requires BoundOk(st)
    ensures BoundOk(st.(owner := owner))
  {
    var st' := st.(owner := owner);
    assert forall e :: IsJoining(st', e) ==> IsJoining(st, e);
    assert forall k: nat, sid: nat :: InSession(st, k, sid) ==> InSession(st', k, sid);
  }

  lemma BoundKept(st: State, t: Tid, ch: Choice)
    requires Inv(st) && BoundOk(st) && Enabled(st, t) && StepOn(st, t, ch).Some?
    ensures BoundOk(StepOn(st, t, ch).value)
  {
    hide Inv, BoundOk, ClientEffect, EpollEffect, MediaEffect;
    match t {
      case Client(k) => BoundKeptByClient(st, k);
      case Epoll => BoundKeptByEpoll(st, ch);
      case Media(sid) => BoundKeptByMedia(st, sid, ch);
    }
    BoundMindsNoOwners(Effect(st, t, ch).value, Owners(st, t));
  }

  lemma {:induction false} BoundAlways(init: State, schedule: seq<(Tid, Choice)>)
    requires Initial(init) && Run(init, schedule).Some?
    ensures BoundOk(Run(init, schedule).value)
  {
    hide Inv, StepOn;
    if schedule == [] {
      NobodyBound(init);
    } else {
      var earlier := schedule[..|schedule| - 1];
      var (t, ch) := schedule[|schedule| - 1];
      BoundAlways(init, earlier);
      InvAlways(init, earlier);
      hide BoundOk;
      if Enabled(Run(init, earlier).value, t) {
        BoundKept(Run(init, earlier).value, t, ch);
      }
    }
  }

  lemma NobodyBound(init: State)
    requires Initial(init)
    ensures BoundOk(init)
  {
  }

  // ---------------------------------------------------------------- what has happened

  /** The steps by which a client's thread comes to the places that tell of its past. */
  lemma ComesFrom(st: State, k: nat)
    requires k < |st.clients| && ClientEffect(st, k).Some?
    ensures var pc, pc' := st.clients[k].pc, ClientEffect(st, k).value.clients[k].pc;
            && (Rejected(pc') ==> Rejected(pc) || pc.Pick?)
            && (Entered(pc') ==> Entered(pc) || pc.Register?)
            && (pc' == Done ==> pc == Done || Rejected(pc) || Entered(pc))
  {
    hide Dangling, Find, FirstEmpty, LowestFree;
  }

  lemma RejectedFromFull(st: State, k: nat)
    requires BoundOk(st) && k < |st.clients| && ClientEffect(st, k).Some?
    requires st.clients[k].pc.Pick? && Rejected(ClientEffect(st, k).value.clients[k].pc)
    ensures TurnedAway(st, k)
  {
    hide LowestFree;
    var sid := st.clients[k].pc.sid;
    PicksLowest(st, k, sid);
    assert InSession(st, k, sid);
  }

  lemma JoinsItself(st: State, k: nat)
    requires LocksOk(st) && HandsOk(st) && ClientsOk(st) && k < |st.clients| && st.clients[k].pc.Register?
    ensures var e := Entry(st.clients[k].pc.sid, st.clients[k].pc.slot); IsJoining(st, e) && SlotOf(st, e).thread == k
  {
    assert ClientOk(st, k);
    var e := Entry(st.clients[k].pc.sid, st.clients[k].pc.slot);
    var j := SlotOf(st, e).thread;
    assert JoinedBy(st, e, j);
    RefersUnderLock(st, k);
    RefersUnderLock(st, j);
    OnlyOne(st, Client(j), Client(k), MutSession);
  }

  lemma EntersWatched(st: State, k: nat)
    requires Inv(st) && BoundOk(st) && k < |st.clients| && ClientEffect(st, k).Some? && st.clients[k].pc.Register?
    ensures Served(ClientEffect(st, k).value, k)
  {
    JoinsItself(st, k);
    var st' := ClientEffect(st, k).value;
    var e := Entry(st.clients[k].pc.sid, st.clients[k].pc.slot);
    hide Inv, LocksOk, HandsOk;
    assert InSession(st, k, e.sid);
    assert InSession(st', k, e.sid) && IsWatched(st', e) && SlotOf(st', e).sd == st'.clients[k].sock;
  }

  lemma ServedMindsNoOwners(st: State, k: nat, owner: map<Lock, Tid>)
    requires Served(st, k)
    ensures Served(st.(owner := owner), k)
  {
    var e: Entry :| InSession(st, k, e.sid) && IsWatched(st, e) && SlotOf(st, e).sd == st.clients[k].sock;
    var st' := st.(owner := owner);
    assert InSession(st', k, e.sid) && IsWatched(st', e) && SlotOf(st', e).sd == st'.clients[k].sock;
  }

  lemma PastGrows(init: State, earlier: seq<(Tid, Choice)>, schedule: seq<(Tid, Choice)>, k: nat, pc: ClientPc)
    requires PastOk(init, earlier, k, pc) && |earlier| <= |schedule| && schedule[..|earlier|] == earlier
    ensures PastOk(init, schedule, k, pc)
  {
    assert forall n: nat :: n <= |earlier| ==> earlier[..n] == schedule[..n];
  }

  /** A step of the thread itself. */
  lemma PastAfterOwnStep(init: State, earlier: seq<(Tid, Choice)>, k: nat, ch: Choice)
    requires Initial(init) && Run(init, earlier).Some? && Enabled(Run(init, earlier).value, Client(k))
    requires var st := Run(init, earlier).value;
             StepOn(st, Client(k), ch).Some? && PastOk(init, earlier, k, st.clients[k].pc)
    ensures var st, schedule := Run(init, earlier).value, earlier + [(Client(k), ch)];
            PastOk(init, schedule, k, StepOn(st, Client(k), ch).value.clients[k].pc)
  {
    var st, schedule := Run(init, earlier).value, earlier + [(Client(k), ch)];
    var st' := StepOn(st, Client(k), ch).value;
    assert schedule[..|earlier|] == earlier;
    assert Run(init, schedule) == Some(st');
    InvAlways(init, earlier);
    BoundAlways(init, earlier);
    hide Run, Inv, BoundOk, ClientEffect, TurnedAway, Served;
    PastGrows(init, earlier, schedule, k, st.clients[k].pc);
    ComesFrom(st, k);
    if st.clients[k].pc.Pick? && Rejected(st'.clients[k].pc) {
      RejectedFromFull(st, k);
      assert TurnedAway(Run(init, schedule[..|earlier|]).value, k);
    } else if st.clients[k].pc.Register? {
      EntersWatched(st, k);
      ServedMindsNoOwners(ClientEffect(st, k).value, k, Owners(st, Client(k)));
      assert schedule[..|schedule|] == schedule;
      assert Served(Run(init, schedule[..|schedule|]).value, k);
    }
  }

  lemma OtherStep(st: State, t: Tid, ch: Choice, k: nat)
    requires Enabled(st, t) && StepOn(st, t, ch).Some? && t != Client(k) && k < |st.clients|
    ensures var st' := StepOn(st, t, ch).value; k < |st'.clients| && st'.clients[k] == st.clients[k]
  {
    hide ClientEffect, EpollEffect, NextMedia;
    match t {
      case Client(j) => OthersStay(st, j);
      case Epoll => EpollHoldsAfter(st, ch);
      case Media(_) =>
    }
  }

  /** In every run, a client's thread that has been turned away was so in a full session by its path; one that has
      entered has been watched there; and one that has ended has come to either. */
  lemma {:induction false} PastAlways(init: State, schedule: seq<(Tid, Choice)>, k: nat)
    requires Initial(init) && Run(init, schedule).Some? && k < |Run(init, schedule).value.clients|
    ensures PastOk(init, schedule, k, Run(init, schedule).value.clients[k].pc)
  {
    hide PastOk, StepOn;
    if schedule == [] {
      AtTheStart(init, k);
    } else {
      var earlier := schedule[..|schedule| - 1];
      var (t, ch) := schedule[|schedule| - 1];
      SameClients(init, earlier, t, ch);
      PastAlways(init, earlier, k);
      var st := Run(init, earlier).value;
      assert schedule == earlier + [(t, ch)];
      if !Enabled(st, t) {
        PastGrows(init, earlier, schedule, k, st.clients[k].pc);
      } else if t == Client(k) {
        PastAfterOwnStep(init, earlier, k, ch);
      } else {
        OtherStep(st, t, ch, k);
        PastGrows(init, earlier, schedule, k, st.clients[k].pc);
      }
    }
  }

  lemma AtTheStart(init: State, k: nat)
    requires Initial(init) && k < |init.clients|
    ensures PastOk(init, [], k, init.clients[k].pc)
  {
    assert init.clients[k] in init.clients;
  }

  lemma SameClients(init: State, earlier: seq<(Tid, Choice)>, t: Tid, ch: Choice)
    requires Run(init, earlier + [(t, ch)]).Some?
    ensures Run(init, earlier).Some?
    ensures |Run(init, earlier).value.clients| == |Run(init, earlier + [(t, ch)]).value.clients|
  {
    hide StepOn;
    assert (earlier + [(t, ch)])[..|earlier|] == earlier;
    var st := Run(init, earlier).value;
    if Enabled(st, t) {
      ClientCount(st, t, ch);
    }
  }

  lemma ClientCount(st: State, t: Tid, ch: Choice)
    requires Enabled(st, t) && StepOn(st, t, ch).Some?
    ensures |StepOn(st, t, ch).value.clients| == |st.clients|
  {
    hide ClientEffect, EpollEffect, NextMedia;
    match t {
      case Client(j) => OthersStay(st, j);
      case Epoll => EpollHoldsAfter(st, ch);
      case Media(_) =>
    }
  }

  /** A client's thread ends only after its client has been watched in a slot of a session whose file name begins with
      its path, or after it found every slot of such a session taken. */
  lemma ServedOrTurnedAway(init: State, schedule: seq<(Tid, Choice)>, k: nat)
    requires Initial(init) && Run(init, schedule).Some?
    requires k < |Run(init, schedule).value.clients| && Run(init, schedule).value.clients[k].pc == Done
    ensures WasServed(init, schedule, k) || WasTurnedAway(init, schedule, k)
  {
    hide WasServed, WasTurnedAway;
    PastAlways(init, schedule, k);
  }
}
