/** Finding a session and a place in it: which session a client joins, whether it gets a slot, and how a new session
    begins. */
module ServerFind {
  import opened Bytes
  import opened Server
  import opened ServerLocks
  import opened ServerInv
  import opened ServerClients
  import opened ServerEpoll
  import opened ServerRuns

  // ---------------------------------------------------------------- the search of the table

  /** The entry shows a session whose file name begins with the path. */
  predicate Named(st: State, path: string, i: nat) {
    && i < |st.table| && st.table[i].Some? && Live(st, st.table[i].value)
    && path <= st.sessions[st.table[i].value].value.filename
  }

  ghost predicate FirstNamed(st: State, path: string, i: nat) {
    Named(st, path, i) && forall j: nat :: j < i ==> !Named(st, path, j)
  }

  lemma {:induction false} FindIsFirst(st: State, path: string, i: nat)
    requires i <= |st.table| && forall j: nat :: j < i ==> !Named(st, path, j)
    ensures match Find(st, path, i)
            case Some(sid) => exists j: nat :: FirstNamed(st, path, j) && st.table[j] == Some(sid)
            case None => forall j: nat :: !Named(st, path, j)
    decreases |st.table| - i
  {
    if i < |st.table| {
      if Named(st, path, i) {
        assert FirstNamed(st, path, i);
      } else {
        FindIsFirst(st, path, i + 1);
      }
    }
  }

  /** A client that looks goes on to the first session in the table whose file name begins with its path, wherever in
      the table that is; and it goes on to make a new one exactly when there is none. */
  lemma ScanFinds(st: State, k: nat)
    requires k < |st.clients| && st.clients[k].pc == Scan && ClientEffect(st, k).Some?
    ensures var path, pc := st.clients[k].path, ClientEffect(st, k).value.clients[k].pc;
            && (forall sid: nat :: pc == WantMut(sid)
                  <==> exists j: nat :: FirstNamed(st, path, j) && st.table[j] == Some(sid))
            && (pc.NotFound? <==> forall j: nat :: !Named(st, path, j))
  {
    hide Dangling, FirstEmpty, Find;
    FindIsFirst(st, st.clients[k].path, 0);
    var path := st.clients[k].path;
    assert forall i: nat, j: nat :: FirstNamed(st, path, i) && FirstNamed(st, path, j) ==> i == j;
  }

  // ---------------------------------------------------------------- a place in the session

  /** A client is turned away exactly when every slot of the session is taken; otherwise it gets the lowest free one. */
  lemma PicksLowest(st: State, k: nat, sid: nat)
    requires k < |st.clients| && st.clients[k].pc == Pick(sid) && ClientEffect(st, k).Some?
    ensures Live(st, sid)
    ensures var slots, pc := st.sessions[sid].value.slots, ClientEffect(st, k).value.clients[k].pc;
            && (pc == RejectMut(sid) <==> forall i :: 0 <= i < |slots| ==> slots[i] != Free)
            && (forall i: nat :: pc == Fill(sid, i)
                  <==> i < |slots| && slots[i] == Free && forall j: nat :: j < i ==> slots[j] != Free)
  {
  }

  // ---------------------------------------------------------------- a new session

  /** A new session is named by the path, plays, and is empty; the client goes on to its first slot. */
  lemma NewSession(st: State, k: nat)
    requires k < |st.clients| && st.clients[k].pc.Create? && ClientEffect(st, k).Some?
    ensures var st', sid, pos := ClientEffect(st, k).value, |st.sessions|, st.clients[k].pc.pos;
            && pos < |st.table| && st.table[pos] == None && st'.table == st.table[pos := Some(sid)]
            && Live(st', sid) && st'.clients[k].pc == WantNew(sid)
            && var s := st'.sessions[sid].value;
            && s.filename == st.clients[k].path && s.pos == pos
            && s.run && s.media == Loop && !s.freed
            && |s.slots| == 1024 && s.count == 0 && forall i :: 0 <= i < 1024 ==> s.slots[i] == Free
  {
  }

  // ---------------------------------------------------------------- sessions keep their names

  /** A session keeps its name and its place as long as it lives, and does not come back. */
  lemma NameKept(st: State, t: Tid, ch: Choice, sid: nat)
    requires Inv(st) && Enabled(st, t) && StepOn(st, t, ch).Some?
    requires sid < |st.sessions| && Live(StepOn(st, t, ch).value, sid)
    ensures Live(st, sid)
    ensures var s, s' := st.sessions[sid].value, StepOn(st, t, ch).value.sessions[sid].value;
            s'.filename == s.filename && s'.pos == s.pos
  {
    hide LocksOk, TableOk, HandsOk, CountsOk, SumOk, FreedOk, Kept, Grown, ClientEffect, EpollEffect, NextMedia;
    match t {
      case Client(k) =>
        assert ClientOk(st, k);
        NameKeptByClient(st, k, sid);
      case Epoll =>
        StaysLive(st, ch, sid);
        NameKeptByEpoll(st, ch, sid);
      case Media(_) =>
    }
  }

  lemma NameKeptByClient(st: State, k: nat, sid: nat)
    requires k < |st.clients| && ClientOk(st, k) && ClientEffect(st, k).Some?
    requires sid < |st.sessions| && Live(ClientEffect(st, k).value, sid)
    ensures Live(st, sid)
    ensures var s, s' := st.sessions[sid].value, ClientEffect(st, k).value.sessions[sid].value;
            s'.filename == s.filename && s'.pos == s.pos
  {
    ClientGrows(st, k);
    hide ClientEffect, ClientOk;
    if !Live(st, sid) {
      NewIsCreated(st, k, sid);
    }
  }

  lemma NameKeptByEpoll(st: State, ch: Choice, sid: nat)
    requires PendingOk(st) && EpollOk(st) && EpollEffect(st, ch).Some?
    requires Live(st, sid) && Live(EpollEffect(st, ch).value, sid)
    ensures var s, s' := st.sessions[sid].value, EpollEffect(st, ch).value.sessions[sid].value;
            s'.filename == s.filename && s'.pos == s.pos
  {
    hide EpollOk, PendingOk;
    if !st.epoll.FreeSession? {
      EpollKeeps(st, ch);
      hide EpollEffect;
    }
  }

  lemma {:induction false} NamesStay(init: State, schedule: seq<(Tid, Choice)>, later: seq<(Tid, Choice)>, sid: nat)
    requires Initial(init) && Run(init, schedule).Some? && Run(init, schedule + later).Some?
    requires sid < |Run(init, schedule).value.sessions| && Live(Run(init, schedule + later).value, sid)
    ensures sid < |Run(init, schedule + later).value.sessions|
    ensures Live(Run(init, schedule).value, sid)
    ensures var s, s' := Run(init, schedule).value.sessions[sid].value, Run(init, schedule + later).value.sessions[sid].value;
            s'.filename == s.filename && s'.pos == s.pos
    decreases |later|
  {
    hide Inv, StepOn, Initial;
    if later == [] {
      assert schedule + later == schedule;
    } else {
      var n := |later| - 1;
      var earlier := schedule + later[..n];
      var (t, ch) := later[n];
      assert (schedule + later)[..|schedule| + n] == earlier;
      SessionsGrow(init, schedule, later[..n]);
      InvAlways(init, earlier);
      if Enabled(Run(init, earlier).value, t) {
        NameKept(Run(init, earlier).value, t, ch, sid);
      }
      NamesStay(init, schedule, later[..n], sid);
    }
  }

  lemma {:induction false} SessionsGrow(init: State, schedule: seq<(Tid, Choice)>, later: seq<(Tid, Choice)>)
    requires Run(init, schedule + later).Some?
    ensures Run(init, schedule).Some?
    ensures |Run(init, schedule).value.sessions| <= |Run(init, schedule + later).value.sessions|
    decreases |later|
  {
    hide StepOn;
    if later == [] {
      assert schedule + later == schedule;
    } else {
      var n := |later| - 1;
      var earlier := schedule + later[..n];
      var (t, ch) := later[n];
      assert (schedule + later)[..|schedule| + n] == earlier;
      if Enabled(Run(init, earlier).value, t) {
        MoreSessions(Run(init, earlier).value, t, ch);
      }
      SessionsGrow(init, schedule, later[..n]);
    }
  }

  lemma MoreSessions(st: State, t: Tid, ch: Choice)
    requires Enabled(st, t) && StepOn(st, t, ch).Some?
    ensures |st.sessions| <= |StepOn(st, t, ch).value.sessions|
  {
    hide ClientEffect, EpollEffect, NextMedia;
    match t {
      case Client(k) => MoreByClient(st, k);
      case Epoll => SameByEpoll(st, ch);
      case Media(_) =>
    }
  }

  lemma MoreByClient(st: State, k: nat)
    requires k < |st.clients| && ClientEffect(st, k).Some?
    ensures |st.sessions| <= |ClientEffect(st, k).value.sessions|
  {
    hide Dangling, Find, FirstEmpty, LowestFree;
  }

  lemma SameByEpoll(st: State, ch: Choice)
    requires EpollEffect(st, ch).Some?
    ensures |st.sessions| == |EpollEffect(st, ch).value.sessions| && |st.table| == |EpollEffect(st, ch).value.table|
  {
    hide Reportable;
  }

  lemma TableKeepsSize(st: State, t: Tid, ch: Choice)
    requires Enabled(st, t) && StepOn(st, t, ch).Some?
    ensures |StepOn(st, t, ch).value.table| == |st.table|
  {
    hide ClientEffect, EpollEffect, NextMedia;
    match t {
      case Client(k) =>
        TableAfterClient(st, k);
        if st.clients[k].pc.Create? {
          NewSession(st, k);
        }
      case Epoll => SameByEpoll(st, ch);
      case Media(_) =>
    }
  }

  /** The table has 1024 entries in every run, and every session in it 1024 slots. */
  lemma {:induction false} Sizes(init: State, schedule: seq<(Tid, Choice)>)
    requires Initial(init) && Run(init, schedule).Some?
    ensures var st := Run(init, schedule).value;
            |st.table| == 1024 && forall sid: nat :: Live(st, sid) ==> |st.sessions[sid].value.slots| == 1024
  {
    hide StepOn;
    if schedule != [] {
      var earlier := schedule[..|schedule| - 1];
      var (t, ch) := schedule[|schedule| - 1];
      Sizes(init, earlier);
      if Enabled(Run(init, earlier).value, t) {
        TableKeepsSize(Run(init, earlier).value, t, ch);
      }
    }
    InvAlways(init, schedule);
  }

  // ---------------------------------------------------------------- who joins whom

  /** In every reachable state, the client that looks finds the first session by its path, if there is one. */
  lemma FindsFirst(init: State, schedule: seq<(Tid, Choice)>, k: nat, ch: Choice)
    requires Initial(init) && Run(init, schedule).Some?
    requires var st := Run(init, schedule).value; k < |st.clients| && st.clients[k].pc == Scan
    ensures var st := Run(init, schedule).value;
            && StepOn(st, Client(k), ch).Some?
            && var path, pc := st.clients[k].path, StepOn(st, Client(k), ch).value.clients[k].pc;
            && (forall sid: nat :: pc == WantMut(sid)
                  <==> exists j: nat :: FirstNamed(st, path, j) && st.table[j] == Some(sid))
            && (pc.NotFound? <==> forall j: nat :: !Named(st, path, j))
  {
    var st := Run(init, schedule).value;
    InvAlways(init, schedule);
    hide Run, Inv, FirstNamed, Named, ClientEffect;
    ClientIsDefined(st, k);
    ScanFinds(st, k);
  }

  /** A client that looks while a session by its path is in the table does not make another one: it joins the first
      session by that path, which is this one unless an earlier entry of the table shows another. */
  lemma JoinsNamed(st: State, j: nat, sid: nat, ch: Choice)
    requires Inv(st) && Live(st, sid) && j < |st.clients| && st.clients[j].pc == Scan
    requires st.sessions[sid].value.filename == st.clients[j].path
    ensures StepOn(st, Client(j), ch).Some?
    ensures var pc, path := StepOn(st, Client(j), ch).value.clients[j].pc, st.clients[j].path;
            var pos := st.sessions[sid].value.pos;
            && pc.WantMut?
            && (pc == WantMut(sid) <==> forall i: nat :: i < pos ==> !Named(st, path, i))
  {
    hide Inv, FirstNamed, ClientEffect;
    var path, pos := st.clients[j].path, st.sessions[sid].value.pos;
    ClientIsDefined(st, j);
    InPlace(st, sid);
    assert Named(st, path, pos);
    ScanFinds(st, j);
    LooksThenGoesOn(st, j);
    OneFirst(st, path, pos);
    assert forall i: nat :: FirstNamed(st, path, i) && st.table[i] == Some(sid) ==> i == pos by {
      FirstIsThere(st, path);
    }
  }

  lemma FirstIsThere(st: State, path: string)
    ensures forall i: nat :: FirstNamed(st, path, i) ==> i < |st.table|
  {
  }

  lemma LooksThenGoesOn(st: State, j: nat)
    requires j < |st.clients| && st.clients[j].pc == Scan && ClientEffect(st, j).Some?
    ensures var pc := ClientEffect(st, j).value.clients[j].pc; pc.WantMut? || pc.NotFound?
  {
  }

  /** So it is, in every run, for a client that looks after another with the same path has stored its session, as long
      as that session lives. */
  lemma LaterClientJoins(init: State, schedule: seq<(Tid, Choice)>, st: State, k: nat, ch: Choice,
                         later: seq<(Tid, Choice)>, st2: State, j: nat, ch2: Choice)
    requires Initial(init) && Run(init, schedule) == Some(st)
    requires k < |st.clients| && st.clients[k].pc.Create? && StepOn(st, Client(k), ch).Some?
    requires Run(init, schedule + [(Client(k), ch)] + later) == Some(st2) && Live(st2, |st.sessions|)
    requires j < |st2.clients| && st2.clients[j].pc == Scan && st2.clients[j].path == st.clients[k].path
    ensures StepOn(st2, Client(j), ch2).Some?
    ensures var pc := StepOn(st2, Client(j), ch2).value.clients[j].pc;
            && pc.WantMut?
            && (pc == WantMut(|st.sessions|)
                <==> forall i: nat :: i < st.clients[k].pc.pos ==> !Named(st2, st.clients[k].path, i))
  {
    var stored := schedule + [(Client(k), ch)];
    assert stored[..|schedule|] == schedule;
    assert Run(init, stored) == StepOn(st, Client(k), ch);
    InvAlways(init, stored + later);
    hide Run, Inv, ClientEffect, Named, Initial;
    NewSession(st, k);
    NamesStay(init, stored, later, |st.sessions|);
    JoinsNamed(st2, j, |st.sessions|, ch2);
  }

  lemma InPlace(st: State, sid: nat)
    requires Inv(st) && Live(st, sid)
    ensures st.sessions[sid].value.pos < |st.table| && st.table[st.sessions[sid].value.pos] == Some(sid)
    ensures forall i :: 0 <= i < |st.table| && st.table[i] == Some(sid) ==> i == st.sessions[sid].value.pos
  {
    hide LocksOk, HandsOk, CountsOk, SumOk, FreedOk, EpollOk, PendingOk, ClientsOk;
    assert InTable(st, sid);
  }

  lemma OneFirst(st: State, path: string, pos: nat)
    requires Named(st, path, pos)
    ensures FirstNamed(st, path, pos) <==> forall i: nat :: i < pos ==> !Named(st, path, i)
    ensures forall i: nat :: FirstNamed(st, path, pos) && FirstNamed(st, path, i) ==> i == pos
  {
  }
}
