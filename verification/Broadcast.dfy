/** A session's slots and the broadcast to its clients. The loop of `mediaCallBack` runs to the session's count
    and not over all slots, so who hears a packet depends on which slots are taken. */
module Broadcast {
  import opened Bytes
  import opened ClientRun
  import NalUnits
  import Slots
  import UdpRun

  const CLIENTMAX := 1024

  /** A client as the broadcast sees it: free when `sd` is -1. The queues are the contents of its two rings. */
  datatype Slot = Slot(sd: int, callBack: bool, playflag: int, cfg: Config, clientRtpPort: int, clientRtpPort1: int,
                       queue: seq<MediaPacket>, queue1: seq<MediaPacket>)

  predicate Free(c: Slot) {
    c.sd == -1
  }

  /** The test in `mediaCallBack`. */
  predicate Active(c: Slot) {
    c.sd != -1 && c.callBack && c.playflag == 1
  }

  predicate SetUp(c: Slot, track: Track) {
    if track == Video then c.cfg.sig0 != -1 || c.clientRtpPort != -1 else c.cfg.sig2 != -1 || c.clientRtpPort1 != -1
  }

  /** `sendData`, as the contract of `ClientInfo.ClientInfo.SendData` states it. */
  function Deliver(c: Slot, p: MediaPacket): Slot {
    if !SetUp(c, p.track) then c
    else if p.track == Audio && c.clientRtpPort1 != -1 then c.(queue1 := c.queue1 + [p])
    else c.(queue := c.queue + [p])
  }

  /** For a TCP client that is the callback step of its run. */
  lemma DeliverIsCallback(c: Slot, client: Client, p: MediaPacket)
    requires c.clientRtpPort == -1 == c.clientRtpPort1 && client.queue == c.queue
    ensures Deliver(c, p).queue == Step(c.cfg, client, Callback(p)).queue
  {
    assert client.queue + [] == client.queue;
  }

  /** For a UDP client it is the callback step of both its flows: the first ring is the video socket's, the second the
      audio socket's. */
  lemma DeliverIsFlow(c: Slot, video: UdpRun.Flow, audio: UdpRun.Flow, p: MediaPacket)
    requires c.cfg.sig0 == -1 == c.cfg.sig2
    requires video.client.queue == c.queue && audio.client.queue == c.queue1
    ensures var videoOnly := UdpRun.Alone(c.cfg, Video, c.clientRtpPort);
            var audioOnly := UdpRun.Alone(c.cfg, Audio, c.clientRtpPort1);
            && Deliver(c, p).queue == UdpRun.StepFlow(videoOnly, video, Callback(p)).client.queue
            && Deliver(c, p).queue1 == UdpRun.StepFlow(audioOnly, audio, Callback(p)).client.queue
  {
  }

  predicate Hears(before: Slot, after: Slot, p: MediaPacket) {
    after == Deliver(before, p) != before
  }

  function Taken(slots: seq<Slot>): nat {
    Slots.Count(slots, Free)
  }

  /** The taken slots are the first `count`. */
  ghost predicate Packed(slots: seq<Slot>, count: int) {
    0 <= count <= |slots| && forall i :: 0 <= i < |slots| ==> (Free(slots[i]) <==> count <= i)
  }

  /** The slots taken beyond the count are as many as the free ones below it. */
  lemma MissedAreHoles(slots: seq<Slot>)
    ensures Taken(slots) <= |slots|
    ensures var count := Taken(slots); Taken(slots[count..]) == count - Taken(slots[..count])
  {
    Slots.CountBelow(slots, Free, |slots|);
    assert slots[..|slots|] == slots;
    Slots.CountSplit(slots, Free, Taken(slots));
  }

  /** Nobody is beyond the count exactly when the taken slots are the first ones. */
  lemma NobodyMissedIffPacked(slots: seq<Slot>)
    ensures Taken(slots) <= |slots|
    ensures Packed(slots, Taken(slots)) <==> forall i :: Taken(slots) <= i < |slots| ==> Free(slots[i])
  {
    var count := Taken(slots);
    MissedAreHoles(slots);
    Slots.CountBelow(slots, Free, count);
    var rest := slots[count..];
    if forall i :: count <= i < |slots| ==> Free(slots[i]) {
      Slots.CountNone(rest, Free);
    }
  }

  // ---------------------------------------------------------------- one callback

  /** Every slot after the callback: the active ones below the count have been sent the packet. */
  function Broadcasted(slots: seq<Slot>, count: int, p: MediaPacket): (after: seq<Slot>)
    ensures |after| == |slots|
    ensures forall i :: 0 <= i < |slots| ==>
              after[i] == if i < count && Active(slots[i]) then Deliver(slots[i], p) else slots[i]
  {
    seq(|slots|, i requires 0 <= i < |slots| => if i < count && Active(slots[i]) then Deliver(slots[i], p) else slots[i])
  }

  /** Every active client whose track is set up hears the packet. */
  ghost predicate AllHear(slots: seq<Slot>, count: int, p: MediaPacket) {
    forall i :: 0 <= i < |slots| && Active(slots[i]) && SetUp(slots[i], p.track) ==>
      Hears(slots[i], Broadcasted(slots, count, p)[i], p)
  }

  /** A free slot, or a client that plays and has set up a track. */
  predicate Settled(c: Slot) {
    Free(c) || (Active(c) && (SetUp(c, Video) || SetUp(c, Audio)))
  }

  /** A client beyond the count does not hear of one of its tracks. */
  lemma PassedBy(slots: seq<Slot>, count: int, i: nat, p: MediaPacket)
    requires i < |slots| && count <= i && Active(slots[i]) && SetUp(slots[i], p.track)
    ensures !AllHear(slots, count, p)
  {
    hide SetUp, Deliver, Active;
    assert Broadcasted(slots, count, p)[i] == slots[i];
    assert !Hears(slots[i], slots[i], p);
  }

  lemma Heard(slots: seq<Slot>, count: nat, p: MediaPacket)
    requires forall i :: count <= i < |slots| ==> !Active(slots[i])
    ensures AllHear(slots, count, p)
  {
    forall i | 0 <= i < |slots| && Active(slots[i]) && SetUp(slots[i], p.track)
      ensures Hears(slots[i], Broadcasted(slots, count, p)[i], p)
    {
      DeliverShows(slots[i], p);
    }
  }

  lemma DeliverShows(c: Slot, p: MediaPacket)
    requires SetUp(c, p.track)
    ensures Deliver(c, p) != c
  {
    assert Deliver(c, p).queue != c.queue || Deliver(c, p).queue1 != c.queue1;
  }

  /** Callbacks reach every client of the session exactly when the clients are in the first slots. */
  lemma Coverage(slots: seq<Slot>, video: seq<byte>, audio: seq<byte>)
    requires forall i :: 0 <= i < |slots| ==> Settled(slots[i])
    ensures var count := Taken(slots);
            AllHear(slots, count, MediaPacket(Video, video)) && AllHear(slots, count, MediaPacket(Audio, audio))
            <==> Packed(slots, count)
  {
    hide AllHear, Packed, Taken;
    var count := Taken(slots);
    NobodyMissedIffPacked(slots);
    if i :| count <= i < |slots| && !Free(slots[i]) {
      var p := if SetUp(slots[i], Video) then MediaPacket(Video, video) else MediaPacket(Audio, audio);
      PassedBy(slots, count, i, p);
    } else {
      Heard(slots, count, MediaPacket(Video, video));
      Heard(slots, count, MediaPacket(Audio, audio));
    }
  }

  // ---------------------------------------------------------------- clients come and go

  /** The place of a new client: the lowest free slot, or the number of slots. */
  function LowestFree(slots: seq<Slot>, from: nat): (i: nat)
    requires from <= |slots|
    ensures from <= i <= |slots|
    ensures i < |slots| ==> Free(slots[i])
    ensures forall j :: from <= j < i ==> !Free(slots[j])
  {
    Slots.Lowest(slots, Free, from)
  }

  /** What `addClient` puts into a slot. A TCP client has no ports, a UDP client no channels. */
  function NewClient(sd: int, cfg: Config, port: int, port1: int): Slot {
    Slot(sd, true, 1, cfg, port, port1, [], [])
  }

  /** `clearClient`. It leaves a socket that is not positive as it is. */
  function Cleared(c: Slot): Slot {
    Slot(if c.sd > 0 then -1 else c.sd, false, -1, c.cfg.(sig0 := -1, sig2 := -1), -1, -1, [], [])
  }

  lemma JoinKeepsPacked(slots: seq<Slot>, count: nat, c: Slot)
    requires Packed(slots, count) && count < |slots| && !Free(c)
    ensures LowestFree(slots, 0) == count
    ensures Packed(slots[count := c], count + 1)
  {
    assert Free(slots[count]);
    var i := LowestFree(slots, 0);
    assert i == |slots| || Free(slots[i]);
    assert i <= count;
  }

  /** A departure keeps the clients in the first slots exactly when it is the last of them that leaves. */
  lemma LeaveKeepsPacked(slots: seq<Slot>, count: nat, i: nat)
    requires Packed(slots, count) && i < count && slots[i].sd > 0
    ensures Packed(slots[i := Cleared(slots[i])], count - 1) <==> i == count - 1
  {
    var after := slots[i := Cleared(slots[i])];
    assert Free(after[i]);
    if i != count - 1 {
      assert !Free(after[count - 1]);
    }
  }

  datatype Change = Join(c: Slot) | Leave(i: nat) | Sends(p: MediaPacket)

  /** The slots after some changes, the newest last. A client that finds no free slot is turned away. */
  function After(changes: seq<Change>): (slots: seq<Slot>)
    ensures |slots| == CLIENTMAX
  {
    if changes == [] then seq(CLIENTMAX, _ => NOBODY)
    else Changed(After(changes[..|changes| - 1]), changes[|changes| - 1])
  }

  const NOBODY := Slot(-1, false, -1, Config(NalUnits.H264, AAC, -1, -1), -1, -1, [], [])

  function Changed(slots: seq<Slot>, change: Change): (after: seq<Slot>)
    ensures |after| == |slots|
  {
    match change
    case Join(c) =>
      var i := LowestFree(slots, 0);
      if i < |slots| then slots[i := c] else slots
    case Leave(i) => if i < |slots| then slots[i := Cleared(slots[i])] else slots
    case Sends(p) => Broadcasted(slots, Taken(slots), p)
  }

  /** Clients join with a socket above zero, playing; only clients leave. */
  predicate Sensible(slots: seq<Slot>, change: Change) {
    match change
    case Join(c) => c.sd > 0 && Active(c)
    case Leave(i) => i < |slots| && !Free(slots[i])
    case Sends(_) => true
  }

  predicate AllSensible(changes: seq<Change>) {
    changes == [] ||
    (AllSensible(changes[..|changes| - 1]) && Sensible(After(changes[..|changes| - 1]), changes[|changes| - 1]))
  }

  predicate Sound(c: Slot) {
    Free(c) || (c.sd > 0 && Active(c))
  }

  lemma {:induction false} AlwaysSound(changes: seq<Change>)
    requires AllSensible(changes)
    ensures forall c <- After(changes) :: Sound(c)
  {
    if changes == [] {
    } else {
      var slots := After(changes[..|changes| - 1]);
      AlwaysSound(changes[..|changes| - 1]);
      assert forall i :: 0 <= i < |slots| ==> Sound(slots[i]);
    }
  }

  /** Whoever left was at that time the client in the highest taken slot. */
  predicate LeftFromTop(changes: seq<Change>) {
    changes == [] ||
    var slots := After(changes[..|changes| - 1]);
    var change := changes[|changes| - 1];
    LeftFromTop(changes[..|changes| - 1]) && (change.Leave? ==> change.i == Taken(slots) - 1)
  }

  ghost predicate AlwaysPacked(changes: seq<Change>) {
    Packed(After(changes), Taken(After(changes))) && (changes == [] || AlwaysPacked(changes[..|changes| - 1]))
  }

  lemma {:induction false} TakenBroadcasted(slots: seq<Slot>, count: int, p: MediaPacket)
    ensures Taken(Broadcasted(slots, count, p)) == Taken(slots)
  {
    if slots != [] {
      var n := |slots| - 1;
      assert Broadcasted(slots, count, p)[..n] == Broadcasted(slots[..n], count, p);
      TakenBroadcasted(slots[..n], count, p);
    }
  }

  /** One change to a packed session keeps it packed, unless a client leaves that is not the last. */
  lemma ChangeKeepsPacked(slots: seq<Slot>, change: Change)
    requires Packed(slots, Taken(slots)) && Sensible(slots, change) && forall c <- slots :: Sound(c)
    ensures var after := Changed(slots, change);
            Packed(after, Taken(after)) <==> (change.Leave? ==> change.i == Taken(slots) - 1)
  {
    var count := Taken(slots);
    match change
    case Join(c) =>
      if count < |slots| {
        JoinKeepsPacked(slots, count, c);
        Slots.CountUpdate(slots, Free, count, c);
      }
    case Leave(i) =>
      assert Sound(slots[i]);
      LeaveKeepsPacked(slots, count, i);
      Slots.CountUpdate(slots, Free, i, Cleared(slots[i]));
    case Sends(p) =>
      TakenBroadcasted(slots, count, p);
  }

  /** The clients of a session are in its first slots at all times exactly when the last of them is always the one
      to leave. */
  lemma {:induction false} PackedIffLeftFromTop(changes: seq<Change>)
    requires AllSensible(changes)
    ensures AlwaysPacked(changes) <==> LeftFromTop(changes)
  {
    if changes == [] {
      Slots.CountNone(After([]), Free);
    } else {
      var earlier := changes[..|changes| - 1];
      PackedIffLeftFromTop(earlier);
      AlwaysSound(earlier);
      if AlwaysPacked(earlier) {
        ChangeKeepsPacked(After(earlier), changes[|changes| - 1]);
      }
    }
  }

  /** When another than the last client leaves, the last one is sent nothing more, though it still plays: its slot
      is beyond the count, until a new client fills the gap. */
  lemma LastClientGoesSilent(slots: seq<Slot>, i: nat, p: MediaPacket)
    requires Packed(slots, Taken(slots)) && i < Taken(slots) - 1 && forall c <- slots :: Sound(c)
    ensures var last := Taken(slots) - 1;
            var after := Changed(slots, Leave(i));
            Active(after[last]) && Changed(after, Sends(p))[last] == after[last] == slots[last]
  {
    assert Sound(slots[i]);
    Slots.CountUpdate(slots, Free, i, Cleared(slots[i]));
    assert !Free(slots[Taken(slots) - 1]);
    assert Sound(slots[Taken(slots) - 1]);
  }

  // ---------------------------------------------------------------- clients stay in step

  /** What a client has been sent after a list of callbacks. */
  function DeliverAll(c: Slot, later: seq<Change>): Slot {
    if later == [] then c
    else
      var before := DeliverAll(c, later[..|later| - 1]);
      if later[|later| - 1].Sends? then Deliver(before, later[|later| - 1].p) else before
  }

  /** How much a client holds, in both rings. */
  function Load(c: Slot): nat {
    |c.queue| + |c.queue1|
  }

  /** The two differ at most in what their rings hold. */
  predicate SameButRings(c: Slot, d: Slot) {
    d == c.(queue := d.queue, queue1 := d.queue1)
  }

  /** Every packet of the client's tracks came while its slot was below the count. */
  ghost predicate Reached(changes: seq<Change>, later: seq<Change>, i: nat)
    requires i < CLIENTMAX
  {
    forall k :: 0 <= k < |later| && later[k].Sends? && SetUp(After(changes)[i], later[k].p.track)
      ==> i < Taken(After(changes + later[..k]))
  }

  /** One change, seen from the slot of a client that stays. */
  lemma ChangeForOne(slots: seq<Slot>, change: Change, i: nat)
    requires change != Leave(i) && i < |slots| && !Free(slots[i]) && Active(slots[i])
    ensures Changed(slots, change)[i]
         == if change.Sends? && i < Taken(slots) then Deliver(slots[i], change.p) else slots[i]
  {
    hide Deliver, SetUp, Taken;
  }

  lemma DeliverLoads(c: Slot, p: MediaPacket)
    ensures SameButRings(c, Deliver(c, p))
    ensures Load(Deliver(c, p)) == Load(c) + if SetUp(c, p.track) then 1 else 0
    ensures !SetUp(c, p.track) ==> Deliver(c, p) == c
  {
  }

  /** What one change does to a client `a` and to the same client `d` that has missed nothing. */
  lemma StepOfOne(a: Slot, d: Slot, change: Change, below: bool)
    requires SameButRings(a, d)
    ensures var a' := if change.Sends? && below then Deliver(a, change.p) else a;
            var d' := if change.Sends? then Deliver(d, change.p) else d;
            var missed := change.Sends? && SetUp(a, change.p.track) && !below;
            && SameButRings(a', d') && SameButRings(a, a')
            && (a == d && !missed ==> a' == d')
            && Load(d') - Load(a') == Load(d) - Load(a) + if missed then 1 else 0
  {
    if change.Sends? {
      DeliverLoads(a, change.p);
      DeliverLoads(d, change.p);
    }
  }

  lemma ReachedStep(changes: seq<Change>, later: seq<Change>, i: nat)
    requires i < CLIENTMAX && later != []
    ensures var n := |later| - 1;
            Reached(changes, later, i) <==>
              && Reached(changes, later[..n], i)
              && !(later[n].Sends? && SetUp(After(changes)[i], later[n].p.track) && Taken(After(changes + later[..n])) <= i)
  {
    hide SetUp, Taken, After;
    var n := |later| - 1;
    assert forall k :: 0 <= k < n ==> later[..n][..k] == later[..k];
    if Reached(changes, later, i) {
      forall k | 0 <= k < n && later[..n][k].Sends? && SetUp(After(changes)[i], later[..n][k].p.track)
        ensures i < Taken(After(changes + later[..n][..k]))
      {
        assert later[k] == later[..n][k];
      }
    }
    if Reached(changes, later[..n], i) {
      assert forall k :: 0 <= k < n ==> later[..n][k] == later[k];
    }
  }

  /** A client that stays differs from one that has missed nothing at most in its rings, and holds less by one for
      every packet that it has missed. */
  lemma {:induction false} FallsBehind(changes: seq<Change>, later: seq<Change>, i: nat)
    requires AllSensible(changes + later) && i < CLIENTMAX && !Free(After(changes)[i]) && Leave(i) !in later
    ensures var a, d := After(changes + later)[i], DeliverAll(After(changes)[i], later);
            && SameButRings(After(changes)[i], a) && SameButRings(a, d)
            && (Reached(changes, later, i) ==> a == d)
            && (!Reached(changes, later, i) ==> Load(a) < Load(d))
            && Load(a) <= Load(d)
  {
    hide Changed, Sensible, Taken, SetUp, Deliver, Load, Reached, LowestFree;
    var all := changes + later;
    if later == [] {
      assert all == changes;
      NothingMissed(changes, i);
    } else {
      var n := |later| - 1;
      var earlier := changes + later[..n];
      assert all[..|all| - 1] == earlier && all[|all| - 1] == later[n];
      FallsBehind(changes, later[..n], i);
      AlwaysSound(earlier);
      assert Sound(After(earlier)[i]);
      var a, d := After(earlier)[i], DeliverAll(After(changes)[i], later[..n]);
      ChangeForOne(After(earlier), later[n], i);
      StepOfOne(a, d, later[n], i < Taken(After(earlier)));
      ReachedStep(changes, later, i);
      SameTracks(After(changes)[i], a);
    }
  }

  lemma NothingMissed(changes: seq<Change>, i: nat)
    requires i < CLIENTMAX
    ensures Reached(changes, [], i)
  {
  }

  lemma SameTracks(c: Slot, d: Slot)
    requires SameButRings(c, d)
    ensures forall track :: SetUp(d, track) == SetUp(c, track)
  {
  }

  /** Over any history, a client that stays has been sent every packet of its tracks, in order, exactly when each of
      them came while the client's slot was below the count. */
  lemma StaysInStep(changes: seq<Change>, later: seq<Change>, i: nat)
    requires AllSensible(changes + later) && i < CLIENTMAX && !Free(After(changes)[i]) && Leave(i) !in later
    ensures After(changes + later)[i] == DeliverAll(After(changes)[i], later) <==> Reached(changes, later, i)
  {
    hide After, DeliverAll, Reached;
    FallsBehind(changes, later, i);
  }

  /** So it is when whoever left was at that time in the highest taken slot. */
  lemma StaysInStepWhilePacked(changes: seq<Change>, later: seq<Change>, i: nat)
    requires AllSensible(changes + later) && LeftFromTop(changes + later)
    requires i < CLIENTMAX && !Free(After(changes)[i]) && Leave(i) !in later
    ensures After(changes + later)[i] == DeliverAll(After(changes)[i], later)
  {
    forall k | 0 <= k <= |later|
      ensures i < Taken(After(changes + later[..k]))
    {
      SensiblePrefix(changes + later, |changes| + k);
      assert (changes + later)[..|changes| + k] == changes + later[..k];
      FallsBehind(changes, later[..k], i);
      PackedIffLeftFromTop(changes + later[..k]);
    }
    StaysInStep(changes, later, i);
  }

  lemma {:induction false} SensiblePrefix(changes: seq<Change>, n: nat)
    requires n <= |changes| && AllSensible(changes)
    ensures AllSensible(changes[..n])
    ensures LeftFromTop(changes) ==> LeftFromTop(changes[..n])
    decreases |changes|
  {
    if n < |changes| {
      var m := |changes| - 1;
      assert changes[..m][..n] == changes[..n];
      SensiblePrefix(changes[..m], n);
    } else {
      assert changes[..n] == changes;
    }
  }

  // ---------------------------------------------------------------- the session of the source

  class Session {
    const clientinfo: array<Slot>
    var count: int

    ghost predicate Valid()
      reads this, clientinfo
    {
      && clientinfo.Length == CLIENTMAX
      && count == Taken(clientinfo[..])
      && forall i :: 0 <= i < CLIENTMAX ==> Sound(clientinfo[i])
    }

    constructor ()
      ensures Valid() && fresh(clientinfo) && count == 0
      ensures clientinfo[..] == After([])
    {
      clientinfo := new Slot[CLIENTMAX](_ => NOBODY);
      count := 0;
      new;
      assert clientinfo[..] == After([]);
      Slots.CountNone(clientinfo[..], Free);
    }

    /** `mediaCallBack`: the packet goes to the active clients below the count. */
    method MediaCallBack(p: MediaPacket)
      requires Valid()
      modifies clientinfo
      ensures Valid() && clientinfo[..] == Changed(old(clientinfo[..]), Sends(p))
      ensures forall i :: 0 <= i < CLIENTMAX ==>
                var c := old(clientinfo[i]);
                clientinfo[i] == if i < count && c.sd != -1 && c.callBack && c.playflag == 1 then Deliver(c, p) else c
    {
      ghost var slots := clientinfo[..];
      Slots.CountBelow(slots, Free, CLIENTMAX);
      assert slots[..CLIENTMAX] == slots;
      var i := 0;
      while i < count
        invariant 0 <= i <= count
        invariant clientinfo[..] == Broadcasted(slots, i, p)
      {
        if clientinfo[i].sd != -1 && clientinfo[i].callBack && clientinfo[i].playflag == 1 {
          clientinfo[i] := Deliver(clientinfo[i], p);
        }
        i := i + 1;
      }
      TakenBroadcasted(slots, count, p);
    }

    /** The lowest free slot, or -1. */
    method GetFreeClientInfo() returns (r: int)
      requires Valid()
      ensures r == (if LowestFree(clientinfo[..], 0) < CLIENTMAX then LowestFree(clientinfo[..], 0) else -1)
    {
      var i := 0;
      while i < CLIENTMAX
        invariant 0 <= i <= CLIENTMAX
        invariant LowestFree(clientinfo[..], 0) == LowestFree(clientinfo[..], i)
      {
        if clientinfo[i].sd == -1 {
          return i;
        }
        i := i + 1;
      }
      return -1;
    }

    /** What `addClient` does to the session it found, and `addSession` to a new one. */
    method AddClient(sd: int, cfg: Config, port: int, port1: int) returns (ok: bool)
      requires Valid() && sd > 0
      modifies this`count, clientinfo
      ensures Valid() && clientinfo[..] == Changed(old(clientinfo[..]), Join(NewClient(sd, cfg, port, port1)))
      ensures ok <==> old(count) < 1024
      ensures count == old(count) + if ok then 1 else 0
      ensures !ok ==> clientinfo[..] == old(clientinfo[..]) && forall j :: 0 <= j < CLIENTMAX ==> !Free(clientinfo[j])
      ensures ok ==> exists i: nat :: && i < CLIENTMAX
                                      && old(Free(clientinfo[i])) && (forall j :: 0 <= j < i ==> old(!Free(clientinfo[j])))
                                      && clientinfo[..] == old(clientinfo[..])[i := clientinfo[i]]
                                      && var c := clientinfo[i];
                                      && c.sd == sd && c.cfg == cfg && c.clientRtpPort == port && c.clientRtpPort1 == port1
                                      && c.callBack && c.playflag == 1 && c.queue == [] == c.queue1
    {
      ghost var slots := clientinfo[..];
      Slots.CountBelow(slots, Free, CLIENTMAX);
      assert slots[..CLIENTMAX] == slots;
      var i := GetFreeClientInfo();
      if i < 0 {
        return false;
      }
      Slots.CountUpdate(slots, Free, i, NewClient(sd, cfg, port, port1));
      clientinfo[i] := NewClient(sd, cfg, port, port1);
      count := count + 1;
      assert clientinfo[..] == slots[i := NewClient(sd, cfg, port, port1)];
      return true;
    }

    /** What the epoll thread does to the session of a client whose send failed. */
    method DropClient(i: nat) returns (left: int)
      requires Valid() && i < CLIENTMAX && !Free(clientinfo[i])
      modifies this`count, clientinfo
      ensures Valid() && clientinfo[..] == Changed(old(clientinfo[..]), Leave(i))
      ensures left == count == old(count) - 1
      ensures clientinfo[..] == old(clientinfo[..])[i := clientinfo[i]]
      ensures var c := clientinfo[i];
              && c.sd == -1 && !c.callBack && c.playflag == -1 && c.cfg.sig0 == -1 == c.cfg.sig2
              && c.clientRtpPort == -1 == c.clientRtpPort1 && c.queue == [] == c.queue1
    {
      ghost var slots := clientinfo[..];
      Slots.CountUpdate(slots, Free, i, Cleared(slots[i]));
      clientinfo[i] := Cleared(clientinfo[i]);
      count := count - 1;
      left := count;
      assert clientinfo[..] == slots[i := Cleared(slots[i])];
    }
  }
}
