/**
 Q connections on the event loop (q.rs, poll.rs): selector ids are reused slots, per-connection
 states are reused addresses, and a counter tells one attach from the next.

 Connections are numbered as they open; a connection's number, where it is, which subscription it
 became and how often its descriptor was closed are history.
 */
module Subscriptions {
  import opened Common
  import Slots

  /** Where a connection is: with a `QConnection`, registered at a slot, or closed. */
  datatype Place = Raw | At(id: nat) | Shut

  /** `sub` is the subscription the connection was attached as; a foreign one is not of this crate. */
  datatype Conn = Conn(foreign: bool, place: Place, sub: Option<nat>, closes: nat)

  /** A registered selector: the connection, and the address of the state allocated for it. */
  datatype Slot = Slot(conn: nat, data: nat)

  datatype Sub = Sub(id: nat, data: nat, token: nat, conn: nat, dropped: bool)

  datatype State = State(conns: seq<Conn>, slots: Slots.Table<Slot>, attached: map<nat, nat>, nextToken: nat,
                         subs: seq<Sub>)

  datatype Event =
    | Connect
    | DropRaw(conn: nat)
    | Attach(conn: nat, accepted: bool, data: nat)
    | DropSub(k: nat)
    | ForeignOpen(data: nat)
    | PeerClose(id: nat)

  const INITIAL := State([], [], map[], 1, [])

  // ---- the slot table and the claims ----

  /** `Poll::holds`. */
  predicate HoldsAt(slots: Slots.Table<Slot>, id: nat, data: nat)
  {
    Slots.At(slots, id).Some? && Slots.At(slots, id).value.data == data
  }

  predicate ClaimedBy(attached: map<nat, nat>, id: nat, token: nat)
  {
    id in attached && attached[id] == token
  }

  predicate IsAlive(st: State, s: Sub)
  {
    ClaimedBy(st.attached, s.id, s.token) && HoldsAt(st.slots, s.id, s.data)
  }

  function Released(attached: map<nat, nat>, id: nat, token: nat): map<nat, nat>
  {
    if ClaimedBy(attached, id, token) then attached - {id} else attached
  }

  // ---- steps ----

  /** The descriptor is closed. */
  function ShutConn(st: State, c: nat): State
    requires c < |st.conns|
  {
    st.(conns := st.conns[c := st.conns[c].(place := Shut, closes := st.conns[c].closes + 1)])
  }

  /** Slot `id` is deregistered and whatever was there closed. */
  function ShutSlot(st: State, id: nat): State
    requires Slots.At(st.slots, id).Some? ==> Slots.At(st.slots, id).value.conn < |st.conns|
  {
    if Slots.At(st.slots, id).None? then st
    else ShutConn(st, st.slots[id].value.conn).(slots := st.slots[id := None])
  }

  predicate Enabled(st: State, ev: Event)
  {
    match ev
    case Connect => true
    case DropRaw(c) => c < |st.conns| && st.conns[c].place == Raw && !st.conns[c].foreign
    case Attach(c, _, _) => c < |st.conns| && st.conns[c].place == Raw && !st.conns[c].foreign
    case DropSub(k) => k < |st.subs| && !st.subs[k].dropped
    case ForeignOpen(_) => true
    case PeerClose(id) => Slots.At(st.slots, id).Some?
  }

  /** `attach`, past the core's acceptance. */
  function AttachStep(st: State, c: nat, data: nat): State
    requires c < |st.conns|
  {
    var id := Slots.FirstFree(st.slots);
    var conns := st.conns[c := st.conns[c].(place := At(id), sub := Some(|st.subs|))];
    State(conns, Slots.Put(st.slots, Slot(c, data)), st.attached[id := st.nextToken], st.nextToken + 1,
          st.subs + [Sub(id, data, st.nextToken, c, false)])
  }

  function DropSubStep(st: State, k: nat): State
    requires k < |st.subs| && WellPlaced(st)
  {
    var s := st.subs[k];
    var closed := if IsAlive(st, s) then ShutSlot(st, s.id) else st;
    closed.(attached := Released(closed.attached, s.id, s.token), subs := st.subs[k := s.(dropped := true)])
  }

  function Step(st: State, ev: Event): State
    requires Enabled(st, ev) && WellPlaced(st)
  {
    match ev
    case Connect => st.(conns := st.conns + [Conn(false, Raw, None, 0)])
    case DropRaw(c) => ShutConn(st, c)
    case Attach(c, accepted, data) => if accepted then AttachStep(st, c, data) else ShutConn(st, c)
    case DropSub(k) => DropSubStep(st, k)
    case ForeignOpen(data) =>
      st.(conns := st.conns + [Conn(true, At(Slots.FirstFree(st.slots)), None, 0)],
          slots := Slots.Put(st.slots, Slot(|st.conns|, data)))
    case PeerClose(id) => ShutSlot(st, id)
  }

  // ---- what every step keeps ----

  /** Slots and connections point at each other. */
  predicate WellPlaced(st: State)
  {
    && (forall i :: 0 <= i < |st.slots| && st.slots[i].Some? ==>
          st.slots[i].value.conn < |st.conns| && st.conns[st.slots[i].value.conn].place == At(i))
    && (forall c :: 0 <= c < |st.conns| && st.conns[c].place.At? ==>
          var i := st.conns[c].place.id;
          i < |st.slots| && st.slots[i].Some? && st.slots[i].value.conn == c)
  }

  /** A descriptor has been closed once if its connection is closed, and never otherwise. */
  predicate ClosedOnce(st: State)
  {
    forall c :: 0 <= c < |st.conns| ==> st.conns[c].closes == if st.conns[c].place == Shut then 1 else 0
  }

  predicate SubOk(st: State, k: nat)
    requires k < |st.subs|
  {
    var s := st.subs[k];
    && s.token == k + 1 && s.conn < |st.conns|
    && st.conns[s.conn].sub == Some(k) && !st.conns[s.conn].foreign && st.conns[s.conn].place != Raw
  }

  /** A connection of ours at a slot is there just as the subscription it became says, and claimed. */
  predicate ConnOk(st: State, c: nat)
    requires c < |st.conns|
  {
    st.conns[c].place.At? && !st.conns[c].foreign ==>
      && st.conns[c].sub.Some? && st.conns[c].sub.value < |st.subs|
      && var s := st.subs[st.conns[c].sub.value];
         && !s.dropped && s.conn == c && s.id == st.conns[c].place.id
         && HoldsAt(st.slots, s.id, s.data) && ClaimedBy(st.attached, s.id, s.token)
  }

  predicate ClaimOk(st: State, id: nat)
    requires id in st.attached
  {
    && 1 <= st.attached[id] <= |st.subs|
    && !st.subs[st.attached[id] - 1].dropped && st.subs[st.attached[id] - 1].id == id
  }

  predicate Owned(st: State)
  {
    && st.nextToken == |st.subs| + 1
    && (forall k :: 0 <= k < |st.subs| ==> SubOk(st, k))
    && (forall c :: 0 <= c < |st.conns| ==> ConnOk(st, c))
  }

  predicate Claims(st: State)
  {
    forall id :: id in st.attached ==> ClaimOk(st, id)
  }

  predicate Sound(st: State)
  {
    WellPlaced(st) && ClosedOnce(st) && Owned(st) && Claims(st)
  }

  predicate Placed(st: State)
  {
    WellPlaced(st) && ClosedOnce(st)
  }

  lemma ShutConnPlaced(st: State, c: nat)
    requires Placed(st) && c < |st.conns| && st.conns[c].place == Raw
    ensures Placed(ShutConn(st, c))
  {}

  lemma ShutSlotPlaced(st: State, id: nat)
    requires Placed(st)
    ensures Placed(ShutSlot(st, id))
  {}

  /** Connection `c`, raw or new, is registered. */
  lemma RegisterPlaced(st: State, st': State, c: nat, data: nat)
    requires Placed(st) && c <= |st.conns| && |st'.conns| == (if c == |st.conns| then c + 1 else |st.conns|)
    requires c < |st.conns| ==> st.conns[c].place == Raw
    requires st'.slots == Slots.Put(st.slots, Slot(c, data))
    requires st'.conns[c].place == At(Slots.FirstFree(st.slots)) && st'.conns[c].closes == 0
    requires forall d :: 0 <= d < |st.conns| && d != c ==> st'.conns[d] == st.conns[d]
    ensures Placed(st')
  {}

  lemma PlacedStep(st: State, ev: Event)
    requires Sound(st) && Enabled(st, ev)
    ensures Placed(Step(st, ev))
  {
    match ev
    case Connect =>
    case DropRaw(c) => ShutConnPlaced(st, c);
    case Attach(c, accepted, data) =>
      if accepted { RegisterPlaced(st, Step(st, ev), c, data); } else { ShutConnPlaced(st, c); }
    case DropSub(k) => ShutSlotPlaced(st, st.subs[k].id);
    case ForeignOpen(data) => RegisterPlaced(st, Step(st, ev), |st.conns|, data);
    case PeerClose(id) => ShutSlotPlaced(st, id);
  }

  predicate Kept(st: State)
  {
    Owned(st) && Claims(st)
  }

  lemma ConnectKept(st: State)
    requires Sound(st)
    ensures Kept(Step(st, Connect))
  {
    var st' := Step(st, Connect);
    forall k | 0 <= k < |st'.subs| ensures SubOk(st', k) { assert SubOk(st, k); }
    forall c | 0 <= c < |st'.conns| ensures ConnOk(st', c) { if c < |st.conns| { assert ConnOk(st, c); } }
    forall i | i in st'.attached ensures ClaimOk(st', i) { assert ClaimOk(st, i); }
  }

  lemma ShutConnKept(st: State, c: nat)
    requires Sound(st) && c < |st.conns| && st.conns[c].place == Raw
    ensures Kept(ShutConn(st, c))
  {
    var st' := ShutConn(st, c);
    forall k | 0 <= k < |st'.subs| ensures SubOk(st', k) { assert SubOk(st, k); }
    forall d | 0 <= d < |st'.conns| ensures ConnOk(st', d) { assert ConnOk(st, d); }
    forall i | i in st'.attached ensures ClaimOk(st', i) { assert ClaimOk(st, i); }
  }

  lemma ShutSlotKept(st: State, id: nat)
    requires Sound(st)
    ensures Kept(ShutSlot(st, id))
  {
    var st' := ShutSlot(st, id);
    forall k | 0 <= k < |st'.subs| ensures SubOk(st', k) { assert SubOk(st, k); }
    forall c | 0 <= c < |st'.conns| ensures ConnOk(st', c) { assert ConnOk(st, c); }
    forall i | i in st'.attached ensures ClaimOk(st', i) { assert ClaimOk(st, i); }
  }

  lemma AttachKept(st: State, c: nat, data: nat)
    requires Sound(st) && c < |st.conns| && st.conns[c].place == Raw && !st.conns[c].foreign
    ensures Kept(AttachStep(st, c, data))
  {
    var st' := AttachStep(st, c, data);
    forall k | 0 <= k < |st'.subs| ensures SubOk(st', k) {
      if k < |st.subs| { assert SubOk(st, k); }
    }
    forall d | 0 <= d < |st'.conns| ensures ConnOk(st', d) {
      assert ConnOk(st, d);
    }
    forall id | id in st'.attached ensures ClaimOk(st', id) {
      if id != Slots.FirstFree(st.slots) { assert ClaimOk(st, id); }
    }
  }

  lemma ForeignKept(st: State, data: nat)
    requires Sound(st)
    ensures Kept(Step(st, ForeignOpen(data)))
  {
    var st' := Step(st, ForeignOpen(data));
    forall k | 0 <= k < |st'.subs| ensures SubOk(st', k) { assert SubOk(st, k); }
    forall c | 0 <= c < |st'.conns| ensures ConnOk(st', c) { if c < |st.conns| { assert ConnOk(st, c); } }
    forall i | i in st'.attached ensures ClaimOk(st', i) { assert ClaimOk(st, i); }
  }

  /** A dropped subscription's own connection is nowhere registered once what it held is shut. */
  lemma DropShuts(st: State, k: nat)
    requires Sound(st) && Enabled(st, DropSub(k))
    ensures st.subs[k].conn < |DropSubStep(st, k).conns|
    ensures !DropSubStep(st, k).conns[st.subs[k].conn].place.At?
  {
    assert SubOk(st, k) && ConnOk(st, st.subs[k].conn);
  }

  lemma DropKept(st: State, k: nat)
    requires Sound(st) && Enabled(st, DropSub(k))
    ensures Kept(DropSubStep(st, k))
  {
    var st', s := DropSubStep(st, k), st.subs[k];
    ShutSlotPlaced(st, s.id);
    ShutSlotKept(st, s.id);
    DropShuts(st, k);
    assert SubOk(st, k);
    var mid := if IsAlive(st, s) then ShutSlot(st, s.id) else st;
    forall j | 0 <= j < |st'.subs| ensures SubOk(st', j) {
      assert SubOk(mid, j);
    }
    forall c | 0 <= c < |st'.conns| ensures ConnOk(st', c) {
      assert ConnOk(mid, c);
      if st'.conns[c].place.At? && !st'.conns[c].foreign { assert SubOk(mid, mid.conns[c].sub.value); }
    }
    forall id | id in st'.attached ensures ClaimOk(st', id) {
      assert ClaimOk(mid, id);
    }
  }

  lemma SoundStep(st: State, ev: Event)
    requires Sound(st) && Enabled(st, ev)
    ensures Sound(Step(st, ev))
  {
    PlacedStep(st, ev);
    match ev
    case Connect => ConnectKept(st);
    case DropRaw(c) => ShutConnKept(st, c);
    case Attach(c, accepted, data) => if accepted { AttachKept(st, c, data); } else { ShutConnKept(st, c); }
    case DropSub(k) => DropKept(st, k);
    case ForeignOpen(data) => ForeignKept(st, data);
    case PeerClose(id) => ShutSlotKept(st, id);
  }

  // ---- whole runs ----

  predicate IsRun(st: State, evs: seq<Event>)
    requires Sound(st)
    decreases |evs|
  {
    evs == [] || (Enabled(st, evs[0]) && (SoundStep(st, evs[0]); IsRun(Step(st, evs[0]), evs[1..])))
  }

  function After(st: State, evs: seq<Event>): (r: State)
    requires Sound(st) && IsRun(st, evs)
    ensures Sound(r)
    decreases |evs|
  {
    if evs == [] then st else (SoundStep(st, evs[0]); After(Step(st, evs[0]), evs[1..]))
  }

  /** The state after a run of connects, attaches, closes by the peer and drops. */
  function Reached(evs: seq<Event>): (r: State)
    requires IsRun(INITIAL, evs)
    ensures Sound(r)
  {
    After(INITIAL, evs)
  }

  // ---- the guarantees ----

  /** The connection this subscription was attached with is registered. */
  predicate OwnRegistered(st: State, k: nat)
    requires k < |st.subs|
  {
    exists i :: 0 <= i < |st.slots| && st.slots[i].Some? && st.slots[i].value.conn == st.subs[k].conn
  }

  /** Handle `k` is not dropped, and nothing was attached at its id since. */
  predicate Latest(st: State, k: nat)
    requires k < |st.subs|
  {
    !st.subs[k].dropped && forall j :: k < j < |st.subs| ==> st.subs[j].id != st.subs[k].id
  }

  /** The map holds exactly the claims of the latest handles. */
  predicate Current(st: State)
  {
    forall k :: 0 <= k < |st.subs| ==> (ClaimedBy(st.attached, st.subs[k].id, st.subs[k].token) <==> Latest(st, k))
  }

  lemma AttachCurrent(st: State, c: nat, data: nat)
    requires Sound(st) && Current(st) && c < |st.conns|
    ensures Current(AttachStep(st, c, data))
  {
    var st' := AttachStep(st, c, data);
    var n := |st.subs|;
    forall k | 0 <= k < |st'.subs|
      ensures ClaimedBy(st'.attached, st'.subs[k].id, st'.subs[k].token) <==> Latest(st', k)
    {
      if k < n {
        assert SubOk(st, k);
        assert Latest(st', k) <==> Latest(st, k) && st'.subs[n].id != st.subs[k].id by {
          assert forall j :: k < j < n ==> st'.subs[j] == st.subs[j];
        }
      }
    }
  }

  lemma DropCurrent(st: State, k: nat)
    requires Sound(st) && Current(st) && Enabled(st, DropSub(k))
    ensures Current(DropSubStep(st, k))
  {
    var st' := DropSubStep(st, k);
    forall j | 0 <= j < |st'.subs|
      ensures ClaimedBy(st'.attached, st'.subs[j].id, st'.subs[j].token) <==> Latest(st', j)
    {
      assert SubOk(st, j) && SubOk(st, k);
      assert forall i :: 0 <= i < |st.subs| ==> st'.subs[i].id == st.subs[i].id;
      assert j != k ==> (Latest(st', j) <==> Latest(st, j));
    }
  }

  lemma CurrentStep(st: State, ev: Event)
    requires Sound(st) && Current(st) && Enabled(st, ev)
    ensures Current(Step(st, ev))
  {
    match ev
    case Attach(c, accepted, data) =>
      if accepted { AttachCurrent(st, c, data); } else { SameHandles(st, Step(st, ev)); }
    case DropSub(k) => DropCurrent(st, k);
    case _ => SameHandles(st, Step(st, ev));
  }

  lemma SameHandles(st: State, st': State)
    requires Current(st) && st'.subs == st.subs && st'.attached == st.attached
    ensures Current(st')
  {
    forall k | 0 <= k < |st.subs| ensures Latest(st', k) <==> Latest(st, k) {}
  }

  lemma {:induction false} RunCurrent(st: State, evs: seq<Event>)
    requires Sound(st) && Current(st) && IsRun(st, evs)
    ensures Current(After(st, evs))
    decreases |evs|
  {
    if evs != [] {
      SoundStep(st, evs[0]);
      CurrentStep(st, evs[0]);
      RunCurrent(Step(st, evs[0]), evs[1..]);
    }
  }

  /**
   A connection this crate did not attach sits at the id of a handle that is not dropped, with its
   state at that handle's address, and nothing was attached there since.
   */
  predicate Impostor(st: State, k: nat)
    requires k < |st.subs|
  {
    var s, at := st.subs[k], Slots.At(st.slots, st.subs[k].id);
    && Latest(st, k) && at.Some? && at.value.data == s.data
    && at.value.conn < |st.conns| && st.conns[at.value.conn].foreign
  }

  lemma OwnMeansAlive(st: State, k: nat, i: nat)
    requires Sound(st) && k < |st.subs| && i < |st.slots| && st.slots[i].Some?
    requires st.slots[i].value.conn == st.subs[k].conn
    ensures !st.subs[k].dropped && i == st.subs[k].id && IsAlive(st, st.subs[k])
  {
    assert SubOk(st, k) && ConnOk(st, st.subs[k].conn);
  }

  lemma AliveMeansOwn(st: State, k: nat)
    requires Sound(st) && Current(st) && k < |st.subs| && IsAlive(st, st.subs[k]) && !Impostor(st, k)
    ensures st.slots[st.subs[k].id].value.conn == st.subs[k].conn
  {
    var s := st.subs[k];
    var c := st.slots[s.id].value.conn;
    assert SubOk(st, k) && ConnOk(st, c);
    assert SubOk(st, st.conns[c].sub.value);
  }

  /**
   `is_alive`, on a handle not yet dropped, holds exactly when this subscription's own connection is
   registered, unless an impostor is there. For connections of this crate the counter rules one out.
   */
  lemma AliveExactly(evs: seq<Event>, k: nat)
    requires IsRun(INITIAL, evs) && k < |Reached(evs).subs|
    ensures var st := Reached(evs);
      && (IsAlive(st, st.subs[k]) <==> OwnRegistered(st, k) || Impostor(st, k))
      && !(OwnRegistered(st, k) && Impostor(st, k))
      && (IsAlive(st, st.subs[k]) && !Impostor(st, k) ==>
            st.slots[st.subs[k].id].value.conn == st.subs[k].conn)
  {
    var st := Reached(evs);
    RunCurrent(INITIAL, evs);
    assert SubOk(st, k);
    if i :| 0 <= i < |st.slots| && st.slots[i].Some? && st.slots[i].value.conn == st.subs[k].conn {
      OwnMeansAlive(st, k, i);
    }
    if IsAlive(st, st.subs[k]) && !Impostor(st, k) { AliveMeansOwn(st, k); }
  }

  /** Handle `j` is as alive as it was and keeps whatever claim it had. */
  predicate SameStanding(st: State, st': State, j: nat)
    requires j < |st.subs|
  {
    && j < |st'.subs| && st'.subs[j] == st.subs[j]
    && var s := st.subs[j];
       && (IsAlive(st', s) <==> IsAlive(st, s))
       && (ClaimedBy(st'.attached, s.id, s.token) <==> ClaimedBy(st.attached, s.id, s.token))
  }

  /**
   Dropping a subscription, stale or not, closes no connection but its own, and closes that if it is
   still open; every other handle is as alive as it was and keeps its claim.
   */
  lemma DropTouchesOwn(evs: seq<Event>, k: nat)
    requires IsRun(INITIAL, evs) && Enabled(Reached(evs), DropSub(k)) && !Impostor(Reached(evs), k)
    ensures var st, st' := Reached(evs), DropSubStep(Reached(evs), k);
      && st.subs[k].conn < |st.conns| == |st'.conns| && st'.conns[st.subs[k].conn].place == Shut
      && (forall c :: 0 <= c < |st.conns| && c != st.subs[k].conn ==> st'.conns[c] == st.conns[c])
      && (forall j :: 0 <= j < |st.subs| && j != k ==> SameStanding(st, st', j))
  {
    var st, st' := Reached(evs), DropSubStep(Reached(evs), k);
    RunCurrent(INITIAL, evs);
    assert SubOk(st, k);
    DropShuts(st, k);
    if IsAlive(st, st.subs[k]) { AliveMeansOwn(st, k); }
    assert ConnOk(st, st.subs[k].conn);
    forall j | 0 <= j < |st.subs| && j != k ensures SameStanding(st, st', j) {
      assert SubOk(st, j);
    }
  }

  // ---- runs in which none arises ----

  /** A connection of the core's own opens on the slot and the address of a latest handle. */
  predicate Lands(st: State, ev: Event)
  {
    && ev.ForeignOpen?
    && exists k ::
         && 0 <= k < |st.subs| && Latest(st, k)
         && st.subs[k].id == Slots.FirstFree(st.slots) && st.subs[k].data == ev.data
  }

  predicate NoneLands(st: State, evs: seq<Event>)
    requires Sound(st) && IsRun(st, evs)
    decreases |evs|
  {
    evs == [] || (!Lands(st, evs[0]) && (SoundStep(st, evs[0]); NoneLands(Step(st, evs[0]), evs[1..])))
  }

  predicate NoImpostors(st: State)
  {
    forall k :: 0 <= k < |st.subs| ==> !Impostor(st, k)
  }

  /** No handle becomes the latest at its id after it was superseded or dropped. */
  lemma LatestStep(st: State, ev: Event, k: nat)
    requires Sound(st) && Enabled(st, ev) && k < |st.subs|
    ensures k < |Step(st, ev).subs| && Step(st, ev).subs[k].id == st.subs[k].id
    ensures Step(st, ev).subs[k].data == st.subs[k].data
    ensures Latest(Step(st, ev), k) ==> Latest(st, k)
  {
    var st' := Step(st, ev);
    assert |st.subs| <= |st'.subs|;
    assert forall j :: 0 <= j < |st.subs| ==> st'.subs[j].id == st.subs[j].id && st'.subs[j].data == st.subs[j].data;
  }

  lemma NoImpostorsStep(st: State, ev: Event)
    requires Sound(st) && NoImpostors(st) && Enabled(st, ev) && !Lands(st, ev)
    ensures NoImpostors(Step(st, ev))
  {
    SoundStep(st, ev);
    forall k | 0 <= k < |Step(st, ev).subs| ensures !Impostor(Step(st, ev), k) {
      if k < |st.subs| {
        LatestStep(st, ev, k);
        assert !Impostor(st, k);
        if Latest(st, k) { SlotStep(st, ev, st.subs[k].id); }
      }
    }
  }

  /** A slot that holds a foreign connection after a step held it before, or it has just opened there. */
  lemma SlotStep(st: State, ev: Event, id: nat)
    requires Sound(st) && Enabled(st, ev)
    ensures var at, at' := Slots.At(st.slots, id), Slots.At(Step(st, ev).slots, id);
      at'.Some? && at'.value.conn < |Step(st, ev).conns| && Step(st, ev).conns[at'.value.conn].foreign ==>
        || (at' == at && at'.value.conn < |st.conns| && st.conns[at'.value.conn].foreign)
        || (ev.ForeignOpen? && id == Slots.FirstFree(st.slots) && at'.value.data == ev.data)
  {}

  lemma {:induction false} RunNoImpostors(st: State, evs: seq<Event>)
    requires Sound(st) && NoImpostors(st) && IsRun(st, evs) && NoneLands(st, evs)
    ensures NoImpostors(After(st, evs))
    decreases |evs|
  {
    if evs != [] {
      SoundStep(st, evs[0]);
      NoImpostorsStep(st, evs[0]);
      RunNoImpostors(Step(st, evs[0]), evs[1..]);
    }
  }

  /**
   In a run in which no connection of the core's own opens on both the id and the address of a handle
   that is the latest there, `is_alive` means that the handle's own connection is registered.
   */
  lemma AliveMeansRegistered(evs: seq<Event>, k: nat)
    requires IsRun(INITIAL, evs) && NoneLands(INITIAL, evs) && k < |Reached(evs).subs|
    ensures IsAlive(Reached(evs), Reached(evs).subs[k]) <==> OwnRegistered(Reached(evs), k)
  {
    RunNoImpostors(INITIAL, evs);
    AliveExactly(evs, k);
  }

  /** And in such a run no drop ever closes a connection other than its own. */
  lemma DropsTouchOwn(evs: seq<Event>, k: nat, c: nat)
    requires IsRun(INITIAL, evs) && NoneLands(INITIAL, evs) && Enabled(Reached(evs), DropSub(k))
    requires c < |Reached(evs).conns| && c != Reached(evs).subs[k].conn
    ensures c < |DropSubStep(Reached(evs), k).conns|
    ensures DropSubStep(Reached(evs), k).conns[c] == Reached(evs).conns[c]
  {
    RunNoImpostors(INITIAL, evs);
    DropTouchesOwn(evs, k);
  }

  /** With an impostor at its slot, a drop closes that one: the condition above is needed. */
  lemma ImpostorIsClosed(evs: seq<Event>, k: nat)
    requires IsRun(INITIAL, evs) && Enabled(Reached(evs), DropSub(k)) && Impostor(Reached(evs), k)
    ensures var st, st' := Reached(evs), DropSubStep(Reached(evs), k);
      var c := st.slots[st.subs[k].id].value.conn;
      c < |st.conns| == |st'.conns| && c != st.subs[k].conn && st.conns[c].closes == 0 && st'.conns[c].closes == 1
  {
    RunCurrent(INITIAL, evs);
    assert SubOk(Reached(evs), k);
  }

  // ---- descriptors over whole runs ----

  /** The event drops the `QConnection` of connection `c`, or attaches it, which consumes it. */
  predicate Spends(ev: Event, c: nat)
  {
    (ev.DropRaw? || ev.Attach?) && ev.conn == c
  }

  /** A drop, and an attach the core refuses, close the descriptor; an accepted one registers it. */
  lemma SpentExactly(st: State, c: nat, accepted: bool, data: nat)
    requires Sound(st) && c < |st.conns|
    ensures Enabled(st, DropRaw(c)) ==>
      Step(st, DropRaw(c)) == st.(conns := st.conns[c := st.conns[c].(place := Shut, closes := st.conns[c].closes + 1)])
    ensures Enabled(st, Attach(c, false, data)) ==>
      Step(st, Attach(c, false, data)) ==
        st.(conns := st.conns[c := st.conns[c].(place := Shut, closes := st.conns[c].closes + 1)])
    ensures Enabled(st, Attach(c, true, data)) ==>
      var st' := Step(st, Attach(c, true, data));
      && st'.conns[c].place == At(Slots.FirstFree(st.slots)) && st'.conns[c].closes == st.conns[c].closes
      && Slots.At(st'.slots, Slots.FirstFree(st.slots)) == Some(Slot(c, data))
      && |st'.subs| == |st.subs| + 1 && IsAlive(st', st'.subs[|st.subs|]) && st'.subs[|st.subs|].conn == c
  {}

  /** A connection that is not with a `QConnection` never is again. */
  lemma NotRawStep(st: State, ev: Event, c: nat)
    requires Sound(st) && Enabled(st, ev) && c < |st.conns|
    ensures c < |Step(st, ev).conns| && Step(st, ev).conns[c].foreign == st.conns[c].foreign
    ensures st.conns[c].place != Raw || Spends(ev, c) ==> Step(st, ev).conns[c].place != Raw
  {}

  lemma {:induction false} NotRawRun(st: State, evs: seq<Event>, c: nat)
    requires Sound(st) && IsRun(st, evs) && c < |st.conns|
    requires st.conns[c].place != Raw || exists i :: 0 <= i < |evs| && Spends(evs[i], c)
    ensures c < |After(st, evs).conns| && After(st, evs).conns[c].place != Raw
    decreases |evs|
  {
    if evs != [] {
      SoundStep(st, evs[0]);
      NotRawStep(st, evs[0], c);
      if st.conns[c].place == Raw {
        var i :| 0 <= i < |evs| && Spends(evs[i], c);
        assert i > 0 ==> Spends(evs[1..][i - 1], c);
      }
      NotRawRun(Step(st, evs[0]), evs[1..], c);
    }
  }

  /** The same from before the connection was opened. */
  lemma {:induction false} SpentRun(st: State, evs: seq<Event>, c: nat)
    requires Sound(st) && IsRun(st, evs) && c < |After(st, evs).conns|
    requires c >= |st.conns| || st.conns[c].place == Raw
    requires exists i :: 0 <= i < |evs| && Spends(evs[i], c)
    ensures After(st, evs).conns[c].place != Raw
    decreases |evs|
  {
    if c < |st.conns| {
      NotRawRun(st, evs, c);
    } else {
      var i :| 0 <= i < |evs| && Spends(evs[i], c);
      assert i > 0 by { assert Enabled(st, evs[0]); }
      SoundStep(st, evs[0]);
      assert Spends(evs[1..][i - 1], c);
      OneConnMore(st, evs[0]);
      if c < |Step(st, evs[0]).conns| { NotRawRun(Step(st, evs[0]), evs[1..], c); }
      else { SpentRun(Step(st, evs[0]), evs[1..], c); }
    }
  }

  lemma OneConnMore(st: State, ev: Event)
    requires Sound(st) && Enabled(st, ev)
    ensures |st.conns| <= |Step(st, ev).conns| <= |st.conns| + 1
  {}

  /**
   No descriptor is ever closed twice. And once a connection's `QConnection` was dropped or attached, and
   every subscription is dropped, its descriptor has been closed: by the drop, by the attach that failed, by
   the subscription, or by the loop when the peer went away.
   */
  lemma ClosedExactlyOnce(evs: seq<Event>, c: nat)
    requires IsRun(INITIAL, evs) && c < |Reached(evs).conns|
    ensures Reached(evs).conns[c].closes <= 1
    ensures (exists i :: 0 <= i < |evs| && Spends(evs[i], c)) &&
            (forall k :: 0 <= k < |Reached(evs).subs| ==> Reached(evs).subs[k].dropped) &&
            !Reached(evs).conns[c].foreign ==>
      Reached(evs).conns[c].closes == 1
  {
    assert ConnOk(Reached(evs), c);
    if exists i :: 0 <= i < |evs| && Spends(evs[i], c) { SpentRun(INITIAL, evs, c); }
  }

  /** Until a descriptor is closed it is with its `QConnection` or registered, so none is lost track of. */
  lemma OpenIsHeld(evs: seq<Event>, c: nat)
    requires IsRun(INITIAL, evs) && c < |Reached(evs).conns| && Reached(evs).conns[c].closes == 0
    ensures var st := Reached(evs);
      || st.conns[c].place == Raw
      || exists id :: 0 <= id < |st.slots| && st.slots[id].Some? && st.slots[id].value.conn == c
  {
    var st := Reached(evs);
    if st.conns[c].place.At? { assert st.slots[st.conns[c].place.id].value.conn == c; }
  }

  /** When the peer goes away the slot is empty, the connection closed, and its handle no longer alive. */
  lemma PeerCloseEnds(evs: seq<Event>, id: nat)
    requires IsRun(INITIAL, evs) && Enabled(Reached(evs), PeerClose(id))
    ensures var st, st' := Reached(evs), Step(Reached(evs), PeerClose(id));
      && Slots.At(st'.slots, id) == None && st.slots[id].value.conn < |st'.conns|
      && st'.conns[st.slots[id].value.conn].place == Shut
      && forall k :: 0 <= k < |st.subs| && st.subs[k].id == id ==> !IsAlive(st', st.subs[k])
  {}

  /** The subscriptions not yet dropped. */
  function Live(subs: seq<Sub>): set<nat>
  {
    set k | 0 <= k < |subs| && !subs[k].dropped
  }

  /** Handle `k`, undropped, has the claim on `id`. */
  predicate Claimant(st: State, id: nat, k: nat)
  {
    k in Live(st.subs) && st.subs[k].id == id && ClaimedBy(st.attached, id, st.subs[k].token)
  }

  /**
   Each entry of the selector map is the claim of exactly one undropped subscription, so the map is
   never larger than the number of handles, however often the program reconnects.
   */
  lemma ClaimsAreHandles(evs: seq<Event>)
    requires IsRun(INITIAL, evs)
    ensures var st := Reached(evs);
      && (forall id :: id in st.attached ==> exists k :: Claimant(st, id, k))
      && (forall id, j, k :: Claimant(st, id, j) && Claimant(st, id, k) ==> j == k)
      && |st.attached| <= |Live(st.subs)|
  {
    var st := Reached(evs);
    forall id | id in st.attached ensures Claimant(st, id, st.attached[id] - 1) {
      assert ClaimOk(st, id) && SubOk(st, st.attached[id] - 1);
    }
    forall id, j, k | Claimant(st, id, j) && Claimant(st, id, k) ensures j == k {
      assert SubOk(st, j) && SubOk(st, k);
    }
    forall a, b | a in st.attached && b in st.attached && st.attached[a] == st.attached[b] ensures a == b {
      assert ClaimOk(st, a) && ClaimOk(st, b);
    }
    Injection(st.attached, Live(st.subs));
  }

  lemma Injection(m: map<nat, nat>, live: set<nat>)
    requires forall id :: id in m ==> m[id] >= 1 && m[id] - 1 in live
    requires forall a, b :: a in m && b in m && m[a] == m[b] ==> a == b
    ensures |m| <= |live|
    decreases |m|
  {
    if m.Keys != {} {
      var id :| id in m;
      var rest := m - {id};
      assert |rest| < |m| by { assert rest.Keys == m.Keys - {id}; }
      Injection(rest, live - {m[id] - 1});
      assert |m| == |rest| + 1 by { assert m.Keys == rest.Keys + {id}; }
    }
  }

  // ---- an impostor ----

  lemma {:induction false} RunAppend(st: State, evs: seq<Event>, ev: Event)
    requires Sound(st) && IsRun(st, evs) && Enabled(After(st, evs), ev)
    ensures IsRun(st, evs + [ev]) && After(st, evs + [ev]) == Step(After(st, evs), ev)
    decreases |evs|
  {
    if evs == [] {
      SoundStep(st, ev);
      assert evs + [ev] == [ev];
    } else {
      SoundStep(st, evs[0]);
      RunAppend(Step(st, evs[0]), evs[1..], ev);
      assert (evs + [ev])[1..] == evs[1..] + [ev];
    }
  }

  /** A subscription whose peer has gone away. */
  function Stale(data: nat): seq<Event>
  {
    [Connect] + [Attach(0, true, data)] + [PeerClose(0)]
  }

  lemma StaleRuns(data: nat)
    ensures IsRun(INITIAL, Stale(data))
    ensures Reached(Stale(data)) ==
            State([Conn(false, Shut, Some(0), 1)], [None], map[0 := 1], 2, [Sub(0, data, 1, 0, false)])
  {
    RunAppend(INITIAL, [], Connect);
    assert [] + [Connect] == [Connect];
    RunAppend(INITIAL, [Connect], Attach(0, true, data));
    RunAppend(INITIAL, [Connect] + [Attach(0, true, data)], PeerClose(0));
  }

  /** A connection of the core's own can then land on the slot and on the address. */
  lemma ImpostorArises(data: nat)
    ensures var evs := Stale(data) + [ForeignOpen(data)];
      IsRun(INITIAL, evs) && |Reached(evs).subs| == 1 && Impostor(Reached(evs), 0)
  {
    StaleRuns(data);
    RunAppend(INITIAL, Stale(data), ForeignOpen(data));
  }
}
