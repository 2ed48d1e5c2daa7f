/**
 Rayforce IPC clients (ipc.rs): a client holds a slot index, and the core may free the slot under it.

 The connection a client opened, and which connection each core call reached, are history.
 */
module TcpClients {
  import opened Common
  import opened Slots

  /** The handle a client holds once the core has closed its connection. */
  const CLOSED: int := -1

  /** A client: its handle, and the connection it opened. */
  datatype Client = Client(handle: int, conn: nat, dropped: bool)

  /** A core call made with a client's handle, and the connection it reached, if any. */
  datatype CoreCall = CoreCall(client: nat, reached: Option<nat>)

  /** The poll's table of connections, the clients, and every call made through one of them. */
  datatype State = State(slots: Table<nat>, born: nat, clients: seq<Client>, calls: seq<CoreCall>)

  datatype Reply = Value | Error | Null

  datatype Event =
    | Connect(accepted: bool)
    | RoundTrip(k: nat, reply: Reply, freed: bool, pushed: nat)
    | SendAsync(k: nat, accepted: bool)
    | Drop(k: nat)
    | ForeignOpen
    | CoreFree(id: nat)

  const INITIAL := State([], 0, [], [])

  // ---- the table ----

  /** `n` connections opened one after the other, numbered from `c`. */
  function PutMany(slots: Table<nat>, c: nat, n: nat): Table<nat>
    decreases n
  {
    if n == 0 then slots else PutMany(Put(slots, c), c + 1, n - 1)
  }

  /** Opening connections moves none that is there, and brings in only new ones. */
  lemma {:induction false} PutManyKeeps(slots: Table<nat>, c: nat, n: nat)
    ensures var r := PutMany(slots, c, n);
      && |slots| <= |r|
      && (forall i :: 0 <= i < |slots| && slots[i].Some? ==> r[i] == slots[i])
      && (forall i :: 0 <= i < |r| && r[i].Some? && r[i].value < c ==> i < |slots| && r[i] == slots[i])
    decreases n
  {
    if n > 0 { PutManyKeeps(Put(slots, c), c + 1, n - 1); }
  }

  function Closed(slots: Table<nat>, handle: int): Table<nat>
  {
    if 0 <= handle < |slots| then slots[handle := None] else slots
  }

  // ---- steps ----

  predicate Usable(st: State, k: nat)
  {
    k < |st.clients| && !st.clients[k].dropped
  }

  predicate Enabled(st: State, ev: Event)
  {
    match ev
    case Connect(_) => true
    case RoundTrip(k, _, _, _) => Usable(st, k)
    case SendAsync(k, _) => Usable(st, k)
    case Drop(k) => Usable(st, k)
    case ForeignOpen => true
    case CoreFree(id) => At(st.slots, id).Some?
  }

  function Called(st: State, k: nat): State
    requires k < |st.clients|
  {
    st.(calls := st.calls + [CoreCall(k, At(st.slots, st.clients[k].handle))])
  }

  /**
   The table after one exchange on `handle`: the core may have freed the slot (`freed`), and frames
   pushed meanwhile may have opened connections (`pushed`).
   */
  function Exchanged(slots: Table<nat>, born: nat, handle: int, freed: bool, pushed: nat): Table<nat>
  {
    PutMany(if freed then Closed(slots, handle) else slots, born, pushed)
  }

  /** The handle afterwards: the client looks at the slot only if the reply is an error. */
  function Kept(slots: Table<nat>, handle: int, reply: Reply): int
  {
    if reply == Error && At(slots, handle).None? then CLOSED else handle
  }

  function ExchangeStep(st: State, k: nat, reply: Reply, freed: bool, pushed: nat): State
    requires k < |st.clients|
  {
    var h := st.clients[k].handle;
    var slots := Exchanged(st.slots, st.born, h, freed, pushed);
    Called(st, k).(slots := slots, born := st.born + pushed,
                   clients := st.clients[k := st.clients[k].(handle := Kept(slots, h, reply))])
  }

  function Step(st: State, ev: Event): State
    requires Enabled(st, ev)
  {
    match ev
    case Connect(accepted) =>
      if !accepted then st
      else
        var h := FirstFree(st.slots);
        st.(slots := Put(st.slots, st.born), born := st.born + 1,
            clients := st.clients + [Client(h, st.born, false)])
    case RoundTrip(k, reply, freed, pushed) =>
      if st.clients[k].handle == CLOSED then st else ExchangeStep(st, k, reply, freed, pushed)
    case SendAsync(k, _) => if st.clients[k].handle == CLOSED then st else Called(st, k)
    case Drop(k) =>
      var gone := st.(clients := st.clients[k := st.clients[k].(dropped := true)]);
      if st.clients[k].handle == CLOSED then gone
      else gone.(slots := Closed(st.slots, st.clients[k].handle), calls := Called(st, k).calls)
    case ForeignOpen => st.(slots := Put(st.slots, st.born), born := st.born + 1)
    case CoreFree(id) => st.(slots := st.slots[id := None])
  }

  // ---- the core's contract ----

  /** The freed slot stays free until the client looks: whatever was opened meanwhile went elsewhere. */
  predicate StaysFree(st: State, k: nat, pushed: nat)
    requires k < |st.clients|
  {
    var h := st.clients[k].handle;
    At(PutMany(Closed(st.slots, h), st.born, pushed), h).None?
  }

  /**
   What is asked of the core. It frees a slot an open client has only in an exchange on it that it
   answers with an error object, and the exchange itself does not hand the slot to a connection it
   opens. Between exchanges, and in calls of other clients, it frees no such slot.
   */
  predicate Contract(st: State, ev: Event)
    requires Enabled(st, ev)
  {
    && (ev.RoundTrip? && st.clients[ev.k].handle != CLOSED && ev.freed ==>
          ev.reply == Error && StaysFree(st, ev.k, ev.pushed))
    && (ev.CoreFree? ==> forall k :: 0 <= k < |st.clients| && Usable(st, k) ==> st.clients[k].handle != ev.id)
  }

  // ---- what is kept ----

  /** An open client's handle names the connection it opened; a closed one's connection is gone. */
  predicate NamesOwn(st: State, k: nat)
    requires k < |st.clients|
  {
    var c := st.clients[k];
    if c.dropped || c.handle == CLOSED then Some(c.conn) !in st.slots
    else At(st.slots, c.handle) == Some(c.conn)
  }

  /** Every slot holds another connection, numbered below `n`. */
  predicate Numbering(slots: Table<nat>, n: nat)
  {
    && (forall i :: 0 <= i < |slots| && slots[i].Some? ==> slots[i].value < n)
    && (forall i, j :: 0 <= i < |slots| && 0 <= j < |slots| && i != j && slots[i].Some? && slots[j].Some? ==>
          slots[i].value != slots[j].value)
  }

  predicate Numbered(st: State)
  {
    && Numbering(st.slots, st.born)
    && (forall k :: 0 <= k < |st.clients| ==> st.clients[k].conn < st.born && st.clients[k].handle >= CLOSED)
    && (forall j, k :: 0 <= j < k < |st.clients| ==> st.clients[j].conn != st.clients[k].conn)
  }

  predicate Sound(st: State)
  {
    && Numbered(st)
    && (forall k :: 0 <= k < |st.clients| ==> NamesOwn(st, k))
    && (forall i :: 0 <= i < |st.calls| ==>
          st.calls[i].client < |st.clients| && st.calls[i].reached == Some(st.clients[st.calls[i].client].conn))
  }

  lemma PutNumbers(slots: Table<nat>, c: nat)
    requires Numbering(slots, c)
    ensures Numbering(Put(slots, c), c + 1)
  {}

  lemma {:induction false} PutManyNumbers(slots: Table<nat>, c: nat, n: nat)
    requires Numbering(slots, c)
    ensures Numbering(PutMany(slots, c, n), c + n)
    decreases n
  {
    if n > 0 {
      PutNumbers(slots, c);
      PutManyNumbers(Put(slots, c), c + 1, n - 1);
    }
  }

  lemma ExchangeNumbers(st: State, k: nat, reply: Reply, freed: bool, pushed: nat)
    requires Numbered(st) && k < |st.clients|
    ensures Numbered(ExchangeStep(st, k, reply, freed, pushed))
  {
    var slots := if freed then Closed(st.slots, st.clients[k].handle) else st.slots;
    assert Numbering(slots, st.born);
    PutManyNumbers(slots, st.born, pushed);
  }

  lemma NumberedStep(st: State, ev: Event)
    requires Numbered(st) && Enabled(st, ev)
    ensures Numbered(Step(st, ev))
  {
    PutNumbers(st.slots, st.born);
    match ev
    case RoundTrip(k, reply, freed, pushed) => ExchangeNumbers(st, k, reply, freed, pushed);
    case Drop(k) => assert Numbering(Closed(st.slots, st.clients[k].handle), st.born);
    case _ =>
  }

  lemma ExchangeNames(st: State, k: nat, reply: Reply, freed: bool, pushed: nat, j: nat)
    requires Sound(st) && Usable(st, k) && st.clients[k].handle != CLOSED && j < |st.clients|
    requires freed ==> reply == Error && StaysFree(st, k, pushed)
    ensures NamesOwn(ExchangeStep(st, k, reply, freed, pushed), j)
  {
    assert NamesOwn(st, j) && NamesOwn(st, k);
    PutManyKeeps(if freed then Closed(st.slots, st.clients[k].handle) else st.slots, st.born, pushed);
  }

  lemma NamesStep(st: State, ev: Event, j: nat)
    requires Sound(st) && Enabled(st, ev) && Contract(st, ev) && j < |Step(st, ev).clients|
    ensures NamesOwn(Step(st, ev), j)
  {
    if j < |st.clients| { assert NamesOwn(st, j); }
    match ev
    case RoundTrip(k, reply, freed, pushed) =>
      if st.clients[k].handle != CLOSED { ExchangeNames(st, k, reply, freed, pushed, j); }
    case Drop(k) => assert NamesOwn(st, k);
    case _ =>
  }

  /** One more call, through an open client, and it reached that client's connection. */
  predicate CallsOwn(st: State, st': State, k: nat)
  {
    Usable(st, k) && st.clients[k].handle != CLOSED &&
    st'.calls == st.calls + [CoreCall(k, Some(st.clients[k].conn))]
  }

  lemma CallsStep(st: State, ev: Event)
    requires Sound(st) && Enabled(st, ev)
    ensures |st.clients| <= |Step(st, ev).clients|
    ensures forall k :: 0 <= k < |st.clients| ==> Step(st, ev).clients[k].conn == st.clients[k].conn
    ensures Step(st, ev).calls == st.calls || exists k: nat :: CallsOwn(st, Step(st, ev), k)
  {
    if (ev.RoundTrip? || ev.SendAsync? || ev.Drop?) && st.clients[ev.k].handle != CLOSED {
      assert NamesOwn(st, ev.k);
      assert CallsOwn(st, Step(st, ev), ev.k);
    }
  }

  lemma SoundStep(st: State, ev: Event)
    requires Sound(st) && Enabled(st, ev) && Contract(st, ev)
    ensures Sound(Step(st, ev))
  {
    NumberedStep(st, ev);
    CallsStep(st, ev);
    forall j | 0 <= j < |Step(st, ev).clients| ensures NamesOwn(Step(st, ev), j) { NamesStep(st, ev, j); }
  }

  // ---- whole runs ----

  predicate IsRun(st: State, evs: seq<Event>)
    decreases |evs|
  {
    evs == [] || (Enabled(st, evs[0]) && IsRun(Step(st, evs[0]), evs[1..]))
  }

  /** The core keeps its contract in every step of the run. */
  predicate KeepsContract(st: State, evs: seq<Event>)
    requires IsRun(st, evs)
    decreases |evs|
  {
    evs == [] || (Contract(st, evs[0]) && KeepsContract(Step(st, evs[0]), evs[1..]))
  }

  function After(st: State, evs: seq<Event>): State
    requires IsRun(st, evs)
    decreases |evs|
  {
    if evs == [] then st else After(Step(st, evs[0]), evs[1..])
  }

  lemma {:induction false} RunSound(st: State, evs: seq<Event>)
    requires Sound(st) && IsRun(st, evs) && KeepsContract(st, evs)
    ensures Sound(After(st, evs))
    decreases |evs|
  {
    if evs != [] {
      SoundStep(st, evs[0]);
      RunSound(Step(st, evs[0]), evs[1..]);
    }
  }

  /**
   In every run that keeps the contract an open client's handle names the connection it opened, and
   every send and close ever made through a client reached that client's connection.
   */
  lemma HandlesNameTheirOwn(evs: seq<Event>, k: nat)
    requires IsRun(INITIAL, evs) && KeepsContract(INITIAL, evs) && Usable(After(INITIAL, evs), k)
    ensures var st := After(INITIAL, evs);
      && (st.clients[k].handle == CLOSED <==> Some(st.clients[k].conn) !in st.slots)
      && (st.clients[k].handle != CLOSED ==> At(st.slots, st.clients[k].handle) == Some(st.clients[k].conn))
      && (forall i :: 0 <= i < |st.calls| ==>
            st.calls[i].client < |st.clients| && st.calls[i].reached == Some(st.clients[st.calls[i].client].conn))
  {
    RunSound(INITIAL, evs);
    assert NamesOwn(After(INITIAL, evs), k);
  }

  /** A drop frees the slot of the client's own connection and no other. */
  lemma DropClosesOwn(evs: seq<Event>, k: nat, i: nat)
    requires IsRun(INITIAL, evs) && KeepsContract(INITIAL, evs)
    requires Usable(After(INITIAL, evs), k) && i < |After(INITIAL, evs).slots|
    ensures var st, st' := After(INITIAL, evs), Step(After(INITIAL, evs), Drop(k));
      st'.slots[i] == if st.slots[i] == Some(st.clients[k].conn) then None else st.slots[i]
  {
    RunSound(INITIAL, evs);
    var st := After(INITIAL, evs);
    assert NamesOwn(st, k);
  }

  /** How many core calls were made with client `k`'s handle. */
  function CallsBy(calls: seq<CoreCall>, k: nat): nat
  {
    if calls == [] then 0
    else CallsBy(calls[..|calls| - 1], k) + if calls[|calls| - 1].client == k then 1 else 0
  }

  lemma ClosedStep(st: State, ev: Event, k: nat)
    requires Enabled(st, ev) && k < |st.clients| && st.clients[k].handle == CLOSED
    ensures k < |Step(st, ev).clients| && Step(st, ev).clients[k].handle == CLOSED
    ensures CallsBy(Step(st, ev).calls, k) == CallsBy(st.calls, k)
  {
    if Step(st, ev).calls != st.calls {
      assert Step(st, ev).calls[..|st.calls|] == st.calls;
    }
  }

  lemma {:induction false} StaysClosed(st: State, evs: seq<Event>, k: nat)
    requires IsRun(st, evs) && k < |st.clients| && st.clients[k].handle == CLOSED
    ensures k < |After(st, evs).clients| && After(st, evs).clients[k].handle == CLOSED
    ensures CallsBy(After(st, evs).calls, k) == CallsBy(st.calls, k)
    decreases |evs|
  {
    if evs != [] {
      ClosedStep(st, evs[0], k);
      StaysClosed(Step(st, evs[0]), evs[1..], k);
    }
  }

  /**
   A client marked closed stays closed and makes no further core call, whatever is asked of it and
   whatever the core does.
   */
  lemma ClosedForGood(evs: seq<Event>, more: seq<Event>, k: nat)
    requires IsRun(INITIAL, evs) && IsRun(After(INITIAL, evs), more) && k < |After(INITIAL, evs).clients|
    requires After(INITIAL, evs).clients[k].handle == CLOSED
    ensures var st, st' := After(INITIAL, evs), After(After(INITIAL, evs), more);
      k < |st'.clients| && st'.clients[k].handle == CLOSED && CallsBy(st'.calls, k) == CallsBy(st.calls, k)
  {
    StaysClosed(After(INITIAL, evs), more, k);
  }

  /**
   Each use of an open client makes one core call with its handle; a closed one makes none. A drop frees
   the slot besides, and an accepted connect opens one, at the lowest free slot.
   */
  lemma CallsExactly(st: State, k: nat, reply: Reply, freed: bool, pushed: nat, accepted: bool)
    requires Usable(st, k)
    ensures var call := [CoreCall(k, At(st.slots, st.clients[k].handle))];
      if st.clients[k].handle == CLOSED then
        && Step(st, RoundTrip(k, reply, freed, pushed)) == st && Step(st, SendAsync(k, accepted)) == st
        && Step(st, Drop(k)).calls == st.calls && Step(st, Drop(k)).slots == st.slots
      else
        && Step(st, RoundTrip(k, reply, freed, pushed)).calls == st.calls + call
        && Step(st, SendAsync(k, accepted)) == st.(calls := st.calls + call)
        && Step(st, Drop(k)).calls == st.calls + call && At(Step(st, Drop(k)).slots, st.clients[k].handle) == None
    ensures Step(st, Drop(k)).clients[k].dropped
    ensures Step(st, Connect(false)) == st
    ensures var st' := Step(st, Connect(true));
      && st'.clients == st.clients + [Client(FirstFree(st.slots), st.born, false)]
      && At(st'.slots, FirstFree(st.slots)) == Some(st.born)
  {}

  // ---- the contract is exact ----

  lemma BrokenExchange(st: State, k: nat, reply: Reply, pushed: nat)
    requires Sound(st) && Usable(st, k) && st.clients[k].handle != CLOSED
    requires reply != Error || !StaysFree(st, k, pushed)
    ensures !NamesOwn(ExchangeStep(st, k, reply, true, pushed), k)
  {
    assert NamesOwn(st, k);
    var slots := PutMany(Closed(st.slots, st.clients[k].handle), st.born, pushed);
    PutManyKeeps(Closed(st.slots, st.clients[k].handle), st.born, pushed);
    assert At(slots, st.clients[k].handle) != Some(st.clients[k].conn);
  }

  /** Whatever step is taken, handles are right after it if and only if the core kept the contract in it. */
  lemma ContractIsExact(st: State, ev: Event)
    requires Sound(st) && Enabled(st, ev)
    ensures Sound(Step(st, ev)) <==> Contract(st, ev)
  {
    if Contract(st, ev) {
      SoundStep(st, ev);
    } else if ev.RoundTrip? {
      BrokenExchange(st, ev.k, ev.reply, ev.pushed);
    } else {
      var k :| 0 <= k < |st.clients| && Usable(st, k) && st.clients[k].handle == ev.id;
      assert !NamesOwn(Step(st, ev), k);
    }
  }

  /** Handles are right at every moment of the run. */
  predicate AlwaysSound(st: State, evs: seq<Event>)
    requires IsRun(st, evs)
    decreases |evs|
  {
    Sound(st) && (evs == [] || AlwaysSound(Step(st, evs[0]), evs[1..]))
  }

  lemma {:induction false} SoundExactly(st: State, evs: seq<Event>)
    requires Sound(st) && IsRun(st, evs)
    ensures AlwaysSound(st, evs) <==> KeepsContract(st, evs)
    decreases |evs|
  {
    if evs != [] {
      ContractIsExact(st, evs[0]);
      if Sound(Step(st, evs[0])) { SoundExactly(Step(st, evs[0]), evs[1..]); }
    }
  }

  // ---- without the contract ----

  /**
   An open client's handle names its own connection or an empty slot. That is what is left when the
   core frees slots as it likes.
   */
  predicate NamesNoOther(st: State, k: nat)
    requires k < |st.clients|
  {
    var c := st.clients[k];
    c.dropped || c.handle == CLOSED || At(st.slots, c.handle) in {None, Some(c.conn)}
  }

  /** The step opens a connection at a slot that an open client still has. */
  predicate TakesOver(st: State, ev: Event)
    requires Enabled(st, ev)
  {
    exists k :: 0 <= k < |st.clients| && Usable(st, k) && st.clients[k].handle != CLOSED &&
      At(Step(st, ev).slots, st.clients[k].handle).Some? &&
      At(Step(st, ev).slots, st.clients[k].handle).value >= st.born
  }

  predicate NoTakeover(st: State, evs: seq<Event>)
    requires IsRun(st, evs)
    decreases |evs|
  {
    evs == [] || (!TakesOver(st, evs[0]) && NoTakeover(Step(st, evs[0]), evs[1..]))
  }

  predicate Harmless(st: State)
  {
    && Numbered(st)
    && (forall k :: 0 <= k < |st.clients| ==> NamesNoOther(st, k))
    && (forall i :: 0 <= i < |st.calls| ==>
          && st.calls[i].client < |st.clients|
          && st.calls[i].reached in {None, Some(st.clients[st.calls[i].client].conn)})
  }

  /** A step leaves slots as they were, empties them, or fills them with new connections. */
  lemma SlotsStep(st: State, ev: Event, h: int)
    requires Enabled(st, ev)
    ensures var at := At(Step(st, ev).slots, h); at == At(st.slots, h) || at.None? || at.value >= st.born
  {
    if ev.RoundTrip? && st.clients[ev.k].handle != CLOSED {
      PutManyKeeps(if ev.freed then Closed(st.slots, st.clients[ev.k].handle) else st.slots, st.born, ev.pushed);
    }
  }

  lemma NoOtherStep(st: State, ev: Event, k: nat)
    requires Harmless(st) && Enabled(st, ev) && !TakesOver(st, ev) && k < |Step(st, ev).clients|
    ensures NamesNoOther(Step(st, ev), k)
  {
    if k < |st.clients| {
      assert NamesNoOther(st, k);
      SlotsStep(st, ev, st.clients[k].handle);
    }
  }

  lemma CallsNoOther(st: State, ev: Event)
    requires Harmless(st) && Enabled(st, ev)
    ensures forall i :: 0 <= i < |Step(st, ev).calls| ==>
      var c := Step(st, ev).calls[i];
      c.client < |Step(st, ev).clients| && c.reached in {None, Some(Step(st, ev).clients[c.client].conn)}
  {
    if ev.RoundTrip? || ev.SendAsync? || ev.Drop? { assert NamesNoOther(st, ev.k); }
  }

  lemma {:induction false} RunHarmless(st: State, evs: seq<Event>)
    requires Harmless(st) && IsRun(st, evs) && NoTakeover(st, evs)
    ensures Harmless(After(st, evs))
    decreases |evs|
  {
    if evs != [] {
      NumberedStep(st, evs[0]);
      CallsNoOther(st, evs[0]);
      forall k: nat | k < |Step(st, evs[0]).clients| ensures NamesNoOther(Step(st, evs[0]), k) {
        NoOtherStep(st, evs[0], k);
      }
      RunHarmless(Step(st, evs[0]), evs[1..]);
    }
  }

  /**
   Whenever the core frees slots, and whatever it answers: as long as no connection is opened at a
   slot an open client still has, every call ever made through a client reached that client's own
   connection or none.
   */
  lemma ReachesNoOther(evs: seq<Event>, i: nat)
    requires IsRun(INITIAL, evs) && NoTakeover(INITIAL, evs) && i < |After(INITIAL, evs).calls|
    ensures var st := After(INITIAL, evs);
      st.calls[i].client < |st.clients| && st.calls[i].reached in {None, Some(st.clients[st.calls[i].client].conn)}
  {
    RunHarmless(INITIAL, evs);
  }

  /** The moment one is, a client's handle names another's connection. */
  lemma TakeoverHarms(st: State, ev: Event)
    requires Numbered(st) && Enabled(st, ev) && TakesOver(st, ev)
    ensures exists k :: 0 <= k < |st.clients| && !NamesNoOther(Step(st, ev), k)
  {
    var k :| 0 <= k < |st.clients| && Usable(st, k) && st.clients[k].handle != CLOSED &&
      At(Step(st, ev).slots, st.clients[k].handle).Some? &&
      At(Step(st, ev).slots, st.clients[k].handle).value >= st.born;
    assert !NamesNoOther(Step(st, ev), k);
  }

  /**
   An exchange that frees the slot and evaluates a frame that opens a connection: the client still
   counts itself open, and its drop closes the other connection.
   */
  lemma SlotTakenMeanwhile()
    ensures var st := Step(Step(INITIAL, Connect(true)), RoundTrip(0, Error, true, 1));
      && st.clients[0] == Client(0, 0, false) && st.slots == [Some(1)]
      && Enabled(st, Drop(0)) && Step(st, Drop(0)).slots == [None]
      && Step(st, Drop(0)).calls[1] == CoreCall(0, Some(1))
  {
    var st1 := Step(INITIAL, Connect(true));
    assert st1.slots == [Some(0)];
    assert Closed(st1.slots, 0) == [None];
    assert Put([None], 1) == [Some(1)];
    assert PutMany([None], 1, 1) == PutMany([Some(1)], 2, 0);
  }

  /** The core frees an idle client's slot, and the next connection takes it: so does the client's send. */
  lemma SlotFreedBetween()
    ensures var st := Step(Step(INITIAL, Connect(true)), CoreFree(0));
      && !Contract(Step(INITIAL, Connect(true)), CoreFree(0)) && TakesOver(st, ForeignOpen)
      && Step(Step(st, ForeignOpen), SendAsync(0, true)).calls == [CoreCall(0, Some(1))]
  {
    var st1 := Step(INITIAL, Connect(true));
    assert st1.slots == [Some(0)] && st1.clients == [Client(0, 0, false)];
    assert Usable(st1, 0);
    var st2 := Step(st1, CoreFree(0));
    assert st2.slots == [None];
    assert Step(st2, ForeignOpen).slots == [Some(1)];
  }

  // ---- the client as an object ----

  /** The runtime's poll. */
  class Poll {
    var slots: Table<nat>
    var born: nat

    constructor ()
      ensures slots == [] && born == 0
    {
      slots, born := [], 0;
    }

    /** A connection takes the lowest free slot. */
    method Open() returns (id: nat)
      modifies this
      ensures id == FirstFree(old(slots)) && slots == Put(old(slots), old(born)) && born == old(born) + 1
    {
      id := FirstFree(slots);
      slots := Put(slots, born);
      born := born + 1;
    }

    method Close(handle: int)
      modifies `slots
      ensures slots == Closed(old(slots), handle)
    {
      if 0 <= handle < |slots| { slots := slots[handle := None]; }
    }

    /** What the core does in one exchange on `handle`. */
    method Exchange(handle: int, freed: bool, pushed: nat)
      modifies this
      ensures slots == Exchanged(old(slots), old(born), handle, freed, pushed) && born == old(born) + pushed
    {
      if freed { Close(handle); }
      ghost var start, first := slots, born;
      for i := 0 to pushed
        invariant born == first + i
        invariant PutMany(start, first, pushed) == PutMany(slots, born, pushed - i)
      {
        var id := Open();
      }
    }
  }

  /** Whether the caller got a value, the server's or the core's error, or a refusal without a call. */
  datatype Outcome = Delivered | Failed | Refused

  class TcpClient {
    const poll: Poll
    var handle: int

    constructor (poll: Poll)
      modifies poll
      ensures this.poll == poll && handle == FirstFree(old(poll.slots))
      ensures poll.slots == Put(old(poll.slots), old(poll.born))
    {
      this.poll := poll;
      new;
      handle := poll.Open();
    }

    /** `round_trip`: on a closed client nothing is sent, and afterwards a freed slot is noticed. */
    method RoundTrip(reply: Reply, freed: bool, pushed: nat) returns (outcome: Outcome)
      modifies this, poll
      ensures old(handle) == CLOSED ==>
        outcome == Refused && handle == CLOSED && poll.slots == old(poll.slots) && poll.born == old(poll.born)
      ensures old(handle) != CLOSED ==>
        && poll.slots == Exchanged(old(poll.slots), old(poll.born), old(handle), freed, pushed)
        && handle == Kept(poll.slots, old(handle), reply)
        && outcome == (if reply == Reply.Value then Delivered else Outcome.Failed)
    {
      if handle == CLOSED { return Refused; }
      poll.Exchange(handle, freed, pushed);
      if reply == Null { return Outcome.Failed; }
      if reply == Error && At(poll.slots, handle).None? { handle := CLOSED; }
      outcome := if reply == Reply.Value then Delivered else Outcome.Failed;
    }

    /** `send_async`: refused on a closed client, and otherwise the core's answer. */
    method SendAsync(accepted: bool) returns (outcome: Outcome)
      ensures outcome == if handle == CLOSED then Refused else if accepted then Delivered else Outcome.Failed
    {
      if handle == CLOSED { return Refused; }
      outcome := if accepted then Delivered else Outcome.Failed;
    }

    /** `Drop for TcpClient`. */
    method Drop()
      modifies poll
      ensures poll.slots == if handle == CLOSED then old(poll.slots) else Closed(old(poll.slots), handle)
    {
      if handle != CLOSED { poll.Close(handle); }
    }
  }
}
