/**
 The guarded IPC server (serve.rs): the loop's thread, a watcher thread per server, the core's
 interrupt flag and an injected clock, interleaved one lock section at a time.

 A request's ordinal on its server identifies it. Ordinals, `drained`, `begun`, `stops` and
 `replies` are history: the program does not keep them.
 */
module Serve {
  import opened Common

  datatype By = Budget | Hangup | Client

  datatype Code = Cancel | OtherCode(tag: nat)

  /** What evaluating a payload gave. */
  datatype Reply = Answer | Error(code: Code)

  datatype Ended = Answered | Failed(code: Code) | Cancelled(who: By)

  datatype RequestEnd = RequestEnd(id: nat, text: string, duration: nat, ended: Ended)

  datatype Running = Running(id: nat, started: nat, stoppedBy: Option<By>)

  /** What the hooks, the watcher and the handle share. */
  datatype Shared = Shared(budget: Option<nat>, running: Option<Running>, ends: seq<RequestEnd>, stop: bool)

  /** `saturating_duration_since`. */
  function Since(now: nat, start: nat): nat
  {
    if now < start then 0 else now - start
  }

  // ---- the lock sections ----

  function Begun(s: Shared, id: nat, now: nat): Shared
  {
    if s.running.Some? then s else s.(running := Some(Running(id, now, None)))
  }

  /** Who stops the running request, if the watcher looks now. */
  function Verdict(s: Shared, now: nat, gone: bool): Option<By>
  {
    if s.running.None? || s.running.value.stoppedBy.Some? then None
    else if s.budget.Some? && Since(now, s.running.value.started) >= s.budget.value then Some(Budget)
    else if gone then Some(Hangup)
    else None
  }

  function Checked(s: Shared, now: nat, gone: bool): Shared
  {
    var who := Verdict(s, now, gone);
    if who.None? then s else s.(running := Some(s.running.value.(stoppedBy := who)))
  }

  function Classify(reply: Reply, stoppedBy: Option<By>): Ended
  {
    match reply
    case Error(Cancel) => Cancelled(if stoppedBy.Some? then stoppedBy.value else Client)
    case Error(code) => Failed(code)
    case Answer => Answered
  }

  function EndOf(run: Running, text: string, duration: nat, reply: Reply): RequestEnd
  {
    RequestEnd(run.id, text, duration, Classify(reply, run.stoppedBy))
  }

  // ---- the system ----

  datatype Origin = Watcher(sid: nat) | Peer

  /** A guard call on the loop's thread; `sid` is the server it found installed. */
  datatype Frame =
    | Entered(sid: Option<nat>, text: string)
    | Evaluating(sid: Option<nat>, req: Option<nat>, text: string)
    | Returned(sid: Option<nat>, req: Option<nat>, text: string, reply: Reply)
    | Taken(sid: Option<nat>, run: Running, text: string, reply: Reply)
    | Timed(sid: Option<nat>, run: Running, text: string, reply: Reply, duration: nat)

  /** The handle: `start` has claimed the slot, serves, is being dropped, or is gone. */
  datatype Handle = Claimed | Held | Stopping | Gone

  datatype Thread = Unborn | AtTest | Checking | Exited

  datatype Server = Server(shared: Shared, handle: Handle, watcher: Thread, drained: seq<RequestEnd>,
                           begun: nat, stops: map<nat, By>, replies: map<nat, Reply>)

  datatype System = System(servers: seq<Server>, installed: Option<nat>, stack: seq<Frame>,
                           flag: set<Origin>, now: nat)

  datatype Event =
    | Start(current: bool, budget: Option<nat>, port: nat)
    | Launch(sid: nat, listening: bool, spawned: bool)
    | Stop(sid: nat)
    | Join(sid: nat)
    | Drain(sid: nat)
    | Enter(text: string)
    | Begin
    | Return(reply: Reply)
    | Take
    | ReadClock
    | Push
    | Leave
    | WatcherTest(sid: nat)
    | WatcherCheck(sid: nat, gone: bool)
    | ClientCancel
    | CoreClear
    | Tick(now: nat)

  function Initial(now: nat): System
  {
    System([], None, [], {}, now)
  }

  function Top(st: System): Frame
    requires st.stack != []
  {
    st.stack[|st.stack| - 1]
  }

  function WithTop(st: System, f: Frame): System
    requires st.stack != []
  {
    st.(stack := st.stack[..|st.stack| - 1] + [f])
  }

  function WithServer(st: System, sid: nat, s: Server): System
    requires sid < |st.servers|
  {
    st.(servers := st.servers[sid := s])
  }

  /** `start` gets past its checks. */
  predicate Admitted(st: System, current: bool, budget: Option<nat>, port: nat)
  {
    current && budget != Some(0) && port != 0 && st.installed.None?
  }

  predicate Enabled(st: System, ev: Event)
  {
    match ev
    case Start(_, _, _) => true
    case Launch(sid, _, _) => sid < |st.servers| && st.servers[sid].handle == Claimed
    case Stop(sid) => sid < |st.servers| && st.servers[sid].handle == Held
    case Join(sid) => sid < |st.servers| && st.servers[sid].handle == Stopping && st.servers[sid].watcher == Exited
    case Drain(sid) => sid < |st.servers| && st.servers[sid].handle == Held
    case Enter(_) => st.stack == [] || Top(st).Evaluating?
    case Begin => st.stack != [] && Top(st).Entered?
    case Return(_) => st.stack != [] && Top(st).Evaluating?
    case Take => st.stack != [] && Top(st).Returned? && Top(st).req.Some?
    case ReadClock => st.stack != [] && Top(st).Taken?
    case Push => st.stack != [] && Top(st).Timed?
    case Leave => st.stack != [] && Top(st).Returned? && Top(st).req.None?
    case WatcherTest(sid) => sid < |st.servers| && st.servers[sid].watcher == AtTest
    case WatcherCheck(sid, _) => sid < |st.servers| && st.servers[sid].watcher == Checking
    case ClientCancel => true
    case CoreClear => true
    case Tick(_) => true
  }

  /** A frame on the stack names a server that exists. */
  predicate Known(st: System, f: Frame)
  {
    f.sid.Some? ==> f.sid.value < |st.servers|
  }

  function BeginStep(st: System): System
    requires st.stack != [] && Top(st).Entered? && Known(st, Top(st))
  {
    var f := Top(st);
    if f.sid.None? then WithTop(st, Evaluating(None, None, f.text))
    else
      var s := st.servers[f.sid.value];
      var s' := s.(shared := Begun(s.shared, s.begun, st.now));
      if s.shared.running.Some? then WithTop(st, Evaluating(f.sid, None, f.text))
      else WithServer(WithTop(st, Evaluating(f.sid, Some(s.begun), f.text)), f.sid.value, s'.(begun := s.begun + 1))
  }

  function ReturnStep(st: System, reply: Reply): System
    requires st.stack != [] && Top(st).Evaluating? && Known(st, Top(st))
  {
    var f := Top(st);
    var st' := WithTop(st, Returned(f.sid, f.req, f.text, reply));
    if f.sid.None? || f.req.None? then st'
    else
      var s := st.servers[f.sid.value];
      WithServer(st', f.sid.value, s.(replies := s.replies[f.req.value := reply]))
  }

  /** `finish`, first lock section: the flag is cleared and the request unregistered together. */
  function TakeStep(st: System): System
    requires st.stack != [] && Top(st).Returned? && Known(st, Top(st))
  {
    var f := Top(st);
    var cleared := st.(flag := {});
    if f.sid.None? || st.servers[f.sid.value].shared.running.None? then
      cleared.(stack := st.stack[..|st.stack| - 1])
    else
      var s := st.servers[f.sid.value];
      WithServer(WithTop(cleared, Taken(f.sid, s.shared.running.value, f.text, f.reply)), f.sid.value,
                 s.(shared := s.shared.(running := None)))
  }

  function PushStep(st: System): System
    requires st.stack != [] && Top(st).Timed? && Known(st, Top(st))
  {
    var f := Top(st);
    var st' := st.(stack := st.stack[..|st.stack| - 1]);
    if f.sid.None? then st'
    else
      var s := st.servers[f.sid.value];
      var ends := s.shared.ends + [EndOf(f.run, f.text, f.duration, f.reply)];
      WithServer(st', f.sid.value, s.(shared := s.shared.(ends := ends)))
  }

  function CheckStep(st: System, sid: nat, gone: bool): System
    requires sid < |st.servers|
  {
    var s := st.servers[sid];
    var who := Verdict(s.shared, st.now, gone);
    var s' := s.(shared := Checked(s.shared, st.now, gone), watcher := AtTest);
    if who.None? then WithServer(st, sid, s')
    else
      WithServer(st, sid, s'.(stops := s.stops[s.shared.running.value.id  := who.value]))
        .(flag := st.flag + {Watcher(sid)})
  }

  function Step(st: System, ev: Event): (st': System)
    requires Enabled(st, ev) && (st.stack != [] ==> Known(st, Top(st)))
    ensures |st.servers| <= |st'.servers|
  {
    match ev
    case Start(current, budget, port) =>
      if Admitted(st, current, budget, port) then
        var s := Server(Shared(budget, None, [], false), Claimed, Unborn, [], 0, map[], map[]);
        st.(servers := st.servers + [s], installed := Some(|st.servers|))
      else st
    case Launch(sid, listening, spawned) =>
      var s := st.servers[sid];
      if listening && spawned then WithServer(st, sid, s.(handle := Held, watcher := AtTest))
      else WithServer(st, sid, s.(handle := Gone)).(installed := None)
    case Stop(sid) =>
      var s := st.servers[sid];
      WithServer(st, sid, s.(handle := Stopping, shared := s.shared.(stop := true)))
    case Join(sid) => WithServer(st, sid, st.servers[sid].(handle := Gone)).(installed := None)
    case Drain(sid) =>
      var s := st.servers[sid];
      WithServer(st, sid, s.(drained := s.drained + s.shared.ends, shared := s.shared.(ends := [])))
    case Enter(text) => st.(stack := st.stack + [Entered(st.installed, text)])
    case Begin => BeginStep(st)
    case Return(reply) => ReturnStep(st, reply)
    case Take => TakeStep(st)
    case ReadClock =>
      var f := Top(st);
      WithTop(st, Timed(f.sid, f.run, f.text, f.reply, Since(st.now, f.run.started)))
    case Push => PushStep(st)
    case Leave => st.(stack := st.stack[..|st.stack| - 1])
    case WatcherTest(sid) =>
      var s := st.servers[sid];
      WithServer(st, sid, s.(watcher := if s.shared.stop then Exited else Checking))
    case WatcherCheck(sid, gone) => CheckStep(st, sid, gone)
    case ClientCancel => st.(flag := st.flag + {Peer})
    case CoreClear => st.(flag := {})
    case Tick(now) => st.(now := now)
  }

  // ---- requests in flight ----

  /** The request `f` carries on server `sid`: registered, or unregistered and not yet recorded. */
  function Carried(f: Frame, sid: nat): seq<nat>
  {
    if f.sid != Some(sid) then []
    else match f
         case Entered(_, _) => []
         case Evaluating(_, req, _) => if req.Some? then [req.value] else []
         case Returned(_, req, _, _) => if req.Some? then [req.value] else []
         case Taken(_, run, _, _) => [run.id]
         case Timed(_, run, _, _, _) => [run.id]
  }

  function InFlight(stack: seq<Frame>, sid: nat): seq<nat>
  {
    if stack == [] then [] else InFlight(stack[..|stack| - 1], sid) + Carried(stack[|stack| - 1], sid)
  }

  function Ids(ends: seq<RequestEnd>): (r: seq<nat>)
    ensures |r| == |ends|
  {
    seq(|ends|, i requires 0 <= i < |ends| => ends[i].id)
  }

  function Below(n: nat): (r: seq<nat>)
    ensures |r| == n
  {
    seq(n, i requires 0 <= i < n => i)
  }

  /** Every end of a server so far: drained, then still pending. */
  function History(s: Server): seq<RequestEnd>
  {
    s.drained + s.shared.ends
  }

  predicate Done(f: Frame)
  {
    f.Taken? || f.Timed?
  }

  /** One slot, and who holds it. */
  predicate Slots(st: System)
  {
    && (st.installed.Some? ==> st.installed.value < |st.servers|)
    && (forall sid :: 0 <= sid < |st.servers| ==>
          var s := st.servers[sid];
          && (s.handle != Gone <==> st.installed == Some(sid))
          && (s.handle == Claimed ==> s.watcher == Unborn)
          && (s.handle == Held || s.handle == Stopping ==> s.watcher != Unborn)
          && (s.handle == Gone ==> s.watcher == Unborn || s.watcher == Exited))
  }

  predicate FrameShape(f: Frame, servers: nat)
  {
    && (f.sid.Some? ==> f.sid.value < servers)
    && (f.sid.None? ==> !Done(f) && ((f.Evaluating? || f.Returned?) ==> f.req.None?))
  }

  /** Only the top frame is anywhere but evaluating. */
  predicate StackShape(st: System)
  {
    && (forall i :: 0 <= i < |st.stack| ==> FrameShape(st.stack[i], |st.servers|))
    && (forall i :: 0 <= i < |st.stack| - 1 ==> st.stack[i].Evaluating?)
  }

  /** At most one request is in flight on `sid`, and it is the registered one until it is done. */
  predicate Registered(st: System, sid: nat)
    requires sid < |st.servers|
  {
    var run := st.servers[sid].shared.running;
    if st.stack != [] && Done(Top(st)) && Top(st).sid == Some(sid) then
      run.None? && InFlight(st.stack, sid) == [Top(st).run.id]
    else InFlight(st.stack, sid) == if run.Some? then [run.value.id] else []
  }

  /** Ends and requests in flight are together the requests begun, in order. */
  predicate Accounted(st: System, sid: nat)
    requires sid < |st.servers|
  {
    Ids(History(st.servers[sid])) + InFlight(st.stack, sid) == Below(st.servers[sid].begun)
  }

  predicate FlagOwned(st: System)
  {
    forall o :: o in st.flag && o.Watcher? ==>
      && o.sid < |st.servers|
      && st.servers[o.sid].shared.running.Some? && st.servers[o.sid].shared.running.value.stoppedBy.Some?
  }

  predicate Sound(st: System)
  {
    && Slots(st) && StackShape(st) && FlagOwned(st)
    && (forall sid :: 0 <= sid < |st.servers| ==> Registered(st, sid) && Accounted(st, sid))
  }

  predicate CanStep(st: System, ev: Event)
  {
    Enabled(st, ev) && (st.stack != [] ==> Known(st, Top(st)))
  }

  // ---- every step keeps it ----

  /** The slot, the handles and the watchers are as they were. */
  predicate SameHandles(st: System, st': System)
  {
    && |st'.servers| == |st.servers| && st'.installed == st.installed
    && (forall sid :: 0 <= sid < |st.servers| ==>
          st'.servers[sid].handle == st.servers[sid].handle && st'.servers[sid].watcher == st.servers[sid].watcher)
  }

  predicate MovesHandle(ev: Event)
  {
    ev.Start? || ev.Launch? || ev.Stop? || ev.Join? || ev.WatcherTest? || ev.WatcherCheck?
  }

  lemma OthersKeepHandles(st: System, ev: Event)
    requires CanStep(st, ev) && !MovesHandle(ev)
    ensures SameHandles(st, Step(st, ev))
  {}

  lemma SlotsStep(st: System, ev: Event)
    requires Slots(st) && CanStep(st, ev)
    ensures Slots(Step(st, ev)) && |st.servers| <= |Step(st, ev).servers|
  {
    if !MovesHandle(ev) {
      OthersKeepHandles(st, ev);
    } else if ev.WatcherTest? || ev.WatcherCheck? {
      WatcherSlots(st, ev);
    } else {
      HandleSlots(st, ev);
    }
  }

  lemma WatcherSlots(st: System, ev: Event)
    requires Slots(st) && CanStep(st, ev) && (ev.WatcherTest? || ev.WatcherCheck?)
    ensures Slots(Step(st, ev)) && |st.servers| == |Step(st, ev).servers|
  {}

  lemma HandleSlots(st: System, ev: Event)
    requires Slots(st) && CanStep(st, ev) && (ev.Start? || ev.Launch? || ev.Stop? || ev.Join?)
    ensures Slots(Step(st, ev)) && |st.servers| <= |Step(st, ev).servers|
  {}

  predicate MovesFrame(ev: Event)
  {
    ev.Enter? || ev.Begin? || ev.Return? || ev.Take? || ev.ReadClock? || ev.Push? || ev.Leave?
  }

  lemma QuietShape(st: System, ev: Event)
    requires StackShape(st) && CanStep(st, ev) && !MovesFrame(ev)
    ensures Step(st, ev).stack == st.stack && |st.servers| <= |Step(st, ev).servers|
  {}

  lemma ShapeStep(st: System, ev: Event)
    requires Slots(st) && StackShape(st) && CanStep(st, ev)
    ensures StackShape(Step(st, ev))
  {
    if !MovesFrame(ev) { QuietShape(st, ev); } else { FrameShapeStep(st, ev); }
  }

  lemma ShapeReplaced(st: System, st': System, f: Frame)
    requires StackShape(st) && st.stack != [] && |st'.servers| == |st.servers|
    requires st'.stack == st.stack[..|st.stack| - 1] + [f] && FrameShape(f, |st.servers|)
    ensures StackShape(st')
  {}

  lemma ShapePopped(st: System, st': System)
    requires StackShape(st) && st.stack != [] && |st'.servers| == |st.servers|
    requires st'.stack == st.stack[..|st.stack| - 1]
    ensures StackShape(st')
  {}

  lemma TakeShape(st: System)
    requires StackShape(st) && CanStep(st, Take)
    ensures StackShape(TakeStep(st))
  {
    var f, st' := Top(st), TakeStep(st);
    assert FrameShape(f, |st.servers|);
    var running := st.servers[f.sid.value].shared.running;
    if running.None? { ShapePopped(st, st'); }
    else { ShapeReplaced(st, st', Taken(f.sid, running.value, f.text, f.reply)); }
  }

  lemma FrameShapeStep(st: System, ev: Event)
    requires Slots(st) && StackShape(st) && CanStep(st, ev) && MovesFrame(ev)
    ensures StackShape(Step(st, ev))
  {
    if st.stack != [] { assert FrameShape(Top(st), |st.servers|); }
    match ev
    case Enter(_) =>
    case Take => TakeShape(st);
    case Push => ShapePopped(st, PushStep(st));
    case Leave => ShapePopped(st, Step(st, ev));
    case Begin => ShapeReplaced(st, BeginStep(st), Top(BeginStep(st)));
    case Return(reply) => ShapeReplaced(st, ReturnStep(st, reply), Top(ReturnStep(st, reply)));
    case ReadClock => ShapeReplaced(st, Step(st, ev), Top(Step(st, ev)));
  }

  lemma FlagStep(st: System, ev: Event)
    requires StackShape(st) && FlagOwned(st) && CanStep(st, ev)
    ensures FlagOwned(Step(st, ev))
  {
    match ev
    case WatcherCheck(_, _) =>
    case Begin =>
    case Take =>
    case _ => FlagKept(st, ev);
  }

  lemma FlagKept(st: System, ev: Event)
    requires StackShape(st) && FlagOwned(st) && CanStep(st, ev) && !ev.WatcherCheck? && !ev.Begin? && !ev.Take?
    ensures FlagOwned(Step(st, ev))
  {
    assert Step(st, ev).flag <= st.flag + {Peer};
    assert |st.servers| <= |Step(st, ev).servers|;
    assert forall sid :: 0 <= sid < |st.servers| ==>
      Step(st, ev).servers[sid].shared.running == st.servers[sid].shared.running;
  }

  lemma InFlightPush(stack: seq<Frame>, f: Frame, sid: nat)
    ensures InFlight(stack + [f], sid) == InFlight(stack, sid) + Carried(f, sid)
  {
    assert (stack + [f])[..|stack|] == stack;
  }

  lemma {:induction false} InFlightElsewhere(stack: seq<Frame>, sid: nat)
    requires forall i :: 0 <= i < |stack| ==> stack[i].sid != Some(sid)
    ensures InFlight(stack, sid) == []
    decreases |stack|
  {
    if stack != [] { InFlightElsewhere(stack[..|stack| - 1], sid); }
  }

  predicate Books(st: System, sid: nat)
  {
    sid < |st.servers| && Registered(st, sid) && Accounted(st, sid)
  }

  /** A guard call that is about to take a request out of the registry has a server, with its books in order. */
  predicate FoundAtTake(st: System, ev: Event)
  {
    ev.Take? && st.stack != [] ==> Top(st).sid.Some? && Books(st, Top(st).sid.value)
  }

  /** The registered request, the ends and the count of requests are as they were. */
  predicate SameBooks(s: Server, s': Server)
  {
    && (s.shared.running.Some? <==> s'.shared.running.Some?)
    && (s.shared.running.Some? ==> s.shared.running.value.id == s'.shared.running.value.id)
    && History(s') == History(s) && s'.begun == s.begun
  }

  lemma QuietServer(st: System, ev: Event, sid: nat)
    requires CanStep(st, ev) && !MovesFrame(ev) && sid < |st.servers|
    ensures Step(st, ev).stack == st.stack && sid < |Step(st, ev).servers|
    ensures SameBooks(st.servers[sid], Step(st, ev).servers[sid])
  {}

  lemma BooksKept(st: System, st': System, sid: nat)
    requires Books(st, sid) && st'.stack == st.stack && sid < |st'.servers|
    requires SameBooks(st.servers[sid], st'.servers[sid])
    ensures Books(st', sid)
  {}

  /** A new top frame carrying what the old one carried, on an unchanged server. */
  lemma BooksTop(st: System, st': System, f: Frame, sid: nat)
    requires Books(st, sid) && st.stack != [] && st'.stack == st.stack[..|st.stack| - 1] + [f]
    requires sid < |st'.servers| && SameBooks(st.servers[sid], st'.servers[sid])
    requires Carried(f, sid) == Carried(Top(st), sid)
    requires f.sid == Some(sid) ==> (Done(f) <==> Done(Top(st)))
    requires Done(f) && f.sid == Some(sid) ==> f.run == Top(st).run
    ensures Books(st', sid)
  {
    InFlightPush(st.stack[..|st.stack| - 1], f, sid);
    assert Top(st') == f;
  }

  /** The top frame registers its request. */
  lemma BooksBegun(st: System, st': System, f: Frame, sid: nat)
    requires Books(st, sid) && st.stack != [] && Carried(Top(st), sid) == [] && !Done(Top(st))
    requires st.servers[sid].shared.running.None? && sid < |st'.servers|
    requires st'.stack == st.stack[..|st.stack| - 1] + [f] && Carried(f, sid) == [st.servers[sid].begun] && !Done(f)
    requires History(st'.servers[sid]) == History(st.servers[sid])
    requires st'.servers[sid].begun == st.servers[sid].begun + 1
    requires st'.servers[sid].shared.running.Some?
    requires st'.servers[sid].shared.running.value.id == st.servers[sid].begun
    ensures Books(st', sid)
  {
    var base, s := st.stack[..|st.stack| - 1], st.servers[sid];
    InFlightPush(base, f, sid);
    assert Top(st') == f;
    assert InFlight(base, sid) == [];
    CountUp(Ids(History(s)), s.begun);
  }

  lemma CountUp(ids: seq<nat>, n: nat)
    requires ids + [] == Below(n)
    ensures ids + [n] == Below(n + 1)
  {
    assert ids == Below(n);
  }

  lemma BeginBooks(st: System, sid: nat)
    requires StackShape(st) && CanStep(st, Begin) && Books(st, sid)
    ensures Books(BeginStep(st), sid)
  {
    var f, st' := Top(st), BeginStep(st);
    if f.sid == Some(sid) && st.servers[sid].shared.running.None? {
      BooksBegun(st, st', Evaluating(f.sid, Some(st.servers[sid].begun), f.text), sid);
    } else if f.sid.Some? && st.servers[f.sid.value].shared.running.None? {
      BooksTop(st, st', Evaluating(f.sid, Some(st.servers[f.sid.value].begun), f.text), sid);
    } else {
      BooksTop(st, st', Evaluating(f.sid, None, f.text), sid);
    }
  }

  /** With a request registered that the top frame carries, no frame below carries one. */
  lemma OnlyTopCarries(st: System, sid: nat)
    requires Books(st, sid) && st.stack != [] && Carried(Top(st), sid) != [] && !Done(Top(st))
    requires st.servers[sid].shared.running.Some?
    ensures InFlight(st.stack[..|st.stack| - 1], sid) == []
    ensures InFlight(st.stack, sid) == [st.servers[sid].shared.running.value.id]
  {
    assert |InFlight(st.stack, sid)| == |InFlight(st.stack[..|st.stack| - 1], sid)| + |Carried(Top(st), sid)|;
  }

  /** The top frame unregisters its request: it was the registered one. */
  lemma BooksTaken(st: System, st': System, f: Frame, sid: nat)
    requires Books(st, sid) && st.stack != [] && Carried(Top(st), sid) != [] && !Done(Top(st))
    requires sid < |st'.servers|
    requires History(st'.servers[sid]) == History(st.servers[sid]) && st'.servers[sid].begun == st.servers[sid].begun
    requires st'.servers[sid].shared.running.None? && f.Taken? && f.sid == Some(sid)
    requires st'.stack == st.stack[..|st.stack| - 1] + [f]
    requires st.servers[sid].shared.running == Some(f.run)
    ensures Books(st', sid)
  {
    OnlyTopCarries(st, sid);
    InFlightPush(st.stack[..|st.stack| - 1], f, sid);
    assert Top(st') == f;
    assert InFlight(st'.stack, sid) == InFlight(st.stack, sid);
  }

  /** A frame about to finish finds its own request registered. */
  lemma FindsOwn(st: System, sid: nat)
    requires Books(st, sid) && st.stack != [] && Top(st).Returned? && Top(st).sid == Some(sid) && Top(st).req.Some?
    ensures st.servers[sid].shared.running.Some?
    ensures st.servers[sid].shared.running.value.id == Top(st).req.value
  {
    assert InFlight(st.stack, sid)[|InFlight(st.stack, sid)| - 1] == Top(st).req.value;
  }

  lemma TakeBooks(st: System, sid: nat)
    requires StackShape(st) && CanStep(st, Take) && Books(st, sid)
    requires Top(st).sid.Some? && Books(st, Top(st).sid.value)
    ensures Books(TakeStep(st), sid)
  {
    var f, st' := Top(st), TakeStep(st);
    FindsOwn(st, f.sid.value);
    var run := st.servers[f.sid.value].shared.running.value;
    if f.sid == Some(sid) {
      BooksTaken(st, st', Taken(f.sid, run, f.text, f.reply), sid);
    } else {
      BooksTop(st, st', Taken(f.sid, run, f.text, f.reply), sid);
    }
  }

  /** Below the top no frame is done. */
  lemma NotDone(st: System)
    requires StackShape(st) && |st.stack| > 1
    ensures !Done(st.stack[..|st.stack| - 1][|st.stack| - 2])
  {}

  /** The top frame records its end. */
  lemma BooksRecorded(st: System, st': System, e: RequestEnd, sid: nat)
    requires StackShape(st) && Books(st, sid) && st.stack != [] && Done(Top(st)) && Top(st).sid == Some(sid)
    requires st'.stack == st.stack[..|st.stack| - 1] && sid < |st'.servers| && e.id == Top(st).run.id
    requires History(st'.servers[sid]) == History(st.servers[sid]) + [e]
    requires st'.servers[sid].begun == st.servers[sid].begun && st'.servers[sid].shared.running.None?
    ensures Books(st', sid)
  {
    if |st.stack| > 1 { NotDone(st); }
    LastInFlight(st, sid, e.id);
    IdsAppend(History(st.servers[sid]), e);
    assert Ids(History(st'.servers[sid])) == Below(st.servers[sid].begun);
    assert Ids(History(st'.servers[sid])) + [] == Below(st.servers[sid].begun);
  }

  lemma LastInFlight(st: System, sid: nat, id: nat)
    requires st.stack != [] && InFlight(st.stack, sid) == [id] && Carried(Top(st), sid) == [id]
    ensures InFlight(st.stack[..|st.stack| - 1], sid) == []
  {
    assert InFlight(st.stack, sid) == InFlight(st.stack[..|st.stack| - 1], sid) + [id];
  }

  lemma IdsAppend(ends: seq<RequestEnd>, e: RequestEnd)
    ensures Ids(ends + [e]) == Ids(ends) + [e.id]
  {}

  /** The top frame goes, and it carried nothing on this server. */
  lemma BooksPopped(st: System, st': System, sid: nat)
    requires StackShape(st) && Books(st, sid) && st.stack != [] && Carried(Top(st), sid) == []
    requires st'.stack == st.stack[..|st.stack| - 1] && sid < |st'.servers|
    requires st'.servers[sid] == st.servers[sid]
    ensures Books(st', sid)
  {
    if |st.stack| > 1 { NotDone(st); }
  }

  lemma PushBooks(st: System, sid: nat)
    requires StackShape(st) && CanStep(st, Push) && Books(st, sid)
    ensures Books(PushStep(st), sid)
  {
    var f, st' := Top(st), PushStep(st);
    assert FrameShape(f, |st.servers|);
    if f.sid == Some(sid) {
      var e := EndOf(f.run, f.text, f.duration, f.reply);
      assert History(st'.servers[sid]) == History(st.servers[sid]) + [e];
      BooksRecorded(st, st', e, sid);
    } else {
      BooksPopped(st, st', sid);
    }
  }

  lemma LeaveBooks(st: System, sid: nat)
    requires StackShape(st) && CanStep(st, Leave) && Books(st, sid)
    ensures Books(Step(st, Leave), sid)
  {
    BooksPopped(st, Step(st, Leave), sid);
  }

  lemma ReplyBooks(st: System, reply: Reply, sid: nat)
    requires StackShape(st) && CanStep(st, Return(reply)) && Books(st, sid)
    ensures Books(ReturnStep(st, reply), sid)
  {
    BooksTop(st, ReturnStep(st, reply), Top(ReturnStep(st, reply)), sid);
  }

  lemma ClockBooks(st: System, sid: nat)
    requires StackShape(st) && CanStep(st, ReadClock) && Books(st, sid)
    ensures Books(Step(st, ReadClock), sid)
  {
    BooksTop(st, Step(st, ReadClock), Top(Step(st, ReadClock)), sid);
  }

  lemma EnterBooks(st: System, text: string, sid: nat)
    requires StackShape(st) && CanStep(st, Enter(text)) && Books(st, sid)
    ensures Books(Step(st, Enter(text)), sid)
  {
    InFlightPush(st.stack, Entered(st.installed, text), sid);
  }

  lemma BooksStep(st: System, ev: Event, sid: nat)
    requires StackShape(st) && CanStep(st, ev) && Books(st, sid)
    requires FoundAtTake(st, ev)
    ensures Books(Step(st, ev), sid)
  {
    match ev
    case Enter(text) => EnterBooks(st, text, sid);
    case Begin => BeginBooks(st, sid);
    case Return(reply) => ReplyBooks(st, reply, sid);
    case Take => TakeBooks(st, sid);
    case ReadClock => ClockBooks(st, sid);
    case Push => PushBooks(st, sid);
    case Leave => LeaveBooks(st, sid);
    case _ => QuietServer(st, ev, sid); BooksKept(st, Step(st, ev), sid);
  }

  /** A server `start` has just made has no books to disagree. */
  lemma NewBooks(st: System, ev: Event)
    requires StackShape(st) && CanStep(st, ev) && |Step(st, ev).servers| > |st.servers|
    ensures |Step(st, ev).servers| == |st.servers| + 1 && Books(Step(st, ev), |st.servers|)
  {
    InFlightElsewhere(st.stack, |st.servers|);
    assert ev.Start?;
  }

  lemma AllBooks(st: System, ev: Event, sid: nat)
    requires StackShape(st) && CanStep(st, ev) && sid < |Step(st, ev).servers|
    requires forall i: nat :: i < |st.servers| ==> Books(st, i)
    ensures Books(Step(st, ev), sid)
  {
    if ev.Take? { assert FrameShape(Top(st), |st.servers|); }
    if sid < |st.servers| { BooksStep(st, ev, sid); } else { NewBooks(st, ev); }
  }

  lemma SoundStep(st: System, ev: Event)
    requires Sound(st) && Enabled(st, ev)
    ensures CanStep(st, ev) && Sound(Step(st, ev))
  {
    if st.stack != [] { assert FrameShape(Top(st), |st.servers|); }
    SlotsStep(st, ev);
    ShapeStep(st, ev);
    FlagStep(st, ev);
    forall i: nat | i < |st.servers| ensures Books(st, i) { assert Registered(st, i) && Accounted(st, i); }
    forall sid | 0 <= sid < |Step(st, ev).servers|
      ensures Registered(Step(st, ev), sid) && Accounted(Step(st, ev), sid)
    {
      AllBooks(st, ev, sid);
    }
  }

  // ---- how requests end ----

  function Lookup<V>(m: map<nat, V>, id: nat): Option<V>
  {
    if id in m then Some(m[id]) else None
  }

  /** An end says what the reply and whoever stopped the request make it. */
  predicate EndTrue(s: Server, e: RequestEnd)
  {
    e.id in s.replies && e.ended == Classify(s.replies[e.id], Lookup(s.stops, e.id))
  }

  predicate TopTrue(s: Server, f: Frame)
  {
    match f
    case Returned(_, req, _, reply) => req.Some? ==> Lookup(s.replies, req.value) == Some(reply)
    case Taken(_, run, _, reply) =>
      Lookup(s.replies, run.id) == Some(reply) && run.stoppedBy == Lookup(s.stops, run.id)
    case Timed(_, run, _, reply, _) =>
      Lookup(s.replies, run.id) == Some(reply) && run.stoppedBy == Lookup(s.stops, run.id)
    case _ => true
  }

  predicate Outcomes(st: System, sid: nat)
    requires sid < |st.servers|
  {
    var s := st.servers[sid];
    && (forall id :: id in s.stops ==> id < s.begun)
    && (s.shared.running.Some? ==> s.shared.running.value.stoppedBy == Lookup(s.stops, s.shared.running.value.id))
    && (forall e :: e in History(s) ==> EndTrue(s, e))
    && (st.stack != [] && Top(st).sid == Some(sid) ==> TopTrue(s, Top(st)))
  }

  /** Ends carry the ordinals in order, and a request in flight comes right after them. */
  lemma EndIds(st: System, sid: nat)
    requires Books(st, sid)
    ensures var s := st.servers[sid];
      && (forall i :: 0 <= i < |History(s)| ==> History(s)[i].id == i)
      && s.begun == |History(s)| + |InFlight(st.stack, sid)|
      && (InFlight(st.stack, sid) != [] ==> InFlight(st.stack, sid)[0] == |History(s)|)
      && (s.shared.running.Some? ==> s.shared.running.value.id == |History(s)|)
  {
    var s := st.servers[sid];
    var all := Ids(History(s)) + InFlight(st.stack, sid);
    assert |all| == s.begun;
    assert forall i :: 0 <= i < |all| ==> all[i] == i;
    assert forall i :: 0 <= i < |History(s)| ==> all[i] == History(s)[i].id;
    if InFlight(st.stack, sid) != [] { assert all[|History(s)|] == InFlight(st.stack, sid)[0]; }
  }

  lemma CheckOutcomes(st: System, sid: nat, gone: bool)
    requires sid < |st.servers| && Books(st, sid) && Outcomes(st, sid)
    ensures Outcomes(CheckStep(st, sid, gone), sid)
  {
    EndIds(st, sid);
    var s, s' := st.servers[sid], CheckStep(st, sid, gone).servers[sid];
    forall e | e in History(s') ensures EndTrue(s', e) {
      assert e in History(s) && EndTrue(s, e);
    }
  }

  /** The request an evaluation returns for comes right after the ends there are. */
  lemma ReturnedOrdinal(st: System, sid: nat)
    requires st.stack != [] && Top(st).Evaluating? && Top(st).sid == Some(sid) && Top(st).req.Some? && Books(st, sid)
    ensures Top(st).req.value == |History(st.servers[sid])|
  {
    EndIds(st, sid);
    assert InFlight(st.stack, sid) == InFlight(st.stack[..|st.stack| - 1], sid) + [Top(st).req.value];
    assert |InFlight(st.stack, sid)| == 1;
  }

  lemma ReplyOutcomes(st: System, reply: Reply, sid: nat)
    requires StackShape(st) && CanStep(st, Return(reply)) && Books(st, sid) && Outcomes(st, sid)
    ensures Outcomes(ReturnStep(st, reply), sid)
  {
    EndIds(st, sid);
    var f, st' := Top(st), ReturnStep(st, reply);
    var s, s' := st.servers[sid], st'.servers[sid];
    assert Top(st') == Returned(f.sid, f.req, f.text, reply);
    if f.sid == Some(sid) && f.req.Some? { ReturnedOrdinal(st, sid); }
    forall e | e in History(s') ensures EndTrue(s', e) {
      assert e in History(s) && EndTrue(s, e);
    }
  }

  lemma BeginOutcomes(st: System, sid: nat)
    requires StackShape(st) && CanStep(st, Begin) && Books(st, sid) && Outcomes(st, sid)
    ensures Outcomes(BeginStep(st), sid)
  {
    var s, s' := st.servers[sid], BeginStep(st).servers[sid];
    assert Top(BeginStep(st)).Evaluating?;
    forall e | e in History(s') ensures EndTrue(s', e) {
      assert e in History(s) && EndTrue(s, e);
    }
  }

  lemma TakeOutcomes(st: System, sid: nat)
    requires StackShape(st) && CanStep(st, Take) && Books(st, sid) && Outcomes(st, sid)
    requires Top(st).sid.Some? && Books(st, Top(st).sid.value)
    ensures Outcomes(TakeStep(st), sid)
  {
    var f, st' := Top(st), TakeStep(st);
    FindsOwn(st, f.sid.value);
    var run := st.servers[f.sid.value].shared.running.value;
    assert Top(st') == Taken(f.sid, run, f.text, f.reply);
    var s, s' := st.servers[sid], st'.servers[sid];
    forall e | e in History(s') ensures EndTrue(s', e) {
      assert e in History(s) && EndTrue(s, e);
    }
  }

  lemma PushOutcomes(st: System, sid: nat)
    requires StackShape(st) && CanStep(st, Push) && sid < |st.servers| && Outcomes(st, sid)
    ensures Outcomes(PushStep(st), sid)
  {
    var f, st' := Top(st), PushStep(st);
    var s, s' := st.servers[sid], st'.servers[sid];
    if |st.stack| > 1 { assert Top(st') == st.stack[|st.stack| - 2]; assert Top(st').Evaluating?; }
    assert FrameShape(f, |st.servers|);
    forall e | e in History(s') ensures EndTrue(s', e) {
      if f.sid == Some(sid) {
        assert History(s') == History(s) + [EndOf(f.run, f.text, f.duration, f.reply)];
      }
      if e in History(s) { assert EndTrue(s, e); }
    }
  }

  /** Nothing an outcome depends on changes. */
  lemma OutcomesKept(st: System, st': System, sid: nat)
    requires sid < |st.servers| && sid < |st'.servers| && Outcomes(st, sid)
    requires SameBooks(st.servers[sid], st'.servers[sid])
    requires st'.servers[sid].stops == st.servers[sid].stops && st'.servers[sid].replies == st.servers[sid].replies
    requires st'.servers[sid].shared.running == st.servers[sid].shared.running
    requires st'.stack == [] || (st.stack != [] && Top(st') == Top(st)) ||
      (Top(st').sid == Some(sid) ==> TopTrue(st'.servers[sid], Top(st')))
    ensures Outcomes(st', sid)
  {
    var s, s' := st.servers[sid], st'.servers[sid];
    forall e | e in History(s') ensures EndTrue(s', e) {
      assert e in History(s) && EndTrue(s, e);
    }
  }

  lemma QuietOutcomes(st: System, ev: Event, sid: nat)
    requires CanStep(st, ev) && !MovesFrame(ev) && sid < |st.servers|
    requires ev.WatcherCheck? ==> ev.sid != sid
    ensures var s, s' := st.servers[sid], Step(st, ev).servers[sid];
      s'.stops == s.stops && s'.replies == s.replies && s'.shared.running == s.shared.running
  {}

  lemma OutcomesStep(st: System, ev: Event, sid: nat)
    requires StackShape(st) && CanStep(st, ev) && Books(st, sid) && Outcomes(st, sid)
    requires FoundAtTake(st, ev)
    ensures Outcomes(Step(st, ev), sid)
  {
    match ev
    case Begin => BeginOutcomes(st, sid);
    case Return(reply) => ReplyOutcomes(st, reply, sid);
    case Take => TakeOutcomes(st, sid);
    case Push => PushOutcomes(st, sid);
    case Enter(_) | ReadClock | Leave => FrameOutcomes(st, ev, sid);
    case WatcherCheck(w, gone) =>
      if w == sid { CheckOutcomes(st, sid, gone); } else { QuietOutcomesStep(st, ev, sid); }
    case _ => QuietOutcomesStep(st, ev, sid);
  }

  lemma FrameOutcomes(st: System, ev: Event, sid: nat)
    requires StackShape(st) && CanStep(st, ev) && sid < |st.servers| && Outcomes(st, sid)
    requires ev.Enter? || ev.ReadClock? || ev.Leave?
    ensures Outcomes(Step(st, ev), sid)
  {
    if ev.ReadClock? {
      var f := Top(st);
      assert Top(Step(st, ev)) == Timed(f.sid, f.run, f.text, f.reply, Since(st.now, f.run.started));
    } else if ev.Enter? {
      assert Top(Step(st, ev)) == Entered(st.installed, ev.text);
    } else if |st.stack| > 1 {
      assert Top(Step(st, ev)) == st.stack[|st.stack| - 2];
      assert Top(Step(st, ev)).Evaluating?;
    }
    OutcomesKept(st, Step(st, ev), sid);
  }

  lemma QuietOutcomesStep(st: System, ev: Event, sid: nat)
    requires CanStep(st, ev) && !MovesFrame(ev) && sid < |st.servers| && Outcomes(st, sid)
    requires ev.WatcherCheck? ==> ev.sid != sid
    ensures Outcomes(Step(st, ev), sid)
  {
    QuietServer(st, ev, sid);
    QuietOutcomes(st, ev, sid);
    OutcomesKept(st, Step(st, ev), sid);
  }

  // ---- time ----

  /** A budget stop came no earlier than the budget allows, seen from `elapsed`. */
  predicate Overran(s: Server, who: Option<By>, elapsed: nat)
  {
    who == Some(Budget) ==> s.shared.budget.Some? && s.shared.budget.value <= elapsed
  }

  predicate Paced(st: System, sid: nat)
    requires sid < |st.servers|
  {
    var s := st.servers[sid];
    && (s.shared.running.Some? ==>
          var run := s.shared.running.value;
          run.started <= st.now && Overran(s, run.stoppedBy, st.now - run.started))
    && (forall e :: e in History(s) ==> Overran(s, if e.ended.Cancelled? then Some(e.ended.who) else None, e.duration))
    && (st.stack != [] && Top(st).sid == Some(sid) && Top(st).Taken? ==>
          Top(st).run.started <= st.now && Overran(s, Top(st).run.stoppedBy, st.now - Top(st).run.started))
    && (st.stack != [] && Top(st).sid == Some(sid) && Top(st).Timed? ==>
          Overran(s, Top(st).run.stoppedBy, Top(st).duration))
  }

  lemma PushPaced(st: System, sid: nat)
    requires StackShape(st) && CanStep(st, Push) && sid < |st.servers| && Paced(st, sid)
    ensures Paced(PushStep(st), sid)
  {
    var f, st' := Top(st), PushStep(st);
    var s, s' := st.servers[sid], st'.servers[sid];
    if |st.stack| > 1 { assert Top(st') == st.stack[|st.stack| - 2]; assert Top(st').Evaluating?; }
    assert FrameShape(f, |st.servers|);
    if f.sid == Some(sid) {
      assert History(s') == History(s) + [EndOf(f.run, f.text, f.duration, f.reply)];
    }
  }

  lemma TakePaced(st: System, sid: nat)
    requires StackShape(st) && CanStep(st, Take) && sid < |st.servers| && Paced(st, sid)
    requires Top(st).sid.Some? && Books(st, Top(st).sid.value)
    ensures Paced(TakeStep(st), sid)
  {
    var f, st' := Top(st), TakeStep(st);
    FindsOwn(st, f.sid.value);
    assert Top(st') == Taken(f.sid, st.servers[f.sid.value].shared.running.value, f.text, f.reply);
    assert History(st'.servers[sid]) == History(st.servers[sid]);
  }

  lemma PacedKept(st: System, st': System, sid: nat)
    requires sid < |st.servers| && sid < |st'.servers| && Paced(st, sid) && st.now <= st'.now
    requires History(st'.servers[sid]) == History(st.servers[sid])
    requires st'.servers[sid].shared.budget == st.servers[sid].shared.budget
    requires st'.servers[sid].shared.running == st.servers[sid].shared.running
    requires st'.stack == [] || (st.stack != [] && Top(st') == Top(st)) || !Done(Top(st')) || Top(st').sid != Some(sid)
    ensures Paced(st', sid)
  {}

  lemma QuietPaced(st: System, ev: Event, sid: nat)
    requires CanStep(st, ev) && !MovesFrame(ev) && sid < |st.servers|
    requires ev.WatcherCheck? ==> ev.sid != sid
    requires ev.Tick? ==> st.now <= ev.now
    ensures Step(st, ev).servers[sid].shared.budget == st.servers[sid].shared.budget
    ensures st.now <= Step(st, ev).now
  {}

  lemma BeginPaced(st: System, sid: nat)
    requires StackShape(st) && CanStep(st, Begin) && sid < |st.servers| && Paced(st, sid)
    ensures Paced(BeginStep(st), sid)
  {
    assert !Done(Top(BeginStep(st)));
    assert History(BeginStep(st).servers[sid]) == History(st.servers[sid]);
  }

  lemma ClockPaced(st: System, sid: nat)
    requires CanStep(st, ReadClock) && sid < |st.servers| && Paced(st, sid)
    ensures Paced(Step(st, ReadClock), sid)
  {
    var f := Top(st);
    assert Top(Step(st, ReadClock)) == Timed(f.sid, f.run, f.text, f.reply, Since(st.now, f.run.started));
  }

  lemma CheckPaced(st: System, sid: nat, gone: bool)
    requires sid < |st.servers| && Paced(st, sid)
    ensures Paced(CheckStep(st, sid, gone), sid)
  {
    assert History(CheckStep(st, sid, gone).servers[sid]) == History(st.servers[sid]);
  }

  /** The frame that comes to the top is still evaluating. */
  lemma TopAfter(st: System, ev: Event)
    requires StackShape(st) && CanStep(st, ev) && (ev.Leave? || ev.Enter? || ev.Return?)
    ensures Step(st, ev).stack == [] || !Done(Top(Step(st, ev)))
    ensures Step(st, ev).now == st.now
  {
    if ev.Leave? && |st.stack| > 1 { NotDone(st); }
  }

  lemma FramePaced(st: System, ev: Event, sid: nat)
    requires StackShape(st) && CanStep(st, ev) && sid < |st.servers| && Paced(st, sid)
    requires ev.Leave? || ev.Enter? || ev.Return?
    ensures Paced(Step(st, ev), sid)
  {
    TopAfter(st, ev);
    PacedKept(st, Step(st, ev), sid);
  }

  lemma PacedStep(st: System, ev: Event, sid: nat)
    requires StackShape(st) && CanStep(st, ev) && Books(st, sid) && Paced(st, sid)
    requires FoundAtTake(st, ev)
    requires ev.Tick? ==> st.now <= ev.now
    ensures Paced(Step(st, ev), sid)
  {
    match ev
    case Begin => BeginPaced(st, sid);
    case Take => TakePaced(st, sid);
    case Push => PushPaced(st, sid);
    case ReadClock => ClockPaced(st, sid);
    case Leave | Enter(_) | Return(_) => FramePaced(st, ev, sid);
    case WatcherCheck(w, gone) =>
      if w == sid { CheckPaced(st, sid, gone); } else { QuietPacedStep(st, ev, sid); }
    case _ => QuietPacedStep(st, ev, sid);
  }

  lemma QuietPacedStep(st: System, ev: Event, sid: nat)
    requires CanStep(st, ev) && !MovesFrame(ev) && sid < |st.servers| && Paced(st, sid)
    requires ev.WatcherCheck? ==> ev.sid != sid
    requires ev.Tick? ==> st.now <= ev.now
    ensures Paced(Step(st, ev), sid)
  {
    QuietServer(st, ev, sid);
    QuietOutcomes(st, ev, sid);
    QuietPaced(st, ev, sid);
    PacedKept(st, Step(st, ev), sid);
  }

  // ---- whole runs ----

  predicate IsRun(st: System, evs: seq<Event>)
    requires Sound(st)
    decreases |evs|
  {
    evs == [] || (Enabled(st, evs[0]) && (SoundStep(st, evs[0]); IsRun(Step(st, evs[0]), evs[1..])))
  }

  function After(st: System, evs: seq<Event>): System
    requires Sound(st) && IsRun(st, evs)
    decreases |evs|
  {
    if evs == [] then st else (SoundStep(st, evs[0]); After(Step(st, evs[0]), evs[1..]))
  }

  /** The clock never goes back. */
  predicate Monotone(now: nat, evs: seq<Event>)
    decreases |evs|
  {
    evs == [] ||
    (if evs[0].Tick? then now <= evs[0].now && Monotone(evs[0].now, evs[1..]) else Monotone(now, evs[1..]))
  }

  predicate AllOutcomes(st: System)
  {
    forall sid :: 0 <= sid < |st.servers| ==> Outcomes(st, sid)
  }

  predicate AllPaced(st: System)
  {
    forall sid :: 0 <= sid < |st.servers| ==> Paced(st, sid)
  }

  lemma AllStep(st: System, ev: Event)
    requires Sound(st) && Enabled(st, ev) && AllOutcomes(st)
    ensures CanStep(st, ev) && Sound(Step(st, ev)) && AllOutcomes(Step(st, ev))
    ensures AllPaced(st) && (ev.Tick? ==> st.now <= ev.now) ==> AllPaced(Step(st, ev))
  {
    SoundStep(st, ev);
    if st.stack != [] { assert FrameShape(Top(st), |st.servers|); }
    var st' := Step(st, ev);
    forall sid | 0 <= sid < |st'.servers|
      ensures Outcomes(st', sid)
      ensures AllPaced(st) && (ev.Tick? ==> st.now <= ev.now) ==> Paced(st', sid)
    {
      if sid < |st.servers| {
        OutcomesStep(st, ev, sid);
        if AllPaced(st) && (ev.Tick? ==> st.now <= ev.now) { PacedStep(st, ev, sid); }
      } else {
        NewOutcomes(st, ev);
      }
    }
  }

  lemma NewOutcomes(st: System, ev: Event)
    requires Sound(st) && CanStep(st, ev) && |Step(st, ev).servers| > |st.servers|
    ensures |Step(st, ev).servers| == |st.servers| + 1
    ensures Outcomes(Step(st, ev), |st.servers|) && Paced(Step(st, ev), |st.servers|)
  {
    assert ev.Start?;
    if st.stack != [] { assert FrameShape(Top(st), |st.servers|); }
  }

  lemma {:induction false} RunSound(st: System, evs: seq<Event>)
    requires Sound(st) && AllOutcomes(st) && IsRun(st, evs)
    ensures Sound(After(st, evs)) && AllOutcomes(After(st, evs))
    ensures AllPaced(st) && Monotone(st.now, evs) ==> AllPaced(After(st, evs))
    decreases |evs|
  {
    if evs != [] {
      AllStep(st, evs[0]);
      StepNow(st, evs[0]);
      RunSound(Step(st, evs[0]), evs[1..]);
    }
  }

  lemma StepNow(st: System, ev: Event)
    requires CanStep(st, ev)
    ensures Step(st, ev).now == if ev.Tick? then ev.now else st.now
  {}

  // ---- the guarantees ----

  /** `evs` is a run of the process from its start, at time `t`. */
  predicate FromStart(t: nat, evs: seq<Event>)
  {
    IsRun(Initial(t), evs)
  }

  function Reached(t: nat, evs: seq<Event>): System
    requires FromStart(t, evs)
  {
    After(Initial(t), evs)
  }

  lemma ReachedSound(t: nat, evs: seq<Event>)
    requires FromStart(t, evs)
    ensures Sound(Reached(t, evs)) && AllOutcomes(Reached(t, evs))
    ensures Monotone(t, evs) ==> AllPaced(Reached(t, evs))
  {
    RunSound(Initial(t), evs);
  }

  /**
   A pending interrupt that a watcher raised belongs to a request that is registered and that this
   watcher stopped. So between requests, with no guard call on the stack, none is pending: an
   evaluation for the Q wire that starts there can only be met by a client's own cancel.
   */
  lemma NoStrayInterrupt(t: nat, evs: seq<Event>)
    requires FromStart(t, evs)
    ensures var st := Reached(t, evs);
      && (forall o :: o in st.flag && o.Watcher? ==>
            && o.sid < |st.servers| && st.servers[o.sid].shared.running.Some?
            && st.servers[o.sid].shared.running.value.stoppedBy.Some?
            && InFlight(st.stack, o.sid) == [st.servers[o.sid].shared.running.value.id])
      && (st.stack == [] ==> st.flag <= {Peer})
  {
    ReachedSound(t, evs);
    var st := Reached(t, evs);
    forall o | o in st.flag && o.Watcher?
      ensures o.sid < |st.servers| && st.servers[o.sid].shared.running.Some?
      ensures InFlight(st.stack, o.sid) == [st.servers[o.sid].shared.running.value.id]
    {
      assert Registered(st, o.sid);
    }
    assert st.stack == [] ==> forall o :: o in st.flag ==> o == Peer;
  }

  /**
   Every registered request has exactly one end, in order, however the drains fell: what was
   drained, what is pending and the at most one request still in flight are the requests begun. A
   call that found a request registered has none of its own.
   */
  lemma OneEndEach(t: nat, evs: seq<Event>, sid: nat)
    requires FromStart(t, evs) && sid < |Reached(t, evs).servers|
    ensures var st := Reached(t, evs); var s := st.servers[sid];
      && Ids(s.drained + s.shared.ends) + InFlight(st.stack, sid) == Below(s.begun)
      && |InFlight(st.stack, sid)| <= 1
      && (st.stack == [] ==> Ids(s.drained + s.shared.ends) == Below(s.begun))
  {
    ReachedSound(t, evs);
    var st := Reached(t, evs);
    assert Registered(st, sid) && Accounted(st, sid);
    if st.stack == [] { assert Ids(History(st.servers[sid])) + [] == Ids(History(st.servers[sid])); }
  }

  /**
   What an end reports: answered exactly when evaluation gave a value, an interrupt or no; cancelled
   exactly when it gave `cancel`, by the watcher's reason if it had stopped the request and by the
   client otherwise; failed with any other error.
   */
  lemma EndsTellTheTruth(t: nat, evs: seq<Event>, sid: nat, e: RequestEnd, who: By, code: Code)
    requires FromStart(t, evs) && sid < |Reached(t, evs).servers| && e in History(Reached(t, evs).servers[sid])
    ensures var s := Reached(t, evs).servers[sid];
      && e.id in s.replies
      && (e.ended == Answered <==> s.replies[e.id] == Answer)
      && (e.ended == Failed(code) <==> code != Cancel && s.replies[e.id] == Error(code))
      && (e.ended == Cancelled(who) <==>
            s.replies[e.id] == Error(Cancel) && (if e.id in s.stops then s.stops[e.id] == who else who == Client))
  {
    ReachedSound(t, evs);
    assert Outcomes(Reached(t, evs), sid);
    assert EndTrue(Reached(t, evs).servers[sid], e);
  }

  /** With a clock that never goes back, a request reported stopped by the budget ran at least that long. */
  lemma BudgetSpent(t: nat, evs: seq<Event>, sid: nat, e: RequestEnd)
    requires FromStart(t, evs) && Monotone(t, evs)
    requires sid < |Reached(t, evs).servers| && e in History(Reached(t, evs).servers[sid])
    requires e.ended == Cancelled(Budget)
    ensures var budget := Reached(t, evs).servers[sid].shared.budget; budget.Some? && budget.value <= e.duration
  {
    ReachedSound(t, evs);
    assert Paced(Reached(t, evs), sid);
  }

  lemma StopsStep(st: System, ev: Event, sid: nat)
    requires Sound(st) && AllOutcomes(st) && CanStep(st, ev) && sid < |st.servers|
    ensures sid < |Step(st, ev).servers|
    ensures forall id :: id in st.servers[sid].stops ==>
      id in Step(st, ev).servers[sid].stops && Step(st, ev).servers[sid].stops[id] == st.servers[sid].stops[id]
  {
    assert Outcomes(st, sid);
  }

  lemma {:induction false} StopsStand(st: System, evs: seq<Event>, sid: nat, id: nat)
    requires Sound(st) && AllOutcomes(st) && IsRun(st, evs)
    requires sid < |st.servers| && id in st.servers[sid].stops
    ensures sid < |After(st, evs).servers| && id in After(st, evs).servers[sid].stops
    ensures After(st, evs).servers[sid].stops[id] == st.servers[sid].stops[id]
    decreases |evs|
  {
    if evs != [] {
      AllStep(st, evs[0]);
      StopsStep(st, evs[0], sid);
      StopsStand(Step(st, evs[0]), evs[1..], sid, id);
    }
  }

  /** A run goes on from where its first part ends. */
  lemma {:induction false} RunSplit(st: System, evs: seq<Event>, more: seq<Event>)
    requires Sound(st) && IsRun(st, evs) && IsRun(st, evs + more) && Sound(After(st, evs))
    ensures IsRun(After(st, evs), more) && After(st, evs + more) == After(After(st, evs), more)
    decreases |evs|
  {
    if evs == [] {
      assert evs + more == more;
    } else {
      SoundStep(st, evs[0]);
      assert (evs + more)[1..] == evs[1..] + more;
      RunSplit(Step(st, evs[0]), evs[1..], more);
    }
  }

  /**
   Who stopped a request is decided once. From the moment a watcher has stopped it, whatever `more`
   happens, it stays stopped for that reason while it runs and, if its end is a cancel, that is the
   reason the end gives.
   */
  lemma StoppedOnce(t: nat, evs: seq<Event>, more: seq<Event>, sid: nat, run: Running, e: RequestEnd)
    requires FromStart(t, evs) && FromStart(t, evs + more) && sid < |Reached(t, evs).servers|
    requires Reached(t, evs).servers[sid].shared.running == Some(run) && run.stoppedBy.Some?
    ensures var st := Reached(t, evs + more);
      && sid < |st.servers|
      && var s := st.servers[sid];
         && (s.shared.running.Some? && s.shared.running.value.id == run.id ==>
               s.shared.running.value.stoppedBy == run.stoppedBy)
         && (e in History(s) && e.id == run.id && e.ended.Cancelled? ==> Some(e.ended.who) == run.stoppedBy)
  {
    ReachedSound(t, evs);
    ReachedSound(t, evs + more);
    RunSplit(Initial(t), evs, more);
    var st, st' := Reached(t, evs), Reached(t, evs + more);
    assert Outcomes(st, sid);
    StopsStand(st, more, sid, run.id);
    StoppedAs(st', sid, run.id, run.stoppedBy, e);
  }

  lemma StoppedAs(st: System, sid: nat, id: nat, who: Option<By>, e: RequestEnd)
    requires AllOutcomes(st) && sid < |st.servers| && who.Some? && Lookup(st.servers[sid].stops, id) == who
    ensures var s := st.servers[sid];
      && (s.shared.running.Some? && s.shared.running.value.id == id ==> s.shared.running.value.stoppedBy == who)
      && (e in History(s) && e.id == id && e.ended.Cancelled? ==> Some(e.ended.who) == who)
  {
    assert Outcomes(st, sid);
    if e in History(st.servers[sid]) { assert EndTrue(st.servers[sid], e); }
  }

  /**
   One server at a time: while one is starting, serving or being dropped, another `start` is refused
   and changes nothing; and a server that is gone has no watcher left to interrupt anything.
   */
  lemma OneServer(t: nat, evs: seq<Event>, a: nat, current: bool, budget: Option<nat>, port: nat)
    requires FromStart(t, evs) && a < |Reached(t, evs).servers|
    ensures var st := Reached(t, evs);
      && (st.servers[a].handle != Gone ==>
            && CanStep(st, Start(current, budget, port)) && Step(st, Start(current, budget, port)) == st
            && forall b :: 0 <= b < |st.servers| && st.servers[b].handle != Gone ==> b == a)
      && (st.servers[a].handle == Gone ==> forall gone :: !Enabled(st, WatcherCheck(a, gone)))
  {
    ReachedSound(t, evs);
    var st := Reached(t, evs);
    if st.stack != [] { assert FrameShape(Top(st), |st.servers|); }
  }

  // ---- what single steps do ----

  /**
   A look by server `sid`'s watcher. An unstopped request is stopped by the budget if there is one and
   it is spent, else by the hangup if the client has gone, and else not at all; the interrupt is raised
   exactly if it is stopped here. A stopped request, or none, is left alone, and so are other servers.
   */
  lemma LookStopsExactly(st: System, sid: nat, gone: bool)
    requires CanStep(st, WatcherCheck(sid, gone))
    ensures var st', s := Step(st, WatcherCheck(sid, gone)), st.servers[sid].shared;
      var s' := st'.servers[sid].shared;
      && |st'.servers| == |st.servers| && st'.servers[sid].watcher == AtTest
      && (forall j :: 0 <= j < |st.servers| && j != sid ==> st'.servers[j] == st.servers[j])
      && (s.running.Some? && s.running.value.stoppedBy.None? ==>
            var run := s.running.value;
            var spent := s.budget.Some? && (run.started + s.budget.value <= st.now || s.budget.value == 0);
            && s'.running ==
               Some(run.(stoppedBy := if spent then Some(Budget) else if gone then Some(Hangup) else None))
            && st'.flag == st.flag + if spent || gone then {Watcher(sid)} else {})
      && (s.running.None? || s.running.value.stoppedBy.Some? ==> s' == s && st'.flag == st.flag)
  {}

  /** A watcher goes on looking until it sees the stop flag, which a drop of the handle sets. */
  lemma WatcherStopsExactly(st: System, sid: nat)
    requires sid < |st.servers|
    ensures CanStep(st, WatcherTest(sid)) ==>
      (Step(st, WatcherTest(sid)).servers[sid].watcher == if st.servers[sid].shared.stop then Exited else Checking)
    ensures CanStep(st, Stop(sid)) ==>
      Step(st, Stop(sid)).servers[sid].shared.stop && Step(st, Stop(sid)).servers[sid].handle == Stopping
    ensures CanStep(st, Join(sid)) ==>
      Step(st, Join(sid)).servers[sid].handle == Gone && Step(st, Join(sid)).installed == None
  {}

  /**
   `start` is refused, with nothing changed, exactly on a loop that is gone, a zero budget, port 0 or a
   server already there; otherwise a server with that budget claims the slot.
   */
  lemma StartExactly(st: System, current: bool, budget: Option<nat>, port: nat)
    requires CanStep(st, Start(current, budget, port))
    ensures var st', n := Step(st, Start(current, budget, port)), |st.servers|;
      if !current || budget == Some(0) || port == 0 || st.installed.Some? then st' == st
      else
        && |st'.servers| == n + 1 && st'.servers[..n] == st.servers && st'.installed == Some(n)
        && st'.servers[n].shared.budget == budget && st'.servers[n].handle == Claimed
        && st'.stack == st.stack && st'.flag == st.flag
  {}

  /** It serves if the hooks and the port were taken and the watcher runs, and gives the slot back if not. */
  lemma LaunchExactly(st: System, sid: nat, listening: bool, spawned: bool)
    requires CanStep(st, Launch(sid, listening, spawned))
    ensures var st' := Step(st, Launch(sid, listening, spawned));
      if listening && spawned
      then st'.servers[sid].handle == Held && st'.servers[sid].watcher == AtTest && st'.installed == st.installed
      else
        && st'.servers[sid].handle == Gone && st'.installed == None
        && st'.servers[sid].watcher == st.servers[sid].watcher
  {}

  /**
   A guard call, step by step: it finds the server installed, registers a request unless one is, clears
   every interrupt as it unregisters it, and leaves one end, with its own text, the time on the clock since
   it registered, and what the reply and the stop make of it.
   */
  lemma GuardSteps(st: System, text: string, reply: Reply)
    requires st.stack != [] ==> Known(st, Top(st))
    ensures Enabled(st, Enter(text)) ==>
      Step(st, Enter(text)).stack == st.stack + [Entered(st.installed, text)]
    ensures Enabled(st, Begin) && Top(st).sid.Some? ==>
      var st', sid := Step(st, Begin), Top(st).sid.value;
      var run := st.servers[sid].shared.running;
      && Top(st') == Evaluating(Some(sid), if run.None? then Some(st.servers[sid].begun) else None, Top(st).text)
      && st'.servers[sid].shared.running ==
           (if run.None? then Some(Running(st.servers[sid].begun, st.now, None)) else run)
    ensures Enabled(st, Begin) && Top(st).sid.None? ==>
      Step(st, Begin) == WithTop(st, Evaluating(None, None, Top(st).text))
    ensures Enabled(st, Return(reply)) ==>
      Top(Step(st, Return(reply))) == Returned(Top(st).sid, Top(st).req, Top(st).text, reply)
    ensures Enabled(st, ReadClock) ==>
      Top(Step(st, ReadClock)) == Timed(Top(st).sid, Top(st).run, Top(st).text, Top(st).reply,
                                        if st.now < Top(st).run.started then 0 else st.now - Top(st).run.started)
    ensures Enabled(st, Push) && Top(st).sid.Some? ==>
      var s, s', f := st.servers[Top(st).sid.value], Step(st, Push).servers[Top(st).sid.value], Top(st);
      && |s'.shared.ends| == |s.shared.ends| + 1 && s'.shared.ends[..|s.shared.ends|] == s.shared.ends
      && s'.shared.ends[|s.shared.ends|].text == f.text && s'.shared.ends[|s.shared.ends|].duration == f.duration
      && s'.shared.ends[|s.shared.ends|].id == f.run.id
  {}

  lemma TakeClears(st: System)
    requires CanStep(st, Take) && Top(st).sid.Some? && st.servers[Top(st).sid.value].shared.running.Some?
    ensures var st', f, sid := Step(st, Take), Top(st), Top(st).sid.value;
      && st'.flag == {} && st'.servers[sid].shared.running == None
      && Top(st') == Taken(Some(sid), st.servers[sid].shared.running.value, f.text, f.reply)
  {}

  /** A client's cancel is pending until the core or a guard call clears it, and touches no server. */
  lemma CancelStaysPending(st: System, now: nat)
    requires st.stack != [] ==> Known(st, Top(st))
    ensures Peer in Step(st, ClientCancel).flag
    ensures Step(st, ClientCancel).(flag := st.flag) == st
    ensures Step(st, CoreClear) == st.(flag := {})
    ensures Step(st, Tick(now)) == st.(now := now)
  {}

  /** A drain hands over whatever is pending and leaves nothing pending. */
  lemma DrainTakesAll(st: System, sid: nat)
    requires CanStep(st, Drain(sid))
    ensures var s, s' := st.servers[sid], Step(st, Drain(sid)).servers[sid];
      s'.drained == s.drained + s.shared.ends && s'.shared.ends == []
  {}

  // ---- a clock that goes back ----

  lemma {:induction false} RunAppend(st: System, evs: seq<Event>, ev: Event)
    requires Sound(st) && IsRun(st, evs) && Enabled(After(st, evs), ev)
    requires After(st, evs).stack != [] ==> Known(After(st, evs), Top(After(st, evs)))
    ensures IsRun(st, evs + [ev]) && After(st, evs + [ev]) == Step(After(st, evs), ev)
    decreases |evs|
  {
    if evs == [] {
      SoundStep(st, ev);
      assert ([] + [ev])[1..] == [];
      assert evs + [ev] == [ev];
    } else {
      SoundStep(st, evs[0]);
      RunAppend(Step(st, evs[0]), evs[1..], ev);
      assert (evs + [ev])[1..] == evs[1..] + [ev];
    }
  }

  /** A request begins at 0, the watcher looks at 10, and then the clock goes back to 3. */
  function SetUp(): seq<Event>
  {
    [Start(true, Some(10), 5011), Launch(0, true, true), Enter("x"), Begin]
  }

  function Stopped(): seq<Event>
  {
    SetUp() + [Tick(10), WatcherTest(0), WatcherCheck(0, false)]
  }

  function Replied(): seq<Event>
  {
    Stopped() + [Tick(3)] + [Return(Error(Cancel))]
  }

  function SetBack(): seq<Event>
  {
    Replied() + [Take] + [ReadClock] + [Push]
  }

  lemma Extend(evs: seq<Event>, ev: Event, st: System, st': System)
    requires FromStart(0, evs) && Reached(0, evs) == st && CanStep(st, ev) && Step(st, ev) == st'
    ensures FromStart(0, evs + [ev]) && Reached(0, evs + [ev]) == st'
  {
    RunAppend(Initial(0), evs, ev);
  }

  function Waiting(handle: Handle, watcher: Thread): Server
  {
    Server(Shared(Some(10), None, [], false), handle, watcher, [], 0, map[], map[])
  }

  function Busy(who: Option<By>, watcher: Thread): Server
  {
    Server(Shared(Some(10), Some(Running(0, 0, who)), [], false), Held, watcher, [], 1,
           if who.Some? then map[0 := who.value] else map[], map[])
  }

  lemma SetUpRuns()
    ensures FromStart(0, SetUp())
    ensures Reached(0, SetUp()) ==
            System([Busy(None, AtTest)], Some(0), [Evaluating(Some(0), Some(0), "x")], {}, 0)
  {
    var st0 := Initial(0);
    var st1 := System([Waiting(Claimed, Unborn)], Some(0), [], {}, 0);
    var st2 := System([Waiting(Held, AtTest)], Some(0), [], {}, 0);
    var st3 := System([Waiting(Held, AtTest)], Some(0), [Entered(Some(0), "x")], {}, 0);
    var st4 := System([Busy(None, AtTest)], Some(0), [Evaluating(Some(0), Some(0), "x")], {}, 0);
    Extend([], SetUp()[0], st0, st1);
    Extend([] + [SetUp()[0]], SetUp()[1], st1, st2);
    Extend([] + [SetUp()[0]] + [SetUp()[1]], SetUp()[2], st2, st3);
    Extend([] + [SetUp()[0]] + [SetUp()[1]] + [SetUp()[2]], SetUp()[3], st3, st4);
    assert [] + [SetUp()[0]] + [SetUp()[1]] + [SetUp()[2]] + [SetUp()[3]] == SetUp();
  }

  lemma StoppedRuns()
    ensures FromStart(0, Stopped())
    ensures Reached(0, Stopped()) ==
            System([Busy(Some(Budget), AtTest)], Some(0), [Evaluating(Some(0), Some(0), "x")], {Watcher(0)}, 10)
  {
    SetUpRuns();
    var frames := [Evaluating(Some(0), Some(0), "x")];
    var st4 := System([Busy(None, AtTest)], Some(0), frames, {}, 0);
    var st6 := System([Busy(None, Checking)], Some(0), frames, {}, 10);
    Extend(SetUp(), Tick(10), st4, st4.(now := 10));
    Extend(SetUp() + [Tick(10)], WatcherTest(0), st4.(now := 10), st6);
    Extend(SetUp() + [Tick(10)] + [WatcherTest(0)], WatcherCheck(0, false), st6,
           System([Busy(Some(Budget), AtTest)], Some(0), frames, {Watcher(0)}, 10));
    assert SetUp() + [Tick(10)] + [WatcherTest(0)] + [WatcherCheck(0, false)] == Stopped();
  }

  lemma RepliedRuns()
    ensures FromStart(0, Replied())
    ensures Reached(0, Replied()) ==
            System([Busy(Some(Budget), AtTest).(replies := map[0 := Error(Cancel)])], Some(0),
                   [Returned(Some(0), Some(0), "x", Error(Cancel))], {Watcher(0)}, 3)
  {
    StoppedRuns();
    var st := System([Busy(Some(Budget), AtTest)], Some(0), [Evaluating(Some(0), Some(0), "x")], {Watcher(0)}, 10);
    Extend(Stopped(), Tick(3), st, st.(now := 3));
    Extend(Stopped() + [Tick(3)], Return(Error(Cancel)), st.(now := 3),
           System([Busy(Some(Budget), AtTest).(replies := map[0 := Error(Cancel)])], Some(0),
                  [Returned(Some(0), Some(0), "x", Error(Cancel))], {Watcher(0)}, 3));
  }

  function Recorded(ends: seq<RequestEnd>): Server
  {
    Server(Shared(Some(10), None, ends, false), Held, AtTest, [], 1, map[0 := Budget], map[0 := Error(Cancel)])
  }

  lemma TakenRuns()
    ensures FromStart(0, Replied() + [Take])
    ensures Reached(0, Replied() + [Take]) ==
            System([Recorded([])], Some(0), [Taken(Some(0), Running(0, 0, Some(Budget)), "x", Error(Cancel))], {}, 3)
  {
    RepliedRuns();
    Extend(Replied(), Take,
           System([Busy(Some(Budget), AtTest).(replies := map[0 := Error(Cancel)])], Some(0),
                  [Returned(Some(0), Some(0), "x", Error(Cancel))], {Watcher(0)}, 3),
           System([Recorded([])], Some(0), [Taken(Some(0), Running(0, 0, Some(Budget)), "x", Error(Cancel))], {}, 3));
  }

  lemma SetBackRuns()
    ensures FromStart(0, SetBack())
    ensures Reached(0, SetBack()) ==
            System([Recorded([RequestEnd(0, "x", 3, Cancelled(Budget))])], Some(0), [], {}, 3)
  {
    TakenRuns();
    var run := Running(0, 0, Some(Budget));
    var st2 := System([Recorded([])], Some(0), [Taken(Some(0), run, "x", Error(Cancel))], {}, 3);
    var st3 := System([Recorded([])], Some(0), [Timed(Some(0), run, "x", Error(Cancel), 3)], {}, 3);
    Extend(Replied() + [Take], ReadClock, st2, st3);
    assert [] + [RequestEnd(0, "x", 3, Cancelled(Budget))] == [RequestEnd(0, "x", 3, Cancelled(Budget))];
    Extend(Replied() + [Take] + [ReadClock], Push, st3,
           System([Recorded([RequestEnd(0, "x", 3, Cancelled(Budget))])], Some(0), [], {}, 3));
  }

  /** Without a monotone clock a request can be reported stopped by a budget it never spent. */
  lemma ClockGoingBack()
    ensures FromStart(0, SetBack()) && |Reached(0, SetBack()).servers| == 1
    ensures var s := Reached(0, SetBack()).servers[0];
      s.shared.budget == Some(10) && History(s) == [RequestEnd(0, "x", 3, Cancelled(Budget))]
  {
    SetBackRuns();
    RecordedHistory([RequestEnd(0, "x", 3, Cancelled(Budget))]);
  }

  lemma RecordedHistory(ends: seq<RequestEnd>)
    ensures History(Recorded(ends)) == ends
  {}
}
