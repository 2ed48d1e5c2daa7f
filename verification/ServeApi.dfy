/**
 The shared half of a guarded server as an object (serve.rs): each method is one of the lock
 sections the system in Serve interleaves, or a guard call made of them.
 */
module ServeApi {
  import opened Common
  import opened Serve

  /** The engine's interrupt flag, with who raised it. */
  class Core {
    var flag: set<Origin>

    constructor ()
      ensures flag == {}
    {
      flag := {};
    }
  }

  /** One look by the watcher: the time it reads, and whether the client's end was closed. */
  type Look = (nat, bool)

  /** The shared state after the watcher has looked several times. */
  function Watched(s: Shared, looks: seq<Look>): (r: Shared)
    ensures r.running.Some? <==> s.running.Some?
    decreases |looks|
  {
    if looks == [] then s
    else
      var l := looks[|looks| - 1];
      Checked(Watched(s, looks[..|looks| - 1]), l.0, l.1)
  }

  /** Looking never registers, unregisters or restarts a request, nor ends one. */
  lemma {:induction false} WatchedKeeps(s: Shared, looks: seq<Look>)
    ensures var s' := Watched(s, looks);
      && s'.budget == s.budget && s'.ends == s.ends && s'.stop == s.stop
      && (s.running.Some? ==>
            && s'.running.value.id == s.running.value.id && s'.running.value.started == s.running.value.started
            && (s.running.value.stoppedBy.Some? ==> s'.running == s.running))
    decreases |looks|
  {
    if looks != [] { WatchedKeeps(s, looks[..|looks| - 1]); }
  }

  /** The first look with a verdict decides, whatever the later ones see. */
  lemma {:induction false} FirstVerdictStands(s: Shared, before: seq<Look>, l: Look, after: seq<Look>)
    requires Watched(s, before) == s && Verdict(s, l.0, l.1).Some?
    ensures Watched(s, before + [l] + after).running ==
            Some(s.running.value.(stoppedBy := Verdict(s, l.0, l.1)))
    decreases |after|
  {
    var looks := before + [l] + after;
    if after == [] {
      assert looks == before + [l] && looks[..|looks| - 1] == before;
    } else {
      FirstVerdictStands(s, before, l, after[..|after| - 1]);
      assert looks[..|looks| - 1] == before + [l] + after[..|after| - 1];
    }
  }

  class Guarded {
    const budget: Option<nat>
    const sid: nat
    const core: Core
    var running: Option<Running>
    var ends: seq<RequestEnd>
    var stop: bool

    constructor (sid: nat, budget: Option<nat>, core: Core)
      ensures this.sid == sid && this.core == core && Value() == Shared(budget, None, [], false)
    {
      this.sid, this.budget, this.core := sid, budget, core;
      running, ends, stop := None, [], false;
    }

    function Value(): Shared
      reads this
    {
      Shared(budget, running, ends, stop)
    }

    /** `begin`. */
    method Begin(id: nat, now: nat) returns (registered: bool)
      modifies `running
      ensures registered <==> old(running).None?
      ensures running == if registered then Some(Running(id, now, None)) else old(running)
      ensures Value() == Begun(old(Value()), id, now)
    {
      if running.Some? { return false; }
      running := Some(Running(id, now, None));
      registered := true;
    }

    /**
     `check`: the watcher's look. An unstopped request is stopped by the budget if there is one and it is
     spent, else by the hangup if its client has gone, and else not at all; the interrupt is raised exactly
     if it is stopped here. A stopped request, or none, is left alone.
     */
    method Check(now: nat, gone: bool)
      modifies `running, core
      ensures old(running).Some? && old(running).value.stoppedBy.None? ==>
        && running.Some? && running.value.id == old(running).value.id
        && running.value.started == old(running).value.started
        && var spent := budget.Some? && (old(running).value.started + budget.value <= now || budget.value == 0);
           && (running.value.stoppedBy == Some(Budget) <==> spent)
           && (running.value.stoppedBy == Some(Hangup) <==> !spent && gone)
           && (running.value.stoppedBy == None <==> !spent && !gone)
           && core.flag == old(core.flag) + if spent || gone then {Watcher(sid)} else {}
      ensures old(running).None? || old(running).value.stoppedBy.Some? ==>
        running == old(running) && core.flag == old(core.flag)
      ensures Value() == Checked(old(Value()), now, gone)
      ensures core.flag == old(core.flag) + if Verdict(old(Value()), now, gone).Some? then {Watcher(sid)} else {}
    {
      if running.None? || running.value.stoppedBy.Some? { return; }
      var elapsed := Since(now, running.value.started);
      var who: Option<By> := None;
      if budget.Some? && elapsed >= budget.value {
        who := Some(Budget);
      } else if gone {
        who := Some(Hangup);
      }
      if who.Some? {
        running := Some(running.value.(stoppedBy := who));
        core.flag := core.flag + {Watcher(sid)};
      }
    }

    /** `watch`: the looks made before the watcher sees the stop flag. */
    method Watch(looks: seq<Look>)
      modifies `running, core
      ensures Value() == Watched(old(Value()), looks)
    {
      for i := 0 to |looks|
        invariant Value() == Watched(old(Value()), looks[..i])
      {
        assert looks[..i + 1][..i] == looks[..i];
        Check(looks[i].0, looks[i].1);
      }
      assert looks[..|looks|] == looks;
    }

    /** `finish`: unregister under the lock that clears the flag, then record the end. */
    method Finish(text: string, reply: Reply, now: nat)
      modifies `running, `ends, core
      ensures core.flag == {} && running == None
      ensures ends == old(ends) +
        if old(running).None? then []
        else [EndOf(old(running).value, text, Since(now, old(running).value.started), reply)]
      ensures old(running).Some? ==>
        && |ends| == |old(ends)| + 1 && ends[..|old(ends)|] == old(ends)
        && var e, run := ends[|old(ends)|], old(running).value;
           && e.id == run.id && e.text == text
           && e.duration == (if now < run.started then 0 else now - run.started)
           && (e.ended == Answered <==> reply == Answer)
           && (reply == Error(Cancel) ==>
                 e.ended == Cancelled(if run.stoppedBy.Some? then run.stoppedBy.value else Client))
           && (reply.Error? && reply.code != Cancel ==> e.ended == Failed(reply.code))
    {
      core.flag := {};
      if running.None? { return; }
      var run := running.value;
      running := None;
      ends := ends + [EndOf(run, text, Since(now, run.started), reply)];
    }

    /** `drain`. */
    method Drain() returns (taken: seq<RequestEnd>)
      modifies `ends
      ensures taken == old(ends) && ends == []
    {
      taken := ends;
      ends := [];
    }

    /**
     A guard call from begin to finish, with the watcher looking in while it evaluates. A call that
     finds nothing registered leaves exactly one end, saying what happened; one that finds a request
     registered is part of it and leaves none.
     */
    method Call(id: nat, text: string, reply: Reply, started: nat, looks: seq<Look>, ended: nat)
      modifies `running, `ends, core
      ensures old(running).None? ==>
        && running == None && core.flag == {}
        && var run := Watched(Shared(budget, Some(Running(id, started, None)), old(ends), stop), looks).running.value;
           ends == old(ends) + [RequestEnd(id, text, Since(ended, started), Classify(reply, run.stoppedBy))]
      ensures old(running).Some? ==> Value() == Watched(old(Value()), looks)
    {
      var registered := Begin(id, started);
      WatchedKeeps(Value(), looks);
      Watch(looks);
      if registered {
        Finish(text, reply, ended);
      }
    }
  }
}
