/** The selector map, the loop's table and the handles as objects that are updated in place (q.rs, poll.rs). */
module SubscriptionsApi {
  import opened Common
  import Slots
  import opened Subscriptions

  class Session {
    var conns: seq<Conn>
    var slots: Slots.Table<Slot>
    var attached: map<nat, nat>
    var nextToken: nat
    var subs: seq<Sub>

    constructor ()
      ensures Value() == INITIAL
    {
      conns, slots, attached, nextToken, subs := [], [], map[], 1, [];
    }

    function Value(): State
      reads this
    {
      State(conns, slots, attached, nextToken, subs)
    }

    /** `claim_selector`. */
    method Claim(id: nat) returns (token: nat)
      modifies `attached, `nextToken
      ensures token == old(nextToken) && nextToken == token + 1 && attached == old(attached)[id := token]
    {
      token := nextToken;
      nextToken := token + 1;
      attached := attached[id := token];
    }

    /** `release_selector`. */
    method Release(id: nat, token: nat)
      modifies `attached
      ensures attached == Released(old(attached), id, token)
    {
      if id in attached && attached[id] == token {
        attached := attached - {id};
      }
    }

    /** `q_close`. */
    method CloseDescriptor(c: nat)
      requires c < |conns|
      modifies `conns
      ensures Value() == ShutConn(old(Value()), c)
      ensures conns == old(conns)[c := old(conns)[c].(place := Shut, closes := old(conns)[c].closes + 1)]
    {
      conns := conns[c := conns[c].(place := Shut, closes := conns[c].closes + 1)];
    }

    /** `q_conn_close`. */
    method CloseSelector(id: nat)
      requires WellPlaced(Value())
      modifies `conns, `slots
      ensures Value() == ShutSlot(old(Value()), id)
    {
      if id < |slots| && slots[id].Some? {
        CloseDescriptor(slots[id].value.conn);
        slots := slots[id := None];
      }
    }

    /** `attach`: `accepted` and `data` are what the core answers and allocates. */
    method Attach(c: nat, accepted: bool, data: nat) returns (sub: Option<Sub>)
      requires WellPlaced(Value()) && Enabled(Value(), Event.Attach(c, accepted, data))
      modifies this
      ensures Value() == Step(old(Value()), Event.Attach(c, accepted, data))
      ensures accepted ==> sub.Some? && subs == old(subs) + [sub.value] && IsAlive(Value(), sub.value)
      ensures accepted ==>
        sub.value.conn == c && conns[c].place == At(sub.value.id) && conns[c].closes == old(conns)[c].closes
      ensures !accepted ==> sub.None? && subs == old(subs) && slots == old(slots) && attached == old(attached)
      ensures !accepted ==>
        |conns| == |old(conns)| && conns[c].place == Shut && conns[c].closes == old(conns)[c].closes + 1
      ensures forall d :: 0 <= d < |old(conns)| && d != c ==> d < |conns| && conns[d] == old(conns)[d]
    {
      if !accepted {
        CloseDescriptor(c);
        return None;
      }
      var id := Slots.FirstFree(slots);
      slots := Slots.Put(slots, Slot(c, data));
      conns := conns[c := conns[c].(place := At(id), sub := Some(|subs|))];
      var token := Claim(id);
      var s := Sub(id, slots[id].value.data, token, c, false);
      subs := subs + [s];
      sub := Some(s);
    }

    /** `is_alive`. */
    method Alive(s: Sub) returns (alive: bool)
      ensures alive == IsAlive(Value(), s)
    {
      if !(s.id in attached) || attached[s.id] != s.token { return false; }
      alive := s.id < |slots| && slots[s.id].Some? && slots[s.id].value.data == s.data;
    }

    /** `Drop for Subscription`. */
    method DropSub(k: nat)
      requires WellPlaced(Value()) && Enabled(Value(), Event.DropSub(k))
      modifies this
      ensures Value() == Step(old(Value()), Event.DropSub(k))
    {
      var s := subs[k];
      var alive := Alive(s);
      if alive {
        CloseSelector(s.id);
      }
      Release(s.id, s.token);
      subs := subs[k := s.(dropped := true)];
    }

    /** `Drop for QConnection`. */
    method DropRaw(c: nat)
      requires WellPlaced(Value()) && Enabled(Value(), Event.DropRaw(c))
      modifies `conns
      ensures Value() == Step(old(Value()), Event.DropRaw(c))
    {
      CloseDescriptor(c);
    }
  }
}
