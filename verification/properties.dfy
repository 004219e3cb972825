/** Properties of the keep-alive object in its environment: every event keeps
    the invariant (so the cached alive bit always agrees with the liveness
    rule), stale answers are harmless, at most one GetNameOwner call is
    outstanding and at most one is issued per registration, the setters are
    idempotent, and disposal releases every handler and subscription. */
module Properties {
  import opened Types
  import Liveness
  import opened World

  /** `nm_keep_alive_sink` keeps the invariant. */
  lemma SinkKeepsInv(w: World)
    requires Inv(w)
    ensures Inv(Deliver(w, Sink).world)
  {
    if w.ka.floating {
      var s := w.ka.(floating := false);
      var n := Liveness.NotifyAlive(s, w.visible);
      assert n.effects == [] + n.effects;
      CommitSplit(w, s, [], n);
      ReevaluationKeepsInv(w.(ka := s), n);
    }
  }

  /** `nm_keep_alive_set_forced` keeps the invariant. */
  lemma SetForcedKeepsInv(w: World, forced: bool)
    requires Inv(w)
    ensures Inv(Deliver(w, SetForced(forced)).world)
  {
    if w.ka.forced != forced {
      var s := w.ka.(forced := forced);
      var n := Liveness.NotifyAlive(s, w.visible);
      assert n.effects == [] + n.effects;
      CommitSplit(w, s, [], n);
      ReevaluationKeepsInv(w.(ka := s), n);
    }
  }

  /** Attaching or detaching a settings connection keeps the invariant: the
      handler moves with the attachment. */
  lemma SetConnectionKeepsInv(w: World, c: Option<ConnectionId>)
    requires Inv(w)
    ensures Inv(Deliver(w, SetConnection(c)).world)
  {
    if c != w.ka.connection {
      var s := w.ka.(connection := c);
      var pre := HandlerSwapEffects(w.ka.connection, c);
      var n := Liveness.NotifyAlive(s, w.visible);
      CommitSplit(w, s, pre, n);
      PerformHandlerSwap(w.(ka := s), w.ka.connection, c);
      ReevaluationKeepsInv(PerformAll(w.(ka := s), pre), n);
    }
  }

  /** A change of any connection's flags keeps the invariant: the attached
      connection's change reaches the handler, any other cannot affect liveness. */
  lemma FlagsChangedKeepsInv(w: World, c: ConnectionId, b: bool)
    requires Inv(w)
    ensures Inv(Deliver(w, FlagsChanged(c, b)).world)
  {
    var w1 := w.(visible := UpdateVisible(w.visible, c, b));
    if c in w.handlers {
      ReevaluationKeepsInv(w1, Liveness.NotifyAlive(w1.ka, w1.visible));
    } else {
      assert AttachedVisible(w.ka, w1.visible) == AttachedVisible(w.ka, w.visible);
    }
  }

  /** Tearing the watch down from a consistent world, after the answered call
      (if any) is no longer outstanding, leaves a consistent world. */
  lemma TeardownConsistent(w: World, s: KeepAlive)
    requires Consistent(w)
    requires s == w.ka.(watch := None)
    ensures Consistent(PerformAll(w.(ka := s), TeardownEffects(w.ka.watch)))
  {
    PerformTeardown(w.(ka := s), w.ka.watch);
    var r := PerformAll(w.(ka := s), TeardownEffects(w.ka.watch));
    if w.ka.watch.Some? {
      assert r.subscriptions == map[];
    }
  }

  /** Tearing the watch down leaves no subscription alive and every call
      still outstanding cancelled, so nothing of the old watch can fire again. */
  lemma CleanupReleasesWatch(w: World)
    requires Inv(w)
    ensures var o := Liveness.CleanupDbusWatch(w.ka);
            var r := PerformAll(w.(ka := o.state), o.effects);
            r.subscriptions == map[] && r.cancelled == r.pending
  {
    var o := Liveness.CleanupDbusWatch(w.ka);
    PerformTeardown(w.(ka := o.state), w.ka.watch);
    var r := PerformAll(w.(ka := o.state), o.effects);
    if w.ka.watch.Some? {
      assert r.subscriptions == map[];
    }
  }

  /** The common tail of both D-Bus callbacks keeps the invariant. */
  lemma ClientGoneKeepsInv(w: World)
    requires Consistent(w)
    ensures Inv(Commit(w, Liveness.ClientGone(w.ka, w.visible)).world)
  {
    var s := w.ka.(watch := None);
    var pre := TeardownEffects(w.ka.watch);
    var n := Liveness.NotifyAlive(s, w.visible);
    CommitSplit(w, s, pre, n);
    TeardownConsistent(w, s);
    ReevaluationKeepsInv(PerformAll(w.(ka := s), pre), n);
  }

  /** A NameOwnerChanged signal keeps the invariant. */
  lemma NameOwnerChangedKeepsInv(w: World, name: string, newOwner: string)
    requires Inv(w)
    ensures Inv(Deliver(w, NameOwnerChanged(name, newOwner)).world)
  {
    if name in w.subscriptions.Values && newOwner == "" {
      ClientGoneKeepsInv(w);
    }
  }

  /** The completion of a GetNameOwner call keeps the invariant, whether it
      was cancelled, confirmed the name, or failed to. */
  lemma GetNameOwnerReplyKeepsInv(w: World, call: Token, answer: Answer)
    requires Inv(w)
    ensures Inv(Deliver(w, GetNameOwnerReply(call, answer)).world)
  {
    if call in w.pending {
      var w1 := w.(pending := w.pending - {call}, cancelled := w.cancelled - {call});
      var result := CallResultOf(call in w.cancelled, answer);
      assert Consistent(w1);
      if !result.Cancelled? && !(result.NameOwner? && w.ka.watch.Some? && result.owner == w.ka.watch.value.client) {
        ClientGoneKeepsInv(w1);
      }
    }
  }

  /** Registering or clearing a D-Bus client watch keeps the invariant: the
      old watch is fully released before the new one subscribes. */
  lemma SetDbusClientWatchKeepsInv(w: World, bus: BusId, client: Option<string>)
    requires Inv(w)
    ensures Inv(Deliver(w, SetDbusClientWatch(bus, client)).world)
  {
    var cleared := w.ka.(watch := None);
    var token := w.ka.nextToken;
    var s :=
      match client
      case None => cleared
      case Some(name) => cleared.(watch := Some(ClientWatch(bus, name, false, None, token)), nextToken := token + 1);
    var subscribe := if client.Some? then [SubscribeNameOwnerChanged(bus, token, client.value)] else [];
    var teardown := TeardownEffects(w.ka.watch);
    var n := Liveness.NotifyAlive(s, w.visible);
    assert teardown + subscribe + n.effects == (teardown + subscribe) + n.effects;
    CommitSplit(w, s, teardown + subscribe, n);
    PerformAllConcat(w.(ka := s), teardown, subscribe);
    TeardownConsistent(w, cleared);
    PerformAllKa(w.(ka := cleared), s, teardown);
    var mid := PerformAll(w.(ka := s), teardown);
    assert mid == PerformAll(w.(ka := cleared), teardown).(ka := s);
    if client.Some? {
      assert PerformAll(mid, subscribe) == Perform(mid, subscribe[0]);
      assert Consistent(PerformAll(mid, subscribe));
    }
    ReevaluationKeepsInv(PerformAll(w.(ka := s), teardown + subscribe), n);
  }

  /** Every event keeps the invariant. */
  lemma DeliverKeepsInv(w: World, e: Event)
    requires Inv(w)
    ensures Inv(Deliver(w, e).world)
  {
    match e
    case Sink => SinkKeepsInv(w);
    case SetForced(b) => SetForcedKeepsInv(w, b);
    case SetConnection(c) => SetConnectionKeepsInv(w, c);
    case SetDbusClientWatch(bus, client) => SetDbusClientWatchKeepsInv(w, bus, client);
    case FlagsChanged(c, b) => FlagsChangedKeepsInv(w, c, b);
    case NameOwnerChanged(name, owner) => NameOwnerChangedKeepsInv(w, name, owner);
    case GetNameOwnerReply(call, answer) => GetNameOwnerReplyKeepsInv(w, call, answer);
  }

  /** Every sequence of events keeps the invariant. */
  lemma {:induction false} RunKeepsInv(w: World, events: seq<Event>)
    requires Inv(w)
    ensures Inv(Run(w, events))
    decreases |events|
  {
    if events != [] {
      DeliverKeepsInv(w, events[0]);
      RunKeepsInv(Deliver(w, events[0]).world, events[1..]);
    }
  }

  /** A newly created object satisfies the invariant. */
  lemma InitialInv(floating: bool, visible: set<ConnectionId>)
    ensures Inv(Initial(floating, visible))
  {
  }

  /** After any history, the published alive bit is the liveness rule applied
      to the current state and visibility. */
  lemma AliveAgreesAfterAnyHistory(floating: bool, visible: set<ConnectionId>, events: seq<Event>)
    ensures Run(Initial(floating, visible), events).ka.alive
         == ComputeAlive(Run(Initial(floating, visible), events).ka, Run(Initial(floating, visible), events).visible)
  {
    InitialInv(floating, visible);
    RunKeepsInv(Initial(floating, visible), events);
  }

  /** For a floating object, the constructor as the code writes it and the
      corrected one agree, so every history theorem from `Liveness.New` covers
      the code's own `nm_keep_alive_new(TRUE)`. */
  lemma NewAsWrittenFloatingIsNew()
    ensures Liveness.NewAsWritten(true) == Liveness.New(true)
  {
  }

  /** The object as `nm_keep_alive_new(FALSE)` builds it starts outside the
      invariant: it is published alive although nothing keeps it alive. */
  lemma NewAsWrittenBreaksInv(visible: set<ConnectionId>)
    ensures !Inv(World(Liveness.NewAsWritten(false), visible, {}, map[], {}, {}))
  {
  }

  /** An answer to a call whose cancellable was cancelled changes nothing but
      the call's own bookkeeping: no state change, no notification, no effect. */
  lemma StaleReplyIsIgnored(w: World, call: Token, answer: Answer)
    requires Inv(w)
    requires call in w.cancelled
    ensures Deliver(w, GetNameOwnerReply(call, answer))
         == StepResult(w.(pending := w.pending - {call}, cancelled := w.cancelled - {call}), 0, [])
  {
  }

  /** An answer that is not stale concerns the current registration. */
  lemma LiveReplyConcernsCurrentWatch(w: World, call: Token)
    requires Inv(w)
    requires call in w.pending && call !in w.cancelled
    ensures w.ka.watch.Some? && w.ka.watch.value.cancellable == Some(call) && w.ka.watch.value.confirmed
  {
  }

  /** At most one GetNameOwner call is outstanding and not cancelled. */
  lemma AtMostOneLiveCall(w: World)
    requires Inv(w)
    ensures |w.pending - w.cancelled| <= 1
  {
    var live := w.pending - w.cancelled;
    if live != {} {
      var call :| call in live;
      assert CurrentCall(w.ka, call);
      assert live == {call} by {
        forall other | other in live ensures other == call {
          assert CurrentCall(w.ka, other);
        }
      }
    }
  }

  /** No effect of the list is a GetNameOwner call. */
  predicate NoCall(es: seq<Effect>)
  {
    forall i :: 0 <= i < |es| ==> !es[i].CallGetNameOwner?
  }

  /** Once a registration is confirmed (or there is none), no event other
      than a new registration issues a GetNameOwner call: one call per
      registration. */
  lemma NoSecondCall(w: World, e: Event)
    requires Inv(w)
    requires !e.SetDbusClientWatch?
    requires w.ka.watch.None? || w.ka.watch.value.confirmed
    ensures NoCall(Deliver(w, e).effects)
  {
    match e
    case Sink =>
    case SetForced(b) =>
    case SetConnection(c) =>
      if c != w.ka.connection {
        var n := Liveness.NotifyAlive(w.ka.(connection := c), w.visible);
        assert n.effects == [];
      }
    case FlagsChanged(c, b) =>
    case NameOwnerChanged(name, owner) =>
    case GetNameOwnerReply(call, answer) =>
  }

  /** The number of GetNameOwner calls among some effects. */
  function CallCount(es: seq<Effect>): nat
    decreases |es|
  {
    if es == [] then 0 else (if es[0].CallGetNameOwner? then 1 else 0) + CallCount(es[1..])
  }

  lemma {:induction false} CallCountConcat(a: seq<Effect>, b: seq<Effect>)
    ensures CallCount(a + b) == CallCount(a) + CallCount(b)
    decreases |a|
  {
    if a == [] {
      assert a + b == b;
    } else {
      assert (a + b)[0] == a[0];
      assert (a + b)[1..] == a[1..] + b;
      CallCountConcat(a[1..], b);
    }
  }

  /** A registration is settled when there is none, or when its one
      GetNameOwner call has already been issued. */
  predicate Settled(s: KeepAlive)
  {
    s.watch.None? || s.watch.value.confirmed
  }

  /** A liveness check issues a call only for an unsettled registration, and
      settles it by doing so. */
  lemma ConfirmationCalls(a: KeepAlive, b: KeepAlive, es: seq<Effect>)
    requires Liveness.ConfirmationStep(a, b, es)
    ensures CallCount(es) == (if es == [] then 0 else 1)
    ensures es != [] ==> !Settled(a) && Settled(b)
    ensures Settled(b) <==> Settled(a) || es != []
  {
  }

  /** A settled registration stays settled under every event except a new
      registration. */
  lemma SettledPersists(w: World, e: Event)
    requires !e.SetDbusClientWatch?
    requires Settled(w.ka)
    ensures Settled(Deliver(w, e).world.ka)
  {
  }

  /** One event other than a registration issues no call for a settled
      registration and at most one for an unsettled one, which that call
      settles. */
  lemma StepCalls(w: World, e: Event)
    requires !e.SetDbusClientWatch?
    ensures var r := Deliver(w, e);
            && CallCount(r.effects) <= (if Settled(w.ka) then 0 else 1)
            && (Settled(w.ka) || CallCount(r.effects) == 1 ==> Settled(r.world.ka))
  {
    var s := w.ka;
    match e
    case Sink =>
      if s.floating {
        var o := Liveness.Sink(s, w.visible);
        ConfirmationCalls(s.(floating := false, alive := o.state.alive), o.state, o.effects);
      }
    case SetForced(b) =>
      if b != s.forced {
        var o := Liveness.SetForced(s, b, w.visible);
        ConfirmationCalls(s.(forced := b, alive := o.state.alive), o.state, o.effects);
      }
    case SetConnection(c) =>
      if c != s.connection {
        var o := Liveness.SetSettingsConnectionWatchVisible(s, c, w.visible);
        var swap := HandlerSwapEffects(s.connection, c);
        ConfirmationCalls(s.(connection := c, alive := o.state.alive), o.state, o.effects[|swap|..]);
        assert o.effects == swap + o.effects[|swap|..];
        CallCountConcat(swap, o.effects[|swap|..]);
      }
    case FlagsChanged(c, b) =>
      if c in w.handlers {
        var v := UpdateVisible(w.visible, c, b);
        var o := Liveness.ConnectionFlagsChanged(s, v);
        ConfirmationCalls(s.(alive := o.state.alive), o.state, o.effects);
      }
    case NameOwnerChanged(name, owner) =>
      TeardownCallsNothing(s.watch);
    case GetNameOwnerReply(call, answer) =>
      TeardownCallsNothing(s.watch);
  }

  /** Tearing a watch down issues no call. */
  lemma TeardownCallsNothing(watch: Option<ClientWatch>)
    ensures CallCount(TeardownEffects(watch)) == 0
  {
    if watch.Some? {
      var unsub := [Unsubscribe(watch.value.bus, watch.value.subscription)];
      assert CallCount(unsub) == 0 by {
        assert unsub[1..] == [];
      }
      if watch.value.cancellable.Some? {
        var cancel := [Cancel(watch.value.cancellable.value)];
        assert cancel[1..] == [];
        CallCountConcat(cancel, unsub);
      } else {
        assert TeardownEffects(watch) == [] + unsub;
      }
    }
  }

  /** An event after which the object is floating, forced or attached to a
      visible connection issued no `GetNameOwner` call: the confirmation is
      lazy. */
  lemma NoCallWhileOtherwiseAlive(w: World, e: Event)
    ensures var r := Deliver(w, e);
            r.world.ka.floating || r.world.ka.forced || AttachedVisible(r.world.ka, r.world.visible)
            ==> CallCount(r.effects) == 0
  {
    var s := w.ka;
    match e
    case Sink =>
    case SetForced(b) =>
    case SetConnection(c) =>
      if c != s.connection {
        var o := Liveness.SetSettingsConnectionWatchVisible(s, c, w.visible);
        var swap := HandlerSwapEffects(s.connection, c);
        assert o.effects == swap + o.effects[|swap|..];
        CallCountConcat(swap, o.effects[|swap|..]);
      }
    case SetDbusClientWatch(bus, client) =>
      var o := Liveness.SetDbusClientWatch(s, bus, client, w.visible);
      var prefix := TeardownEffects(s.watch) + Liveness.SubscribeEffects(bus, s.nextToken, client);
      assert o.effects == prefix + o.effects[|prefix|..];
      CallCountConcat(prefix, o.effects[|prefix|..]);
      CallCountConcat(TeardownEffects(s.watch), Liveness.SubscribeEffects(bus, s.nextToken, client));
      TeardownCallsNothing(s.watch);
    case FlagsChanged(c, b) =>
    case NameOwnerChanged(name, owner) =>
      TeardownCallsNothing(s.watch);
    case GetNameOwnerReply(call, answer) =>
      TeardownCallsNothing(s.watch);
  }

  /** The effects a history causes, event after event. */
  function RunEffects(w: World, events: seq<Event>): seq<Effect>
    decreases |events|
  {
    if events == [] then []
    else
      var r := Deliver(w, events[0]);
      r.effects + RunEffects(r.world, events[1..])
  }

  /** Over any history without a new registration, a settled registration
      causes no call and an unsettled one at most one. */
  lemma {:induction false} CallsWithoutRegistration(w: World, events: seq<Event>)
    requires forall i :: 0 <= i < |events| ==> !events[i].SetDbusClientWatch?
    ensures CallCount(RunEffects(w, events)) <= (if Settled(w.ka) then 0 else 1)
    decreases |events|
  {
    if events != [] {
      var r := Deliver(w, events[0]);
      StepCalls(w, events[0]);
      CallsWithoutRegistration(r.world, events[1..]);
      CallCountConcat(r.effects, RunEffects(r.world, events[1..]));
    }
  }

  /** Registering a client and then living through any history without a
      new registration issues at most one GetNameOwner call in all. */
  lemma {:induction false} AtMostOneCallPerRegistration(w: World, bus: BusId, client: Option<string>,
                                                        events: seq<Event>)
    requires forall i :: 0 <= i < |events| ==> !events[i].SetDbusClientWatch?
    ensures CallCount(RunEffects(w, [SetDbusClientWatch(bus, client)] + events)) <= 1
  {
    var all := [SetDbusClientWatch(bus, client)] + events;
    assert all[0] == SetDbusClientWatch(bus, client) && all[1..] == events;
    var o := Liveness.SetDbusClientWatch(w.ka, bus, client, w.visible);
    var r := Deliver(w, all[0]);
    var prefix := TeardownEffects(w.ka.watch) + Liveness.SubscribeEffects(bus, w.ka.nextToken, client);
    var a := Liveness.Register(w.ka.(watch := None), bus, client).(alive := o.state.alive);
    ConfirmationCalls(a, o.state, o.effects[|prefix|..]);
    assert o.effects == prefix + o.effects[|prefix|..];
    CallCountConcat(prefix, o.effects[|prefix|..]);
    assert CallCount(prefix) == 0 by {
      CallCountConcat(TeardownEffects(w.ka.watch), Liveness.SubscribeEffects(bus, w.ka.nextToken, client));
    }
    CallsWithoutRegistration(r.world, events);
    CallCountConcat(r.effects, RunEffects(r.world, events));
  }

  /** Sinking twice raises nothing the second time and changes nothing. */
  lemma SinkIdempotent(w: World)
    ensures var once := Deliver(w, Sink).world;
            Deliver(once, Sink) == StepResult(once, 0, [])
  {
  }

  /** Forcing to the same value twice: the second call is a no-op. */
  lemma SetForcedIdempotent(w: World, forced: bool)
    ensures var once := Deliver(w, SetForced(forced)).world;
            Deliver(once, SetForced(forced)) == StepResult(once, 0, [])
  {
  }

  /** Re-attaching the attached connection is a complete no-op. */
  lemma SetSameConnectionIsNoOp(w: World)
    ensures Deliver(w, SetConnection(w.ka.connection)) == StepResult(w, 0, [])
  {
  }

  /** An owner change to a non-empty owner is ignored. */
  lemma OwnerChangeToOwnerIsIgnored(w: World, name: string, newOwner: string)
    requires newOwner != ""
    ensures Deliver(w, NameOwnerChanged(name, newOwner)) == StepResult(w, 0, [])
  {
  }

  /** Disposal leaves no handler connected, no subscription alive, and every
      still outstanding call cancelled. */
  lemma DisposeReleasesEverything(w: World)
    requires Inv(w)
    ensures var d := Liveness.Dispose(w.ka);
            var r := PerformAll(w.(ka := d.state), d.effects);
            r.handlers == {} && r.subscriptions == map[] && r.cancelled == r.pending
  {
    var d := Liveness.Dispose(w.ka);
    var swap := HandlerSwapEffects(w.ka.connection, None);
    var teardown := TeardownEffects(w.ka.watch);
    PerformAllConcat(w.(ka := d.state), swap, teardown);
    PerformHandlerSwap(w.(ka := d.state), w.ka.connection, None);
    PerformTeardown(PerformAll(w.(ka := d.state), swap), w.ka.watch);
    var r := PerformAll(w.(ka := d.state), d.effects);
    if w.ka.watch.Some? {
      assert r.subscriptions == map[];
    }
  }

  /** Disposing twice: the second disposal does nothing. */
  lemma DisposeIdempotent(s: KeepAlive)
    ensures var once := Liveness.Dispose(s).state;
            Liveness.Dispose(once) == Outcome(once, 0, [])
  {
  }
}
