/** The keep-alive object together with the part of its collaborators it can
    observe: the VISIBLE flags of settings connections, the flags-changed
    handlers connected on them, the NameOwnerChanged subscriptions on the bus,
    and the GetNameOwner calls still outstanding (with those whose cancellable
    was cancelled). Events are delivered the way GLib delivers them: a
    flags-changed signal reaches only a connected handler, a NameOwnerChanged
    signal only a live subscription whose name filter matches, and each call
    completes exactly once, with a CANCELLED error when its cancellable was
    cancelled before it completed. */
module World {
  import opened Types
  import Liveness

  /** What the bus answers to a GetNameOwner call. */
  datatype Answer = Owner(owner: string) | Error

  /** Everything that can happen to a keep-alive object after it is created. */
  datatype Event =
    | Sink
    | SetForced(forced: bool)
    | SetConnection(connection: Option<ConnectionId>)
    | SetDbusClientWatch(bus: BusId, client: Option<string>)
    | FlagsChanged(changed: ConnectionId, visible: bool)
    | NameOwnerChanged(name: string, newOwner: string)
    | GetNameOwnerReply(call: Token, answer: Answer)

  datatype World = World(
    ka: KeepAlive,
    visible: set<ConnectionId>,
    handlers: set<ConnectionId>,
    subscriptions: map<Token, string>,
    pending: set<Token>,
    cancelled: set<Token>)

  datatype StepResult = StepResult(world: World, notifications: nat, effects: seq<Effect>)

  /** How the collaborators take one effect into account. Cancelling a call
      that already completed does nothing. */
  function Perform(w: World, e: Effect): World
  {
    match e
    case ConnectFlagsChanged(c) => w.(handlers := w.handlers + {c})
    case DisconnectFlagsChanged(c) => w.(handlers := w.handlers - {c})
    case CallGetNameOwner(_, call, _) => w.(pending := w.pending + {call})
    case Cancel(call) => if call in w.pending then w.(cancelled := w.cancelled + {call}) else w
    case SubscribeNameOwnerChanged(_, sub, name) => w.(subscriptions := w.subscriptions[sub := name])
    case Unsubscribe(_, sub) => w.(subscriptions := w.subscriptions - {sub})
  }

  /** The effects, in order. The collaborators never touch the keep-alive's
      own state nor the VISIBLE flags. */
  function PerformAll(w: World, es: seq<Effect>): (r: World)
    ensures r.ka == w.ka && r.visible == w.visible
    decreases |es|
  {
    if es == [] then w else PerformAll(Perform(w, es[0]), es[1..])
  }

  /** Install the state a handler returned and let the collaborators act on its effects. */
  function Commit(w: World, o: Outcome): (r: StepResult)
    ensures r.world.ka == o.state && r.notifications == o.notifications && r.effects == o.effects
  {
    StepResult(PerformAll(w.(ka := o.state), o.effects), o.notifications, o.effects)
  }

  /** The visibility oracle after the store changed a connection's flags. */
  function UpdateVisible(visible: set<ConnectionId>, c: ConnectionId, b: bool): (r: set<ConnectionId>)
    ensures c in r <==> b
    ensures forall other :: other != c ==> (other in r <==> other in visible)
  {
    if b then visible + {c} else visible - {c}
  }

  /** What the callback of a completed call sees. */
  function CallResultOf(cancelled: bool, answer: Answer): CallResult
  {
    if cancelled then Cancelled
    else match answer
      case Owner(o) => NameOwner(o)
      case Error => CallFailed
  }

  /** Deliver one event. Whatever the event, a notification is raised exactly
      when the cached alive bit flips. */
  function Deliver(w: World, e: Event): (r: StepResult)
    ensures r.notifications == (if r.world.ka.alive != w.ka.alive then 1 else 0)
  {
    match e
    case Sink => Commit(w, Liveness.Sink(w.ka, w.visible))
    case SetForced(b) => Commit(w, Liveness.SetForced(w.ka, b, w.visible))
    case SetConnection(c) => Commit(w, Liveness.SetSettingsConnectionWatchVisible(w.ka, c, w.visible))
    case SetDbusClientWatch(bus, client) => Commit(w, Liveness.SetDbusClientWatch(w.ka, bus, client, w.visible))
    case FlagsChanged(c, b) =>
      var w1 := w.(visible := UpdateVisible(w.visible, c, b));
      if c in w.handlers then Commit(w1, Liveness.ConnectionFlagsChanged(w1.ka, w1.visible))
      else StepResult(w1, 0, [])
    case NameOwnerChanged(name, newOwner) =>
      if name in w.subscriptions.Values then Commit(w, Liveness.NameOwnerChangedCb(w.ka, newOwner, w.visible))
      else StepResult(w, 0, [])
    case GetNameOwnerReply(call, answer) =>
      if call !in w.pending then StepResult(w, 0, [])
      else
        var w1 := w.(pending := w.pending - {call}, cancelled := w.cancelled - {call});
        Commit(w1, Liveness.GetNameOwnerCb(w1.ka, CallResultOf(call in w.cancelled, answer), w1.visible))
  }

  /** Deliver a whole sequence of events. */
  function Run(w: World, events: seq<Event>): World
    decreases |events|
  {
    if events == [] then w else Run(Deliver(w, events[0]).world, events[1..])
  }

  /** A freshly created keep-alive and collaborators that know nothing of it. */
  function Initial(floating: bool, visible: set<ConnectionId>): World
  {
    World(Liveness.New(floating), visible, {}, map[], {}, {})
  }

  /** The set holding the attached connection, if any. */
  function Attached(connection: Option<ConnectionId>): set<ConnectionId>
  {
    if connection.Some? then {connection.value} else {}
  }

  /** The subscriptions the registered watch, if any, holds. */
  function WatchSubscriptions(watch: Option<ClientWatch>): map<Token, string>
  {
    if watch.Some? then map[watch.value.subscription := watch.value.client] else map[]
  }

  /** `call` is the cancellable stored for the current registration. */
  predicate CurrentCall(s: KeepAlive, call: Token)
  {
    s.watch.Some? && s.watch.value.cancellable == Some(call)
  }

  /** The invariant the keep-alive keeps with its collaborators: the cached
      bit agrees with the liveness rule, and the bookkeeping is consistent. */
  ghost predicate Inv(w: World)
  {
    w.ka.alive == ComputeAlive(w.ka, w.visible) && Consistent(w)
  }

  /** The bookkeeping part of the invariant:
      - exactly the attached connection carries a handler;
      - exactly the registered watch holds a subscription, for its name;
      - every outstanding call that is not cancelled is the current
        registration's call, so no stale answer can reach a newer watch;
      - a registration is confirmed exactly when its one call was issued,
        and that call was not cancelled;
      - fresh tokens are above every outstanding call. */
  ghost predicate Consistent(w: World)
  {
    && w.handlers == Attached(w.ka.connection)
    && w.subscriptions == WatchSubscriptions(w.ka.watch)
    && w.cancelled <= w.pending
    && (forall call :: call in w.pending ==> call < w.ka.nextToken)
    && (forall call :: call in w.pending && call !in w.cancelled ==> CurrentCall(w.ka, call))
    && (w.ka.watch.Some? ==>
          && (w.ka.watch.value.confirmed <==> w.ka.watch.value.cancellable.Some?)
          && (w.ka.watch.value.cancellable.Some? ==> w.ka.watch.value.cancellable.value !in w.cancelled))
  }

  /** Performing a concatenation performs its parts in order. */
  lemma {:induction false} PerformAllConcat(w: World, a: seq<Effect>, b: seq<Effect>)
    ensures PerformAll(w, a + b) == PerformAll(PerformAll(w, a), b)
    decreases |a|
  {
    if a == [] {
      assert a + b == b;
    } else {
      assert (a + b)[0] == a[0];
      assert (a + b)[1..] == a[1..] + b;
      PerformAllConcat(Perform(w, a[0]), a[1..], b);
    }
  }

  /** Tearing a watch down cancels its call, if still outstanding, and
      removes its subscription; nothing else changes. */
  lemma PerformTeardown(w: World, watch: Option<ClientWatch>)
    ensures PerformAll(w, TeardownEffects(watch)) ==
      if watch.None? then w
      else
        var cw := watch.value;
        var c := if cw.cancellable.Some? && cw.cancellable.value in w.pending
                 then w.cancelled + {cw.cancellable.value} else w.cancelled;
        w.(subscriptions := w.subscriptions - {cw.subscription}, cancelled := c)
  {
    if watch.Some? {
      var cw := watch.value;
      var unsub := [Unsubscribe(cw.bus, cw.subscription)];
      if cw.cancellable.Some? {
        var cancel := [Cancel(cw.cancellable.value)];
        PerformAllConcat(w, cancel, unsub);
        assert PerformAll(w, cancel) == Perform(w, cancel[0]);
      }
    }
  }

  /** The effects of a liveness check: at most one new outstanding call. */
  lemma PerformConfirmation(w: World, a: KeepAlive, b: KeepAlive, es: seq<Effect>)
    requires Liveness.ConfirmationStep(a, b, es)
    ensures PerformAll(w, es) == if es == [] then w else w.(pending := w.pending + {a.nextToken})
  {
  }

  /** Moving the handler: the old connection loses it, the new one gains it. */
  lemma PerformHandlerSwap(w: World, previous: Option<ConnectionId>, next: Option<ConnectionId>)
    ensures PerformAll(w, HandlerSwapEffects(previous, next)) ==
      w.(handlers := (w.handlers - Attached(previous)) + Attached(next))
  {
    var d := if previous.Some? then [DisconnectFlagsChanged(previous.value)] else [];
    var c := if next.Some? then [ConnectFlagsChanged(next.value)] else [];
    PerformAllConcat(w, d, c);
    if previous.Some? {
      assert PerformAll(w, d) == Perform(w, d[0]);
    }
  }

  /** The collaborators' bookkeeping does not depend on the keep-alive's state. */
  lemma {:induction false} PerformAllKa(w: World, k: KeepAlive, es: seq<Effect>)
    ensures PerformAll(w.(ka := k), es) == PerformAll(w, es).(ka := k)
    decreases |es|
  {
    if es != [] {
      assert Perform(w.(ka := k), es[0]) == Perform(w, es[0]).(ka := k);
      PerformAllKa(Perform(w, es[0]), k, es[1..]);
    }
  }

  /** A handler that issues `pre` and then re-evaluates from state `s` can be
      committed in two stages: first `pre` from `s`, then the re-evaluation. */
  lemma CommitSplit(w: World, s: KeepAlive, pre: seq<Effect>, n: Outcome)
    ensures Commit(w, Outcome(n.state, n.notifications, pre + n.effects)).world
         == Commit(PerformAll(w.(ka := s), pre), n).world
  {
    PerformAllConcat(w.(ka := n.state), pre, n.effects);
    PerformAllKa(w.(ka := s), n.state, pre);
    assert w.(ka := s).(ka := n.state) == w.(ka := n.state);
  }

  /** A re-evaluation from a consistent world restores the whole invariant. */
  lemma ReevaluationKeepsInv(w: World, n: Outcome)
    requires Consistent(w)
    requires SameSources(w.ka, n.state)
    requires Liveness.ConfirmationStep(w.ka.(alive := n.state.alive), n.state, n.effects)
    requires n.state.alive == ComputeAlive(n.state, w.visible)
    ensures Inv(Commit(w, n).world)
  {
    var a := w.ka.(alive := n.state.alive);
    PerformConfirmation(w.(ka := n.state), a, n.state, n.effects);
    var r := Commit(w, n).world;
    if n.effects != [] {
      assert r.pending == w.pending + {a.nextToken};
    }
  }
}
