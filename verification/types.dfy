/** Data model of the keep-alive object: its private state, the effects its
    handlers issue towards the settings store and the D-Bus transport, and the
    result records the handlers return. */
module Types {

  /** An optional value; stands for a nullable pointer of the C code. */
  datatype Option<+T> = None | Some(value: T)

  /** Opaque handle of a settings connection (the record whose VISIBLE flag is watched). */
  type ConnectionId = nat

  /** Opaque handle of a D-Bus connection (the transport the client watch borrows). */
  type BusId = nat

  /** Opaque handle of a cancellable or of a signal subscription; every one the
      keep-alive creates is fresh. */
  type Token = nat

  /** The D-Bus client watch: the watched bus name, the bus connection, whether
      the name is (optimistically) confirmed, the cancellable of the
      GetNameOwner call issued for it, and the NameOwnerChanged subscription. */
  datatype ClientWatch = ClientWatch(
    bus: BusId,
    client: string,
    confirmed: bool,
    cancellable: Option<Token>,
    subscription: Token)

  /** The private state of one keep-alive object. `nextToken` is the source of
      fresh cancellables and subscription ids. */
  datatype KeepAlive = KeepAlive(
    floating: bool,
    forced: bool,
    connection: Option<ConnectionId>,
    watch: Option<ClientWatch>,
    alive: bool,
    nextToken: Token)

  /** What a handler asks of its collaborators, in the order it asks. */
  datatype Effect =
    | ConnectFlagsChanged(connection: ConnectionId)
    | DisconnectFlagsChanged(connection: ConnectionId)
    | CallGetNameOwner(bus: BusId, call: Token, name: string)
    | Cancel(call: Token)
    | SubscribeNameOwnerChanged(bus: BusId, subscription: Token, name: string)
    | Unsubscribe(bus: BusId, subscription: Token)

  /** How a GetNameOwner call completes, as its callback sees it. */
  datatype CallResult = Cancelled | NameOwner(owner: string) | CallFailed

  /** Result of an entry point: the new state, how many "alive" property
      notifications were raised, and the effects issued. */
  datatype Outcome = Outcome(state: KeepAlive, notifications: nat, effects: seq<Effect>)

  /** Result of a liveness check, which may have a side effect on the state. */
  datatype Probe = Probe(alive: bool, state: KeepAlive, effects: seq<Effect>)

  /** The effect-free liveness rule: the object is alive when it is floating or
      forced, when its attached connection is visible, or when a D-Bus client
      is registered (optimistically presumed present). */
  predicate ComputeAlive(s: KeepAlive, visible: set<ConnectionId>)
  {
    s.floating || s.forced || AttachedVisible(s, visible) || s.watch.Some?
  }

  /** A connection is attached and its VISIBLE flag is set. */
  predicate AttachedVisible(s: KeepAlive, visible: set<ConnectionId>)
  {
    s.connection.Some? && s.connection.value in visible
  }

  /** The two states hold the same liveness sources: the same flags, the same
      attached connection and the same client registration. They may differ
      in the cached `alive` bit and in the confirmation bookkeeping. */
  predicate SameSources(a: KeepAlive, b: KeepAlive)
  {
    && a.floating == b.floating
    && a.forced == b.forced
    && a.connection == b.connection
    && a.watch.Some? == b.watch.Some?
    && (a.watch.Some? ==>
          && a.watch.value.bus == b.watch.value.bus
          && a.watch.value.client == b.watch.value.client
          && a.watch.value.subscription == b.watch.value.subscription)
  }

  /** `prefix` is issued first, before the rest of `es`. */
  predicate StartsWith(es: seq<Effect>, prefix: seq<Effect>)
  {
    |prefix| <= |es| && es[..|prefix|] == prefix
  }

  /** The effects that tear down a client watch: cancel its in-flight call, if
      any, then release its subscription. Nothing for no watch. */
  function TeardownEffects(watch: Option<ClientWatch>): seq<Effect>
  {
    match watch
    case None => []
    case Some(w) =>
      (if w.cancellable.Some? then [Cancel(w.cancellable.value)] else [])
      + [Unsubscribe(w.bus, w.subscription)]
  }

  /** The effects that move the flags-changed handler from one connection to another. */
  function HandlerSwapEffects(previous: Option<ConnectionId>, next: Option<ConnectionId>): seq<Effect>
  {
    (if previous.Some? then [DisconnectFlagsChanged(previous.value)] else [])
    + (if next.Some? then [ConnectFlagsChanged(next.value)] else [])
  }
}
