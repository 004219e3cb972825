/** The keep-alive object of src/nm-keep-alive.c: one pure function per C
    function. Every entry point returns the new state, the number of "alive"
    notifications it raised (0 or 1) and the effects it issued towards the
    settings store and the D-Bus transport. The VISIBLE flags of settings
    connections are an oracle, passed as the set of currently visible
    connections to every function that re-evaluates liveness. */
module Liveness {
  import opened Types

  /** The only state change a liveness check may make: either none, or the
      registered but unconfirmed client is marked confirmed, a fresh
      cancellable is stored and one GetNameOwner call for that name is issued. */
  predicate ConfirmationStep(a: KeepAlive, b: KeepAlive, es: seq<Effect>)
  {
    || (es == [] && b == a)
    || (&& a.watch.Some? && !a.watch.value.confirmed
        && es == [CallGetNameOwner(a.watch.value.bus, a.nextToken, a.watch.value.client)]
        && b == a.(watch := Some(a.watch.value.(confirmed := true, cancellable := Some(a.nextToken))),
                   nextToken := a.nextToken + 1))
  }

  /** `_is_alive_dbus_client`: optimistically true while a client is
      registered; the first check after a registration issues the one
      GetNameOwner call that verifies the optimism. */
  function IsAliveDbusClient(s: KeepAlive): (p: Probe)
    ensures p.alive <==> s.watch.Some?
    ensures ConfirmationStep(s, p.state, p.effects)
    ensures p.effects != [] <==> s.watch.Some? && !s.watch.value.confirmed
    ensures p.state.watch.Some? ==> p.state.watch.value.confirmed
  {
    match s.watch
    case None => Probe(false, s, [])
    case Some(w) =>
      if w.confirmed then Probe(true, s, [])
      else
        var call := s.nextToken;
        Probe(true,
              s.(watch := Some(w.(confirmed := true, cancellable := Some(call))), nextToken := call + 1),
              [CallGetNameOwner(w.bus, call, w.client)])
  }

  /** `_is_alive`: the liveness rule, evaluated with the D-Bus client check
      last so that its call is only issued when nothing else keeps the
      object alive. */
  function IsAlive(s: KeepAlive, visible: set<ConnectionId>): (p: Probe)
    ensures p.alive == ComputeAlive(s, visible)
    ensures ConfirmationStep(s, p.state, p.effects)
    ensures s.floating || s.forced || AttachedVisible(s, visible) ==> p.state == s && p.effects == []
    ensures p.effects != [] <==>
              !(s.floating || s.forced || AttachedVisible(s, visible)) && s.watch.Some? && !s.watch.value.confirmed
  {
    if s.floating || s.forced then Probe(true, s, [])
    else if AttachedVisible(s, visible) then Probe(true, s, [])
    else IsAliveDbusClient(s)
  }

  /** The liveness check of `s` issues the `GetNameOwner` call: nothing else
      keeps the object alive and the registered client is unconfirmed. */
  predicate CallDue(s: KeepAlive, visible: set<ConnectionId>)
  {
    !(s.floating || s.forced || AttachedVisible(s, visible)) && s.watch.Some? && !s.watch.value.confirmed
  }

  /** `_notify_alive`: re-evaluates liveness and flips the cached bit, raising
      one notification, exactly when the value changed. */
  function NotifyAlive(s: KeepAlive, visible: set<ConnectionId>): (o: Outcome)
    ensures o.state.alive == ComputeAlive(s, visible)
    ensures o.state.alive == ComputeAlive(o.state, visible)
    ensures o.notifications == (if o.state.alive != s.alive then 1 else 0)
    ensures SameSources(s, o.state)
    ensures ConfirmationStep(s.(alive := o.state.alive), o.state, o.effects)
    ensures o.effects != [] <==> CallDue(s, visible)
  {
    var p := IsAlive(s, visible);
    if s.alive == p.alive then Outcome(p.state, 0, p.effects)
    else Outcome(p.state.(alive := !s.alive), 1, p.effects)
  }

  /** `nm_keep_alive_sink`: clears `floating` once; only the first call re-evaluates. */
  function Sink(s: KeepAlive, visible: set<ConnectionId>): (o: Outcome)
    ensures !o.state.floating
    ensures !s.floating ==> o == Outcome(s, 0, [])
    ensures s.floating ==>
              && SameSources(s.(floating := false), o.state)
              && ConfirmationStep(s.(floating := false, alive := o.state.alive), o.state, o.effects)
              && (o.effects != [] <==> CallDue(s.(floating := false), visible))
              && o.state.alive == ComputeAlive(o.state, visible)
              && o.notifications == (if o.state.alive != s.alive then 1 else 0)
  {
    if s.floating then NotifyAlive(s.(floating := false), visible)
    else Outcome(s, 0, [])
  }

  /** `nm_keep_alive_set_forced`: re-evaluates only when the flag changes. */
  function SetForced(s: KeepAlive, forced: bool, visible: set<ConnectionId>): (o: Outcome)
    ensures o.state.forced == forced
    ensures forced == s.forced ==> o == Outcome(s, 0, [])
    ensures forced ==> o.effects == []
    ensures forced != s.forced ==>
              && SameSources(s.(forced := forced), o.state)
              && ConfirmationStep(s.(forced := forced, alive := o.state.alive), o.state, o.effects)
              && (o.effects != [] <==> CallDue(s.(forced := forced), visible))
              && o.state.alive == ComputeAlive(o.state, visible)
              && o.notifications == (if o.state.alive != s.alive then 1 else 0)
  {
    if s.forced != forced then NotifyAlive(s.(forced := forced), visible)
    else Outcome(s, 0, [])
  }

  /** `connection_flags_changed`: the attached connection's flags changed, so
      re-evaluate against the current visibility. */
  function ConnectionFlagsChanged(s: KeepAlive, visible: set<ConnectionId>): (o: Outcome)
    ensures SameSources(s, o.state)
    ensures ConfirmationStep(s.(alive := o.state.alive), o.state, o.effects)
    ensures o.effects != [] <==> CallDue(s, visible)
    ensures o.state.alive == ComputeAlive(o.state, visible)
    ensures o.notifications == (if o.state.alive != s.alive then 1 else 0)
  {
    NotifyAlive(s, visible)
  }

  /** `_set_settings_connection_watch_visible`: attaching the already attached
      connection does nothing; otherwise the handler on the old connection is
      disconnected before one is connected on the new one, and liveness is
      re-evaluated only when `emit` is set. */
  function SetConnectionWatch(s: KeepAlive, connection: Option<ConnectionId>, emit: bool,
                              visible: set<ConnectionId>): (o: Outcome)
    ensures o.state.connection == connection
    ensures connection == s.connection ==> o == Outcome(s, 0, [])
    ensures connection != s.connection ==>
              StartsWith(o.effects, HandlerSwapEffects(s.connection, connection))
    ensures connection != s.connection && !emit ==>
              o == Outcome(s.(connection := connection), 0, HandlerSwapEffects(s.connection, connection))
    ensures connection != s.connection && emit ==>
              && SameSources(s.(connection := connection), o.state)
              && ConfirmationStep(s.(connection := connection, alive := o.state.alive), o.state,
                                  o.effects[|HandlerSwapEffects(s.connection, connection)|..])
              && ((o.effects[|HandlerSwapEffects(s.connection, connection)|..] != [])
                  <==> CallDue(s.(connection := connection), visible))
              && o.state.alive == ComputeAlive(o.state, visible)
              && o.notifications == (if o.state.alive != s.alive then 1 else 0)
  {
    if s.connection == connection then Outcome(s, 0, [])
    else
      var swapped := s.(connection := connection);
      var handlers := HandlerSwapEffects(s.connection, connection);
      if emit then
        var o := NotifyAlive(swapped, visible);
        assert (handlers + o.effects)[|handlers|..] == o.effects;
        Outcome(o.state, o.notifications, handlers + o.effects)
      else Outcome(swapped, 0, handlers)
  }

  /** `nm_keep_alive_set_settings_connection_watch_visible`: the public entry,
      which always asks for re-evaluation. */
  function SetSettingsConnectionWatchVisible(s: KeepAlive, connection: Option<ConnectionId>,
                                             visible: set<ConnectionId>): (o: Outcome)
    ensures o.state.connection == connection
    ensures connection == s.connection ==> o == Outcome(s, 0, [])
    ensures connection != s.connection ==>
              && StartsWith(o.effects, HandlerSwapEffects(s.connection, connection))
              && SameSources(s.(connection := connection), o.state)
              && ConfirmationStep(s.(connection := connection, alive := o.state.alive), o.state,
                                  o.effects[|HandlerSwapEffects(s.connection, connection)|..])
              && ((o.effects[|HandlerSwapEffects(s.connection, connection)|..] != [])
                  <==> CallDue(s.(connection := connection), visible))
              && o.state.alive == ComputeAlive(o.state, visible)
              && o.notifications == (if o.state.alive != s.alive then 1 else 0)
  {
    SetConnectionWatch(s, connection, true, visible)
  }

  /** `cleanup_dbus_watch`: drops the client registration, cancelling the
      in-flight call and releasing the subscription; nothing without a client. */
  function CleanupDbusWatch(s: KeepAlive): (o: Outcome)
    ensures o.state.watch.None?
    ensures o.state == s.(watch := None)
    ensures o.notifications == 0
    ensures o.effects == TeardownEffects(s.watch)
    ensures s.watch.None? ==> o == Outcome(s, 0, [])
  {
    match s.watch
    case None => Outcome(s, 0, [])
    case Some(w) => Outcome(s.(watch := None), 0, TeardownEffects(s.watch))
  }

  /** The common tail of both D-Bus callbacks once the client is judged gone:
      tear the watch down, then re-evaluate. */
  function ClientGone(s: KeepAlive, visible: set<ConnectionId>): (o: Outcome)
    ensures o.state.watch.None?
    ensures o.effects == TeardownEffects(s.watch)
    ensures o.state == s.(watch := None, alive := o.state.alive)
    ensures o.state.alive == ComputeAlive(o.state, visible)
    ensures o.notifications == (if o.state.alive != s.alive then 1 else 0)
  {
    var c := CleanupDbusWatch(s);
    var n := NotifyAlive(c.state, visible);
    Outcome(n.state, n.notifications, c.effects + n.effects)
  }

  /** `get_name_owner_cb`: a cancelled call changes nothing; an owner equal
      to the registered name confirms it and changes nothing; an error or any
      other owner tears the watch down and re-evaluates. */
  function GetNameOwnerCb(s: KeepAlive, result: CallResult, visible: set<ConnectionId>): (o: Outcome)
    ensures result.Cancelled? ==> o == Outcome(s, 0, [])
    ensures result.NameOwner? && s.watch.Some? && result.owner == s.watch.value.client ==> o == Outcome(s, 0, [])
    ensures result.CallFailed? || (result.NameOwner? && (s.watch.None? || result.owner != s.watch.value.client)) ==>
              && o.state.watch.None?
              && o.effects == TeardownEffects(s.watch)
              && o.state == s.(watch := None, alive := o.state.alive)
              && o.state.alive == ComputeAlive(o.state, visible)
              && o.notifications == (if o.state.alive != s.alive then 1 else 0)
  {
    match result
    case Cancelled => Outcome(s, 0, [])
    case NameOwner(owner) =>
      if s.watch.Some? && owner == s.watch.value.client then Outcome(s, 0, [])
      else ClientGone(s, visible)
    case CallFailed => ClientGone(s, visible)
  }

  /** `name_owner_changed_cb`: the watched name lost its owner (the new owner
      is empty) — tear the watch down and re-evaluate; any other owner change
      is ignored. */
  function NameOwnerChangedCb(s: KeepAlive, newOwner: string, visible: set<ConnectionId>): (o: Outcome)
    ensures newOwner != "" ==> o == Outcome(s, 0, [])
    ensures newOwner == "" ==>
              && o.state.watch.None?
              && o.effects == TeardownEffects(s.watch)
              && o.state == s.(watch := None, alive := o.state.alive)
              && o.state.alive == ComputeAlive(o.state, visible)
              && o.notifications == (if o.state.alive != s.alive then 1 else 0)
  {
    if newOwner != "" then Outcome(s, 0, [])
    else ClientGone(s, visible)
  }

  /** The registration of a present address: an unconfirmed watch whose
      subscription takes the next fresh token. An absent address registers
      nothing. */
  function Register(s: KeepAlive, bus: BusId, client: Option<string>): (r: KeepAlive)
    ensures client.None? ==> r == s
    ensures client.Some? ==>
              && r.watch == Some(ClientWatch(bus, client.value, false, None, s.nextToken))
              && r == s.(watch := r.watch, nextToken := s.nextToken + 1)
  {
    match client
    case None => s
    case Some(name) => s.(watch := Some(ClientWatch(bus, name, false, None, s.nextToken)), nextToken := s.nextToken + 1)
  }

  /** The subscription a present address asks for. */
  function SubscribeEffects(bus: BusId, token: Token, client: Option<string>): seq<Effect>
  {
    if client.Some? then [SubscribeNameOwnerChanged(bus, token, client.value)] else []
  }

  /** `nm_keep_alive_set_dbus_client_watch`: always tears the previous watch
      down first; a present address (the empty name included) is then
      registered unconfirmed with a fresh subscription; liveness is always
      re-evaluated at the end. */
  function SetDbusClientWatch(s: KeepAlive, bus: BusId, client: Option<string>,
                              visible: set<ConnectionId>): (o: Outcome)
    ensures StartsWith(o.effects, TeardownEffects(s.watch))
    ensures var prefix := TeardownEffects(s.watch) + SubscribeEffects(bus, s.nextToken, client);
            && StartsWith(o.effects, prefix)
            && ConfirmationStep(Register(s.(watch := None), bus, client).(alive := o.state.alive), o.state,
                                o.effects[|prefix|..])
            && (o.effects[|prefix|..] != [] <==> CallDue(Register(s.(watch := None), bus, client), visible))
    ensures client.None? ==> o.state.watch.None? && o.effects == TeardownEffects(s.watch)
    ensures client.Some? ==>
              && o.state.watch.Some?
              && o.state.watch.value.client == client.value
              && o.state.watch.value.bus == bus
              && o.state.watch.value.subscription == s.nextToken
              && |o.effects| > |TeardownEffects(s.watch)|
              && o.effects[|TeardownEffects(s.watch)|] == SubscribeNameOwnerChanged(bus, s.nextToken, client.value)
              && (o.state.watch.value.confirmed <==> !(s.floating || s.forced || AttachedVisible(s, visible)))
    ensures o.state.floating == s.floating && o.state.forced == s.forced && o.state.connection == s.connection
    ensures o.state.alive == ComputeAlive(o.state, visible)
    ensures o.notifications == (if o.state.alive != s.alive then 1 else 0)
  {
    var c := CleanupDbusWatch(s);
    var registered := Register(c.state, bus, client);
    var subscribe := SubscribeEffects(bus, c.state.nextToken, client);
    var n := NotifyAlive(registered, visible);
    assert c.effects + subscribe + n.effects == c.effects + (subscribe + n.effects);
    assert (c.effects + subscribe + n.effects)[|c.effects + subscribe|..] == n.effects;
    Outcome(n.state, n.notifications, c.effects + subscribe + n.effects)
  }

  /** `nm_keep_alive_new`, as intended: a fresh object whose cached bit agrees
      with the liveness rule, whatever the visibility. */
  function New(floating: bool): (r: KeepAlive)
    ensures r.floating == floating && !r.forced && r.connection.None? && r.watch.None?
    ensures forall visible: set<ConnectionId> :: r.alive == ComputeAlive(r, visible)
  {
    KeepAlive(floating, false, None, None, floating, 0)
  }

  /** `nm_keep_alive_new` as written: the cached bit is set unconditionally,
      so it disagrees with the liveness rule exactly when the object is created
      non-floating. */
  function NewAsWritten(floating: bool): (r: KeepAlive)
    ensures r.floating == floating && !r.forced && r.connection.None? && r.watch.None?
    ensures forall visible: set<ConnectionId> :: r.alive != ComputeAlive(r, visible) <==> !floating
  {
    KeepAlive(floating, false, None, None, true, 0)
  }

  /** `dispose`: detaches the connection without re-evaluating and tears the
      client watch down; the cached bit is left as it was and nothing is
      notified. */
  function Dispose(s: KeepAlive): (o: Outcome)
    ensures o.state.connection.None? && o.state.watch.None?
    ensures o.state == s.(connection := None, watch := None)
    ensures o.notifications == 0
    ensures o.effects == HandlerSwapEffects(s.connection, None) + TeardownEffects(s.watch)
  {
    var d := SetConnectionWatch(s, None, false, {});
    var c := CleanupDbusWatch(d.state);
    Outcome(c.state, 0, d.effects + c.effects)
  }
}
