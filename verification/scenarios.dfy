/** Concrete histories of one keep-alive object, each stating the alive bit,
    the notifications and the effects after every event. */
module Scenarios {
  import opened Types
  import opened World

  /** A sunk object with nothing attached: the starting point of most histories. */
  function Sunk(): World
  {
    Deliver(Initial(true, {}), Sink).world
  }

  /** Created floating, the object is alive; sinking it with nothing attached
      makes it dead, with one notification. */
  lemma SinkWithNothingAttached()
    ensures Initial(true, {}).ka.alive
    ensures var r := Deliver(Initial(true, {}), Sink);
            !r.world.ka.alive && r.notifications == 1 && r.effects == []
  {
  }

  /** Forcing a sunk object flips it alive, unforcing flips it back, one
      notification each. */
  lemma ForceAndUnforce()
    ensures var r1 := Deliver(Sunk(), SetForced(true));
            var r2 := Deliver(r1.world, SetForced(false));
            && r1.world.ka.alive && r1.notifications == 1
            && !r2.world.ka.alive && r2.notifications == 1
  {
  }

  /** Attaching an invisible connection keeps the object dead; the connection
      becoming visible makes it alive through the flags-changed handler. */
  lemma ConnectionBecomesVisible()
    ensures var r1 := Deliver(Sunk(), SetConnection(Some(7)));
            var r2 := Deliver(r1.world, FlagsChanged(7, true));
            && !r1.world.ka.alive && r1.notifications == 0 && r1.effects == [ConnectFlagsChanged(7)]
            && r2.world.ka.alive && r2.notifications == 1
  {
  }

  /** A change of some other connection does not reach the object. */
  lemma OtherConnectionIsNotWatched()
    ensures var r1 := Deliver(Sunk(), SetConnection(Some(7)));
            var r2 := Deliver(r1.world, FlagsChanged(8, true));
            && !r2.world.ka.alive && r2.notifications == 0 && r2.effects == []
  {
  }

  /** Registering client "X" makes the object alive and issues one
      GetNameOwner call; the answer "X" changes nothing; the name losing its
      owner tears the watch down and makes the object dead. */
  lemma ClientConfirmedThenLeaves()
    ensures var r1 := Deliver(Sunk(), SetDbusClientWatch(0, Some("X")));
            var r2 := Deliver(r1.world, GetNameOwnerReply(1, Owner("X")));
            var r3 := Deliver(r2.world, NameOwnerChanged("X", ""));
            && r1.world.ka.alive && r1.notifications == 1
            && r1.effects == [SubscribeNameOwnerChanged(0, 0, "X"), CallGetNameOwner(0, 1, "X")]
            && r2.world.ka == r1.world.ka && r2.notifications == 0 && r2.effects == []
            && !r3.world.ka.alive && r3.notifications == 1
            && r3.effects == [Cancel(1), Unsubscribe(0, 0)]
            && r3.world.subscriptions == map[]
  {
    var sunk := KeepAlive(false, false, None, None, false, 0);
    assert Sunk() == World(sunk, {}, {}, map[], {}, {});
    var x := ClientWatch(0, "X", true, Some(1), 0);
    var w1 := World(sunk.(watch := Some(x), alive := true, nextToken := 2), {}, {}, map[0 := "X"], {1}, {});
    var r1 := Deliver(Sunk(), SetDbusClientWatch(0, Some("X")));
    assert r1.world == w1;
    var r2 := Deliver(w1, GetNameOwnerReply(1, Owner("X")));
    assert r2.world == w1.(pending := {});
    assert "X" in r2.world.subscriptions.Values by {
      assert r2.world.subscriptions[0] == "X";
    }
    var w3 := World(sunk.(nextToken := 2), {}, {}, map[], {}, {});
    var r3 := Deliver(r2.world, NameOwnerChanged("X", ""));
    assert r3.effects == [Cancel(1), Unsubscribe(0, 0)];
    assert r3.world == w3;
  }

  /** GetNameOwner failing means the name has no owner on the bus: the watch
      is torn down and the object becomes dead. */
  lemma ClientNotOnBus()
    ensures var r1 := Deliver(Sunk(), SetDbusClientWatch(0, Some("X")));
            var r2 := Deliver(r1.world, GetNameOwnerReply(1, Error));
            && !r2.world.ka.alive && r2.notifications == 1 && r2.world.ka.watch.None?
  {
  }

  /** GetNameOwner answering another owner "Z" is a mismatch too: the watch
      is torn down, its subscription released, and the object becomes dead. */
  lemma ClientOwnedByOther()
    ensures var r1 := Deliver(Sunk(), SetDbusClientWatch(0, Some("X")));
            var r2 := Deliver(r1.world, GetNameOwnerReply(1, Owner("Z")));
            && !r2.world.ka.alive && r2.notifications == 1 && r2.world.ka.watch.None?
            && r2.effects == [Cancel(1), Unsubscribe(0, 0)]
            && r2.world.subscriptions == map[] && r2.world.pending == {}
  {
    var sunk := KeepAlive(false, false, None, None, false, 0);
    assert Sunk() == World(sunk, {}, {}, map[], {}, {});
    var x := ClientWatch(0, "X", true, Some(1), 0);
    var w1 := World(sunk.(watch := Some(x), alive := true, nextToken := 2), {}, {}, map[0 := "X"], {1}, {});
    assert Deliver(Sunk(), SetDbusClientWatch(0, Some("X"))).world == w1;
  }

  /** Replacing client "X" by "Y" before "X" is confirmed cancels the call for
      "X"; its late answer does nothing, and only the watch for "Y" is live. */
  lemma ReplacedWatchIgnoresStaleAnswer()
    ensures var r1 := Deliver(Sunk(), SetDbusClientWatch(0, Some("X")));
            var r2 := Deliver(r1.world, SetDbusClientWatch(0, Some("Y")));
            var r3 := Deliver(r2.world, GetNameOwnerReply(1, Owner("X")));
            && r2.effects == [Cancel(1), Unsubscribe(0, 0), SubscribeNameOwnerChanged(0, 2, "Y"), CallGetNameOwner(0, 3, "Y")]
            && r2.notifications == 0
            && r3.world.ka == r2.world.ka && r3.notifications == 0 && r3.effects == []
            && r3.world.subscriptions == map[2 := "Y"]
  {
    var sunk := KeepAlive(false, false, None, None, false, 0);
    assert Sunk() == World(sunk, {}, {}, map[], {}, {});
    var x := ClientWatch(0, "X", true, Some(1), 0);
    var w1 := World(sunk.(watch := Some(x), alive := true, nextToken := 2), {}, {}, map[0 := "X"], {1}, {});
    assert Deliver(Sunk(), SetDbusClientWatch(0, Some("X"))).world == w1;
    var y := ClientWatch(0, "Y", true, Some(3), 2);
    var w2 := World(sunk.(watch := Some(y), alive := true, nextToken := 4), {}, {}, map[2 := "Y"], {1, 3}, {1});
    var r2 := Deliver(w1, SetDbusClientWatch(0, Some("Y")));
    assert r2.effects == [Cancel(1), Unsubscribe(0, 0), SubscribeNameOwnerChanged(0, 2, "Y"), CallGetNameOwner(0, 3, "Y")];
    assert r2.world == w2;
  }

  /** The empty name is registered like any other; only an absent name clears
      the watch. */
  lemma EmptyNameIsRegistered()
    ensures var r := Deliver(Sunk(), SetDbusClientWatch(0, Some("")));
            r.world.ka.watch.Some? && r.world.ka.alive
  {
  }

  /** While something else keeps the object alive, registering a client
      issues no call; the call is issued when the other reason goes away. */
  lemma ConfirmationIsLazy()
    ensures var r1 := Deliver(Sunk(), SetForced(true));
            var r2 := Deliver(r1.world, SetDbusClientWatch(0, Some("X")));
            var r3 := Deliver(r2.world, SetForced(false));
            && r2.effects == [SubscribeNameOwnerChanged(0, 0, "X")]
            && r3.effects == [CallGetNameOwner(0, 1, "X")]
            && r3.world.ka.alive && r3.notifications == 0
  {
  }
}
