/**
 * The per-center fan-out hub. Its `run` loop takes one event at a time from
 * four channels; each `select` arm is a method here, and the loop's single
 * goroutine becomes the sequential order in which callers invoke them.
 * An event sent to a hub whose loop has returned is never received: the
 * methods leave such a hub and its connections as they are.
 */
module WebSocketHub {

  /** Buffer size of a connection's send channel (make(chan string, 256)). */
  const SendCapacity := 256

  /**
   * What the hub sees of one websocket connection: the messages buffered in
   * its `send` channel, whether that channel and the socket are still open,
   * and whether the writer pump has been told to quit.
   */
  class WSConnection {
    var send: seq<string>
    var sendOpen: bool
    var connOpen: bool
    var quitRequested: bool

    /** The connection wsHandler builds: an empty, open queue on an open socket. */
    constructor ()
      ensures send == [] && sendOpen && connOpen && !quitRequested
    {
      send := [];
      sendOpen := true;
      connOpen := true;
      quitRequested := false;
    }
  }

  /** One registered connection took message m at the tail of its queue. */
  twostate predicate Enqueued(c: WSConnection, m: string)
    reads c
  {
    && c.send == old(c.send) + [m]
    && c.sendOpen == old(c.sendOpen)
    && c.connOpen == old(c.connOpen)
    && c.quitRequested == old(c.quitRequested)
  }

  /** One registered connection had a full queue: queue and socket are closed. */
  twostate predicate Evicted(c: WSConnection)
    reads c
  {
    && c.send == old(c.send)
    && !c.sendOpen
    && !c.connOpen
    && c.quitRequested == old(c.quitRequested)
  }

  /**
   * The outcome of broadcasting m to the connections `before` of hub h:
   * those with room keep their place and got m, the others are evicted.
   */
  twostate predicate BroadcastOutcome(h: WSHub, before: set<WSConnection>, m: string)
    reads h, before
  {
    && h.connections == (set c | c in before && old(|c.send|) < SendCapacity)
    && forall c | c in before ::
         if old(|c.send|) < SendCapacity then Enqueued(c, m) else Evicted(c)
  }

  /** Hub h was shut down by quit(true): it no longer runs, and each of its connections `before` was told to stop. */
  twostate predicate Stopped(h: WSHub, before: set<WSConnection>)
    reads h, before
  {
    && !h.running
    && h.connections == before
    && forall c | c in before ::
         && c.quitRequested
         && c.send == old(c.send) && c.sendOpen == old(c.sendOpen) && c.connOpen == old(c.connOpen)
  }

  class WSHub {
    var connections: set<WSConnection>
    /** False once a quit(true) event has ended the run loop. */
    var running: bool

    /** Every registered connection has an open queue within capacity. */
    ghost predicate Valid()
      reads this, connections
    {
      forall c | c in connections :: c.sendOpen && |c.send| <= SendCapacity
    }

    /** newWSHub, with `go run()` started at once. */
    constructor ()
      ensures Valid() && connections == {} && running
    {
      connections := {};
      running := true;
    }

    /** case c := <-h.register */
    method Register(c: WSConnection)
      requires Valid() && c.sendOpen && |c.send| <= SendCapacity
      modifies this
      ensures Valid() && running == old(running)
      ensures connections == if old(running) then old(connections) + {c} else old(connections)
    {
      if !running {
        return;
      }
      connections := connections + {c};
    }

    /**
     * case c := <-h.unregister, as written: the connection leaves the set and
     * its queue is closed whether or not the hub still held it. closedTwice
     * reports a close of an already closed channel, which panics in Go.
     */
    method Unregister(c: WSConnection) returns (closedTwice: bool)
      requires Valid()
      modifies this, c
      ensures Valid() && running == old(running)
      ensures old(running) ==> connections == old(connections) - {c} && !c.sendOpen
      ensures closedTwice <==> old(running) && !old(c.sendOpen)
      ensures !old(running) ==> connections == old(connections) && c.sendOpen == old(c.sendOpen)
      ensures c.send == old(c.send) && c.connOpen == old(c.connOpen) && c.quitRequested == old(c.quitRequested)
    {
      closedTwice := false;
      if !running {
        return;
      }
      connections := connections - {c};
      closedTwice := !c.sendOpen;
      c.sendOpen := false;
    }

    /**
     * Unregister as evidently intended: only a connection the hub still holds
     * is removed and has its queue closed, so no queue is ever closed twice.
     */
    method UnregisterOnce(c: WSConnection)
      requires Valid()
      modifies this, c
      ensures Valid() && running == old(running)
      ensures old(running) ==> connections == old(connections) - {c}
      ensures !old(running) ==> connections == old(connections)
      ensures c.sendOpen != old(c.sendOpen) ==> old(c.sendOpen) && old(running) && c in old(connections)
      ensures old(running) && c in old(connections) ==> !c.sendOpen
      ensures c.send == old(c.send) && c.connOpen == old(c.connOpen) && c.quitRequested == old(c.quitRequested)
    {
      if !running {
        return;
      }
      if c in connections {
        connections := connections - {c};
        c.sendOpen := false;
      }
    }

    /**
     * case m := <-h.broadcast: a non-blocking send to every registered
     * connection; a connection whose queue is full is dropped, its queue
     * closed and its socket closed. Go's map order is unspecified, so the
     * loop picks the connections in any order.
     */
    method Broadcast(m: string)
      requires Valid()
      modifies this, connections
      ensures Valid() && running == old(running)
      ensures old(running) ==> BroadcastOutcome(this, old(connections), m)
      ensures old(running) ==> connections <= old(connections)
      ensures forall c | c in old(connections) :: |c.send| <= SendCapacity
      ensures !old(running) ==> connections == old(connections) && forall c | c in old(connections) :: unchanged(c)
    {
      if !running {
        return;
      }
      var todo := connections;
      while todo != {}
        invariant todo <= old(connections)
        invariant connections == (set c | c in old(connections) && (c in todo || old(|c.send|) < SendCapacity))
        invariant forall c | c in old(connections) && c !in todo ::
                    if old(|c.send|) < SendCapacity then Enqueued(c, m) else Evicted(c)
        invariant forall c | c in todo :: unchanged(c)
        invariant running == old(running)
        decreases todo
      {
        var c :| c in todo;
        if |c.send| < SendCapacity {
          c.send := c.send + [m];
        } else {
          connections := connections - {c};
          c.sendOpen := false;
          c.connOpen := false;
        }
        todo := todo - {c};
      }
    }

    /**
     * case q := <-h.quit: on true, every registered connection is told to
     * stop and the loop returns for good; on false nothing happens.
     */
    method Quit(q: bool)
      requires Valid()
      modifies this, connections
      ensures Valid() && connections == old(connections)
      ensures running == (old(running) && !q)
      ensures old(running) && q ==> Stopped(this, old(connections))
      ensures forall c | c in connections ::
                && c.send == old(c.send) && c.sendOpen == old(c.sendOpen) && c.connOpen == old(c.connOpen)
                && c.quitRequested == (old(c.quitRequested) || (old(running) && q))
    {
      if !running || !q {
        return;
      }
      var todo := connections;
      while todo != {}
        invariant todo <= connections == old(connections)
        invariant forall c | c in connections ::
                    && c.send == old(c.send) && c.sendOpen == old(c.sendOpen) && c.connOpen == old(c.connOpen)
                    && c.quitRequested == (old(c.quitRequested) || c !in todo)
        invariant running
        decreases todo
      {
        var c :| c in todo;
        c.quitRequested := true;
        todo := todo - {c};
      }
      running := false;
    }
  }

  /**
   * A connection evicted by a broadcast and later unregistered by its own
   * handler (wsHandler's deferred unregister) has its queue closed twice.
   */
  method EvictedThenUnregisteredClosesTwice() returns (closedTwice: bool)
    ensures closedTwice
  {
    var h := new WSHub();
    var c := new WSConnection();
    c.send := seq(SendCapacity, _ => "queued");
    h.Register(c);
    h.Broadcast("overflow");
    closedTwice := h.Unregister(c);
  }
}
