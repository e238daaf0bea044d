/** Bookkeeping of the WebSocket service: the set of open connections and,
    per symbol, the set of subscribed connections. Sending, the JSON wire
    format and the periodic price loop are not modelled. */
module WebSocketBook {
  import opened Common

  /** A connection, known only by its identity. */
  type Socket = nat

  /** The two tables of the service. */
  datatype Table = Table(connections: set<Socket>, subscriptions: map<string, set<Socket>>)

  /** No symbol is ever kept with an empty set of subscribers. */
  predicate NoEmptySets(t: Table)
  {
    forall s :: s in t.subscriptions ==> t.subscriptions[s] != {}
  }

  const Empty := Table({}, map[])

  // ---------------------------------------------------------------------------
  // The operations as functions of the tables

  function Registered(t: Table, w: Socket): Table
  {
    t.(connections := t.connections + {w})
  }

  function Subscribed(t: Table, w: Socket, symbol: string): Table
  {
    var current := if symbol in t.subscriptions then t.subscriptions[symbol] else {};
    t.(subscriptions := t.subscriptions[symbol := current + {w}])
  }

  function Unsubscribed(t: Table, w: Socket, symbol: string): Table
  {
    if symbol !in t.subscriptions then t
    else if t.subscriptions[symbol] - {w} == {} then t.(subscriptions := t.subscriptions - {symbol})
    else t.(subscriptions := t.subscriptions[symbol := t.subscriptions[symbol] - {w}])
  }

  /** Every socket of `gone` closed: dropped from the connections and from
      every subscription set, and symbols left without subscribers deleted. */
  function Dropped(t: Table, gone: set<Socket>): Table
  {
    Table(t.connections - gone,
          map s | s in t.subscriptions && t.subscriptions[s] - gone != {} :: t.subscriptions[s] - gone)
  }

  function Unregistered(t: Table, w: Socket): Table
  {
    Dropped(t, {w})
  }

  // ---------------------------------------------------------------------------
  // Incoming messages

  /** A client message: text that is not JSON, or an object with optional
      "action" and "symbol" fields. */
  datatype Message = Malformed | Request(action: Option<string>, symbol: Option<string>)

  datatype Reply = Status(text: string) | Failure(text: string)

  /** data.get('symbol', '').upper() */
  function RequestedSymbol(m: Message): string
    requires m.Request?
  {
    match m.symbol
    case None => ""
    case Some(s) => Upper(s)
  }

  /** The tables and the reply after handle_message. */
  function Handled(t: Table, w: Socket, m: Message): (Table, Option<Reply>)
  {
    if m.Malformed? then (t, Some(Failure("Invalid JSON message")))
    else
      var symbol := RequestedSymbol(m);
      if m.action == Some("subscribe") && symbol != "" then
        (Subscribed(t, w, symbol), Some(Status("Subscribed to " + symbol)))
      else if m.action == Some("unsubscribe") && symbol != "" then
        (Unsubscribed(t, w, symbol), Some(Status("Unsubscribed from " + symbol)))
      else (t, None)
  }

  // ---------------------------------------------------------------------------
  // The service object

  class WebSocketService {
    var connections: set<Socket>
    var subscriptions: map<string, set<Socket>>

    function Snapshot(): Table
      reads this
    {
      Table(connections, subscriptions)
    }

    predicate Valid()
      reads this
    {
      NoEmptySets(Snapshot())
    }

    constructor ()
      ensures Snapshot() == Empty && Valid()
    {
      connections := {};
      subscriptions := map[];
    }

    method Register(w: Socket)
      requires Valid()
      modifies this
      ensures Snapshot() == Registered(old(Snapshot()), w)
      ensures Valid()
    {
      connections := connections + {w};
    }

    /** Removes the socket from every subscription set, one symbol at a time
        as the source's loop over the keys does. */
    method Unregister(w: Socket)
      requires Valid()
      modifies this
      ensures Snapshot() == Unregistered(old(Snapshot()), w)
      ensures Valid()
    {
      ghost var start := Snapshot();
      ghost var before := subscriptions;
      connections := connections - {w};
      var pending := subscriptions.Keys;
      while pending != {}
        invariant connections == start.connections - {w}
        invariant pending <= before.Keys
        invariant forall s :: s in pending ==> s in subscriptions && subscriptions[s] == before[s]
        invariant forall s :: s in before && s !in pending ==>
                    (s in subscriptions <==> before[s] - {w} != {})
                    && (s in subscriptions ==> subscriptions[s] == before[s] - {w})
        invariant subscriptions.Keys <= before.Keys
        decreases pending
      {
        var symbol :| symbol in pending;
        var rest := subscriptions[symbol] - {w};
        if rest == {} {
          subscriptions := subscriptions - {symbol};
        } else {
          subscriptions := subscriptions[symbol := rest];
        }
        pending := pending - {symbol};
      }
      ghost var target := Dropped(start, {w});
      assert subscriptions.Keys == target.subscriptions.Keys;
      assert subscriptions == target.subscriptions;
      assert Snapshot() == target;
      OperationsKeepSetsNonEmpty(start, w, "", {w}, Malformed);
    }

    method Subscribe(w: Socket, symbol: string)
      requires Valid()
      modifies this
      ensures Snapshot() == Subscribed(old(Snapshot()), w, symbol)
      ensures Valid()
    {
      if symbol !in subscriptions {
        subscriptions := subscriptions[symbol := {}];
      }
      subscriptions := subscriptions[symbol := subscriptions[symbol] + {w}];
    }

    method Unsubscribe(w: Socket, symbol: string)
      requires Valid()
      modifies this
      ensures Snapshot() == Unsubscribed(old(Snapshot()), w, symbol)
      ensures Valid()
    {
      if symbol in subscriptions {
        subscriptions := subscriptions[symbol := subscriptions[symbol] - {w}];
        if subscriptions[symbol] == {} {
          subscriptions := subscriptions - {symbol};
        }
      }
    }

    method HandleMessage(w: Socket, m: Message) returns (reply: Option<Reply>)
      requires Valid()
      modifies this
      ensures (Snapshot(), reply) == Handled(old(Snapshot()), w, m)
      ensures Valid()
    {
      if m.Malformed? {
        return Some(Failure("Invalid JSON message"));
      }
      var symbol := if m.symbol.Some? then Upper(m.symbol.value) else "";
      if m.action == Some("subscribe") && symbol != "" {
        Subscribe(w, symbol);
        reply := Some(Status("Subscribed to " + symbol));
      } else if m.action == Some("unsubscribe") && symbol != "" {
        Unsubscribe(w, symbol);
        reply := Some(Status("Unsubscribed from " + symbol));
      } else {
        reply := None;
      }
    }

    /** broadcast_quote: `failed` are the sockets whose send raises
        ConnectionClosed. Those among the symbol's subscribers are
        unregistered, one after the other. */
    method BroadcastQuote(symbol: string, failed: set<Socket>) returns (disconnected: set<Socket>)
      requires Valid()
      modifies this
      ensures symbol in old(subscriptions) ==> disconnected == old(subscriptions)[symbol] * failed
      ensures symbol !in old(subscriptions) ==> disconnected == {}
      ensures Snapshot() == Dropped(old(Snapshot()), disconnected)
      ensures Valid()
    {
      disconnected := {};
      if symbol !in subscriptions {
        DroppedNothing(Snapshot());
        return;
      }
      disconnected := subscriptions[symbol] * failed;
      ghost var start := Snapshot();
      DroppedNothing(start);
      var pending := disconnected;
      ghost var done: set<Socket> := {};
      while pending != {}
        invariant pending <= disconnected && done == disconnected - pending
        invariant Snapshot() == Dropped(start, done)
        invariant Valid()
        decreases pending
      {
        var w :| w in pending;
        DroppedAgain(start, done, w);
        Unregister(w);
        pending := pending - {w};
        done := done + {w};
      }
      assert done == disconnected;
    }
  }

  // ---------------------------------------------------------------------------
  // Properties

  lemma DroppedNothing(t: Table)
    requires NoEmptySets(t)
    ensures Dropped(t, {}) == t
  {
    var r := Dropped(t, {}).subscriptions;
    forall s | s in t.subscriptions
      ensures t.subscriptions[s] - {} == t.subscriptions[s]
    {
    }
    assert r.Keys == t.subscriptions.Keys;
    assert r == t.subscriptions;
  }

  /** Unregistering one more socket is dropping the larger set. */
  lemma DroppedAgain(t: Table, gone: set<Socket>, w: Socket)
    ensures Unregistered(Dropped(t, gone), w) == Dropped(t, gone + {w})
  {
    var a := Unregistered(Dropped(t, gone), w).subscriptions;
    var b := Dropped(t, gone + {w}).subscriptions;
    forall s | s in t.subscriptions
      ensures t.subscriptions[s] - gone - {w} == t.subscriptions[s] - (gone + {w})
    {
    }
    assert a.Keys == b.Keys;
    assert a == b;
  }

  /** All operations keep every subscription set non-empty. */
  lemma OperationsKeepSetsNonEmpty(t: Table, w: Socket, symbol: string, gone: set<Socket>, m: Message)
    requires NoEmptySets(t)
    ensures NoEmptySets(Registered(t, w))
    ensures NoEmptySets(Subscribed(t, w, symbol))
    ensures NoEmptySets(Unsubscribed(t, w, symbol))
    ensures NoEmptySets(Dropped(t, gone))
    ensures NoEmptySets(Handled(t, w, m).0)
  {
  }

  /** register adds the socket and changes nothing else. */
  lemma RegisterEffect(t: Table, w: Socket)
    ensures var r := Registered(t, w);
      r.connections == t.connections + {w} && r.subscriptions == t.subscriptions
  {
  }

  /** After subscribe the socket is a subscriber of the symbol, and every
      other symbol's subscribers are unchanged. */
  lemma SubscribeEffect(t: Table, w: Socket, symbol: string)
    ensures var r := Subscribed(t, w, symbol);
      && symbol in r.subscriptions && w in r.subscriptions[symbol]
      && (symbol in t.subscriptions ==> r.subscriptions[symbol] == t.subscriptions[symbol] + {w})
      && r.connections == t.connections
      && forall s :: s != symbol ==>
           && (s in r.subscriptions <==> s in t.subscriptions)
           && (s in t.subscriptions ==> r.subscriptions[s] == t.subscriptions[s])
  {
  }

  /** After unsubscribe the socket no longer follows the symbol; other
      subscribers of it and every other symbol are unchanged; an unknown
      symbol leaves the tables as they were. */
  lemma UnsubscribeEffect(t: Table, w: Socket, symbol: string)
    ensures var r := Unsubscribed(t, w, symbol);
      && (symbol !in t.subscriptions ==> r == t)
      && (symbol in r.subscriptions ==> w !in r.subscriptions[symbol])
      && (forall v :: v != w ==> ((symbol in r.subscriptions && v in r.subscriptions[symbol])
                                 <==> (symbol in t.subscriptions && v in t.subscriptions[symbol])))
      && r.connections == t.connections
      && forall s :: s != symbol ==>
           && (s in r.subscriptions <==> s in t.subscriptions)
           && (s in t.subscriptions ==> r.subscriptions[s] == t.subscriptions[s])
  {
    var r := Unsubscribed(t, w, symbol);
    if symbol in t.subscriptions {
      forall v | v != w
        ensures (symbol in r.subscriptions && v in r.subscriptions[symbol])
                <==> v in t.subscriptions[symbol]
      {
        if v in t.subscriptions[symbol] {
          assert v in t.subscriptions[symbol] - {w};
        }
      }
    }
  }

  /** Unregister takes the socket out of everything and leaves every other
      socket's subscriptions as they were. */
  lemma UnregisterEffect(t: Table, w: Socket)
    ensures var r := Unregistered(t, w);
      && r.connections == t.connections - {w}
      && (forall s :: s in r.subscriptions ==> w !in r.subscriptions[s])
      && forall s, v :: v != w ==> ((s in r.subscriptions && v in r.subscriptions[s])
                                  <==> (s in t.subscriptions && v in t.subscriptions[s]))
  {
    var r := Unregistered(t, w);
    forall s, v | v != w && s in t.subscriptions && v in t.subscriptions[s]
      ensures s in r.subscriptions && v in r.subscriptions[s]
    {
      assert v in t.subscriptions[s] - {w};
    }
  }

  /** Subscribing a socket that did not follow the symbol and then
      unsubscribing it restores the tables. */
  lemma SubscribeUnsubscribeRoundTrip(t: Table, w: Socket, symbol: string)
    requires NoEmptySets(t)
    requires symbol in t.subscriptions ==> w !in t.subscriptions[symbol]
    ensures Unsubscribed(Subscribed(t, w, symbol), w, symbol) == t
  {
    var r := Unsubscribed(Subscribed(t, w, symbol), w, symbol);
    if symbol in t.subscriptions {
      assert t.subscriptions[symbol] + {w} - {w} == t.subscriptions[symbol];
      assert r.subscriptions == t.subscriptions;
    } else {
      assert r.subscriptions == t.subscriptions;
    }
  }

  /** Registering a new socket and unregistering it restores the tables. */
  lemma RegisterUnregisterRoundTrip(t: Table, w: Socket)
    requires NoEmptySets(t)
    requires w !in t.connections && forall s :: s in t.subscriptions ==> w !in t.subscriptions[s]
    ensures Unregistered(Registered(t, w), w) == t
  {
    var r := Unregistered(Registered(t, w), w);
    forall s | s in t.subscriptions
      ensures t.subscriptions[s] - {w} == t.subscriptions[s]
    {
    }
    assert r.subscriptions == t.subscriptions;
  }

  /** handle_message changes the tables only for a subscribe or unsubscribe
      request naming a symbol, which it upper-cases. */
  lemma HandleMessageActsOnlyOnRequests(t: Table, w: Socket, m: Message)
    ensures var (r, reply) := Handled(t, w, m);
      && (m.Malformed? ==> r == t && reply == Some(Failure("Invalid JSON message")))
      && (m.Request? && m.action != Some("subscribe") && m.action != Some("unsubscribe") ==> r == t && reply.None?)
      && (m.Request? && (m.symbol.None? || m.symbol == Some("")) ==> r == t && reply.None?)
      && (m.Request? && m.action == Some("subscribe") && m.symbol.Some? && m.symbol.value != "" ==>
            r == Subscribed(t, w, Upper(m.symbol.value)))
      && (m.Request? && m.action == Some("unsubscribe") && m.symbol.Some? && m.symbol.value != "" ==>
            r == Unsubscribed(t, w, Upper(m.symbol.value)))
  {
    if m.Request? && m.symbol.Some? {
      assert |Upper(m.symbol.value)| == |m.symbol.value|;
    }
  }

  /** A broadcast disconnects exactly the symbol's subscribers whose send
      failed: they leave every table and nobody else is affected. */
  lemma BroadcastDropsOnlyFailed(t: Table, symbol: string, failed: set<Socket>)
    requires symbol in t.subscriptions
    ensures var r := Dropped(t, t.subscriptions[symbol] * failed);
      && r.connections == t.connections - t.subscriptions[symbol] * failed
      && (forall s :: s in r.subscriptions ==> r.subscriptions[s] !! t.subscriptions[symbol] * failed)
      && forall s, v :: v !in t.subscriptions[symbol] * failed ==>
           ((s in r.subscriptions && v in r.subscriptions[s]) <==> (s in t.subscriptions && v in t.subscriptions[s]))
  {
    var gone := t.subscriptions[symbol] * failed;
    var r := Dropped(t, gone);
    forall s, v | v !in gone && s in t.subscriptions && v in t.subscriptions[s]
      ensures s in r.subscriptions && v in r.subscriptions[s]
    {
      assert v in t.subscriptions[s] - gone;
    }
  }
}
