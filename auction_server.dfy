/**
 * The server's mutable auction state: the current item, the connected
 * sockets and the one-second timer, with the socket.io handlers, the timer
 * callback and the multicast relay as methods. Every send is returned as an
 * event instead of being written to a socket or to the network.
 */
module Auction {
  import opened Wrappers
  import opened Transport
  import opened AuctionItems
  import opened Registry

  /** The rejection text sent to a bidder who bid too low (server.js:63). */
  const BidTooLowMessage: string := "Lance abaixo do mínimo permitido."

  datatype EventName = CurrentItemEvent | ErrorEvent | MessageEvent

  datatype Payload = ItemPayload(item: AuctionItem) | TextPayload(text: string)

  datatype Event =
    | Emit(to: SocketId, name: EventName, payload: Payload)   // `socket.emit` to one socket
    | Broadcast(name: EventName, payload: Payload)            // `io.emit` to every socket
    | Datagram(group: string, port: int, item: AuctionItem)   // `udpServer.send` of the item's JSON

  /** The two sends that follow every change to the item (server.js:59-60, 84-85, 95-96). */
  function Publish(item: AuctionItem): (events: seq<Event>)
    ensures |events| == 2
    // the item goes to every socket at once and to the multicast group, never to one socket
    ensures Broadcast(CurrentItemEvent, ItemPayload(item)) in events
    ensures Datagram(MulticastAddress, MulticastPort, item) in events
    ensures forall e :: e in events ==> !e.Emit?
  {
    [Broadcast(CurrentItemEvent, ItemPayload(item)), Datagram(MulticastAddress, MulticastPort, item)]
  }

  class Server {
    var item: AuctionItem
    var clients: seq<SocketId>
    var timerRunning: bool

    /** The item is well formed, and the timer runs whenever someone is connected. */
    ghost predicate Valid()
      reads this
    {
      ValidItem(item) && (clients != [] ==> timerRunning)
    }

    /** The state at process start (server.js:31-41). */
    constructor ()
      ensures Valid()
      ensures item == InitialItem && clients == [] && !timerRunning
    {
      item := InitialItem;
      clients := [];
      timerRunning := false;
    }

    /** `startTimer`: creates the interval only when none is running (server.js:74-80). */
    method StartTimer() returns (created: bool)
      modifies this`timerRunning
      ensures timerRunning
      ensures created == !old(timerRunning)
    {
      created := !timerRunning;
      if created {
        timerRunning := true;
      }
    }

    /** `stopTimer`: clears the interval only when one is running (server.js:104-110). */
    method StopTimer() returns (cleared: bool)
      modifies this`timerRunning
      ensures !timerRunning
      ensures cleared == old(timerRunning)
    {
      cleared := timerRunning;
      if cleared {
        timerRunning := false;
      }
    }

    /**
     * The `connection` handler: register the socket, start the timer when it
     * is the only one, and send it the current item (server.js:43-53).
     */
    method Connect(socket: SocketId) returns (events: seq<Event>)
      requires Valid()
      modifies this
      ensures Valid()
      ensures clients == old(clients) + [socket]
      ensures item == old(item)
      ensures timerRunning == (old(timerRunning) || |clients| == 1)
      ensures events == [Emit(socket, CurrentItemEvent, ItemPayload(item))]
    {
      clients := clients + [socket];
      if |clients| == 1 {
        var created := StartTimer();
      }
      events := [Emit(socket, CurrentItemEvent, ItemPayload(item))];
    }

    /** The `disconnect` handler: filter the socket out; the timer is left running (server.js:67-70). */
    method Disconnect(socket: SocketId)
      requires Valid()
      modifies this`clients
      ensures Valid()
      ensures clients == Without(old(clients), socket)
      ensures item == old(item) && timerRunning == old(timerRunning)
    {
      clients := Without(clients, socket);
    }

    /**
     * The `newBid` handler: apply a high enough bid and publish it, or tell
     * the bidder alone that the bid was too low (server.js:55-65).
     */
    method NewBid(socket: SocketId, bid: Bid) returns (accepted: bool, events: seq<Event>)
      requires Valid()
      modifies this`item
      ensures Valid() && clients == old(clients) && timerRunning == old(timerRunning)
      ensures accepted == BidAccepted(old(item), bid)
      ensures accepted ==> item == WithBid(old(item), bid) && events == Publish(item)
      ensures !accepted ==>
                item == old(item) && events == [Emit(socket, ErrorEvent, TextPayload(BidTooLowMessage))]
    {
      accepted := bid.amount >= item.currentBid + item.minBidIncrement;
      if accepted {
        item := item.(currentBid := bid.amount);
        item := item.(currentBidUser := Some(bid.user));
        events := Publish(item);
      } else {
        events := [Emit(socket, ErrorEvent, TextPayload(BidTooLowMessage))];
      }
    }

    /**
     * The interval callback, run once a second while the timer exists: with
     * clients, count down or rotate and publish; without, stop the timer
     * (server.js:80-101).
     */
    method Tick() returns (events: seq<Event>)
      requires Valid() && timerRunning
      modifies this`item, this`timerRunning
      ensures Valid() && clients == old(clients)
      ensures old(clients) == [] ==> !timerRunning && item == old(item) && events == []
      ensures old(clients) != [] ==> timerRunning && events == Publish(item)
      ensures old(clients) != [] ==> item == NextItem(old(item))
      ensures old(clients) != [] && old(item).timeRemaining > 0 ==> item == Countdown(old(item))
      ensures old(clients) != [] && old(item).timeRemaining == 0 ==> item == Rotate(old(item))
    {
      if |clients| > 0 {
        if item.timeRemaining > 0 {
          item := item.(timeRemaining := item.timeRemaining - 1);
        } else {
          item := AuctionItem(item.id + 1, item.description, item.initialBid, item.minBidIncrement,
                              item.initialBid, None, RoundSeconds);
        }
        events := Publish(item);
      } else {
        var cleared := StopTimer();
        events := [];
      }
    }

    /**
     * The UDP `message` handler: drop the server's own datagrams, relay any
     * other payload verbatim to every registered socket in order (server.js:150-162).
     */
    method OnDatagram(msg: string, sender: string, serverAddress: string) returns (events: seq<Event>)
      ensures sender == serverAddress ==> events == []
      ensures sender != serverAddress ==> |events| == |clients|
      ensures sender != serverAddress ==>
                forall i :: 0 <= i < |clients| ==> events[i] == Emit(clients[i], MessageEvent, TextPayload(msg))
    {
      events := [];
      if sender == serverAddress {
        return;
      }
      var i := 0;
      while i < |clients|
        invariant 0 <= i <= |clients|
        invariant |events| == i
        invariant forall k :: 0 <= k < i ==> events[k] == Emit(clients[k], MessageEvent, TextPayload(msg))
      {
        events := events + [Emit(clients[i], MessageEvent, TextPayload(msg))];
        i := i + 1;
      }
    }
  }

  /**
   * A client session checked against the contracts alone: bids of 110 and
   * then 130 are accepted, 115 in between is not; the lazy timer stop.
   */
  method BidScenario() {
    var s := new Server();
    var ev := s.Connect("A");
    assert s.timerRunning;
    var accepted, events := s.NewBid("A", Bid(110, "A"));
    assert accepted && s.item.currentBid == 110;
    accepted, events := s.NewBid("B", Bid(115, "B"));
    assert !accepted && s.item.currentBid == 110;
    assert events == [Emit("B", ErrorEvent, TextPayload(BidTooLowMessage))];
    accepted, events := s.NewBid("B", Bid(130, "B"));
    assert accepted && s.item.currentBid == 130 && s.item.currentBidUser == Some("B");
    s.Disconnect("A");
    assert s.clients == [] && s.timerRunning;
    ev := s.Tick();
    assert !s.timerRunning && s.item.currentBid == 130;
    var created := s.StartTimer();
    assert created;
    created := s.StartTimer();
    assert !created;
  }
}
