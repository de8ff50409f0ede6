/**
 * The auction item record and the three ways it changes: a bid is applied,
 * the countdown advances one second, or the item expires and is rotated.
 */
module AuctionItems {
  import opened Wrappers

  /** Seconds a fresh item runs for (server.js:40 and server.js:93). */
  const RoundSeconds: int := 60

  datatype AuctionItem = AuctionItem(
    id: int,
    description: string,
    initialBid: int,
    minBidIncrement: int,
    currentBid: int,
    currentBidUser: Option<string>,
    timeRemaining: int)

  /** The payload of a `newBid` event. */
  datatype Bid = Bid(amount: int, user: string)

  /** The item the server starts with (server.js:34-41). */
  const InitialItem: AuctionItem :=
    AuctionItem(1, "Item de teste", 100, 10, 100, None, RoundSeconds)

  /** The record invariant: bids never fall below the opening bid and the clock stays in range. */
  predicate ValidItem(item: AuctionItem) {
    && item.minBidIncrement >= 0
    && item.currentBid >= item.initialBid
    && 0 <= item.timeRemaining <= RoundSeconds
  }

  /** The acceptance rule of the `newBid` handler (server.js:56). */
  predicate BidAccepted(item: AuctionItem, bid: Bid)
    // an accepted bid beats the standing one by at least the increment
    ensures BidAccepted(item, bid) ==> bid.amount - item.currentBid >= item.minBidIncrement
    // with a positive increment, matching the standing bid is never enough
    ensures item.minBidIncrement > 0 && bid.amount <= item.currentBid ==> !BidAccepted(item, bid)
  {
    bid.amount >= item.currentBid + item.minBidIncrement
  }

  /** The item after an accepted bid (server.js:57-58). */
  function WithBid(item: AuctionItem, bid: Bid): (r: AuctionItem)
    ensures r.currentBid == bid.amount && r.currentBidUser == Some(bid.user)
    // nothing but the bid and the bidder changes
    ensures r.(currentBid := item.currentBid, currentBidUser := item.currentBidUser) == item
    ensures ValidItem(item) && BidAccepted(item, bid) ==>
              ValidItem(r) && r.currentBid >= item.currentBid + item.minBidIncrement
  {
    item.(currentBid := bid.amount, currentBidUser := Some(bid.user))
  }

  /** One second of countdown on an item that has time left (server.js:82-83). */
  function Countdown(item: AuctionItem): (r: AuctionItem)
    requires item.timeRemaining > 0
    ensures r.timeRemaining == item.timeRemaining - 1
    // nothing but the clock changes
    ensures r.(timeRemaining := item.timeRemaining) == item
    ensures ValidItem(item) ==> ValidItem(r)
  {
    item.(timeRemaining := item.timeRemaining - 1)
  }

  /** The fresh item that replaces an expired one (server.js:88-94). */
  function Rotate(item: AuctionItem): (r: AuctionItem)
    ensures r.id == item.id + 1
    ensures r.currentBid == item.initialBid && r.currentBidUser == None
    ensures r.timeRemaining == RoundSeconds
    ensures r.description == item.description
    ensures r.initialBid == item.initialBid && r.minBidIncrement == item.minBidIncrement
    ensures item.minBidIncrement >= 0 ==> ValidItem(r)
  {
    AuctionItem(item.id + 1, item.description, item.initialBid, item.minBidIncrement,
                item.initialBid, None, RoundSeconds)
  }

  /** What one tick does to the item while clients are connected (server.js:82-97). */
  function NextItem(item: AuctionItem): (r: AuctionItem)
    ensures ValidItem(item) ==> ValidItem(r)
  {
    if item.timeRemaining > 0 then Countdown(item) else Rotate(item)
  }

  /** The item after `n` ticks with clients connected throughout. */
  function AfterTicks(item: AuctionItem, n: nat): AuctionItem
    decreases n
  {
    if n == 0 then item else AfterTicks(NextItem(item), n - 1)
  }

  lemma {:induction false} AfterTicksAdd(item: AuctionItem, a: nat, b: nat)
    ensures AfterTicks(item, a + b) == AfterTicks(AfterTicks(item, a), b)
    decreases a
  {
    if a > 0 {
      AfterTicksAdd(NextItem(item), a - 1, b);
    }
  }

  /** While time is left, each tick takes exactly one second off the clock and changes nothing else. */
  lemma {:induction false} CountdownTicks(item: AuctionItem, k: nat)
    requires k <= item.timeRemaining
    ensures AfterTicks(item, k) == item.(timeRemaining := item.timeRemaining - k)
    decreases k
  {
    if k > 0 {
      CountdownTicks(Countdown(item), k - 1);
    }
  }

  /**
   * The tick after the clock reaches zero rotates the item: the next id, the
   * opening bid, no bidder and a full clock, whatever the bids were.
   */
  lemma ExpiryRotates(item: AuctionItem)
    requires item.timeRemaining >= 0
    ensures AfterTicks(item, item.timeRemaining + 1) == Rotate(item)
  {
    AfterTicksAdd(item, item.timeRemaining, 1);
    CountdownTicks(item, item.timeRemaining);
  }

  /**
   * Every item after the first lives for RoundSeconds + 1 ticks: RoundSeconds
   * decrements and then the rotating tick.
   */
  lemma RoundLength(item: AuctionItem)
    ensures forall k: nat :: k <= RoundSeconds ==> AfterTicks(Rotate(item), k).id == item.id + 1
    ensures AfterTicks(Rotate(item), RoundSeconds + 1) == Rotate(Rotate(item))
  {
    forall k: nat | k <= RoundSeconds
      ensures AfterTicks(Rotate(item), k).id == item.id + 1
    {
      CountdownTicks(Rotate(item), k);
    }
    ExpiryRotates(Rotate(item));
  }
}
