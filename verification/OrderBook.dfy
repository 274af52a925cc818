/** Token order books, as their constructor accepts them. */
module OrderBook {
  import opened Model
  import opened DepthWalk

  /** Sizes are in micro-shares. */
  datatype Book = Book(
    bids: seq<Level>, asks: seq<Level>, minimumOrderSize: real, observedAt: Timestamp)
  {
    predicate Valid() {
      && bids != [] && asks != [] && 0.0 < minimumOrderSize
      && Ascending(asks) && Ascending(Negated(bids))
      && (forall i :: 0 <= i < |asks| ==> 0.0 < asks[i].price < 1.0)
      && (forall i :: 0 <= i < |bids| ==> 0.0 < bids[i].price < 1.0)
      && bids[0].price < asks[0].price
    }
  }

  /** Bids from highest to lowest, seen as levels with ascending negated prices. */
  function Negated(bids: seq<Level>): (levels: seq<Level>)
    ensures |levels| == |bids|
    ensures forall i :: 0 <= i < |bids| ==> levels[i] == Level(-bids[i].price, bids[i].size)
  {
    seq(|bids|, i requires 0 <= i < |bids| => Level(-bids[i].price, bids[i].size))
  }
}
