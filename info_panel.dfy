/**
 * The node-information panel of the route demo (`updateNodeInfo`, app.js):
 * cards, newest first; the oldest card is dropped whenever a push leaves more
 * than five.
 */
module InfoPanel {
  import opened RouteData

  /** Number of cards above which the oldest one is dropped. */
  const MaxCards: nat := 5

  /** A card: the record it describes and the station number printed on it. */
  datatype Card = Card(record: Country, station: int)

  /**
   * Prepend a card, then drop the last child when the panel now holds more
   * than `MaxCards`. One card goes at most, so an over-full panel stays over-full.
   */
  function PushCard(cards: seq<Card>, card: Card): (r: seq<Card>)
    ensures |cards| <= |r| <= |cards| + 1
    ensures |r| > 0 && r[0] == card
    ensures r[1..] == cards[..|r| - 1]
    ensures |r| == |cards| <==> MaxCards <= |cards|
    ensures |cards| <= MaxCards ==> |r| <= MaxCards
  {
    var full := [card] + cards;
    if |full| > MaxCards then full[..|full| - 1] else full
  }

  /** Push several cards, the first of `news` first, so the last of `news` ends up on top. */
  function PushAll(cards: seq<Card>, news: seq<Card>): (r: seq<Card>)
    decreases |news|
  {
    if news == [] then cards else PushAll(PushCard(cards, news[0]), news[1..])
  }

  /** `news`, newest first. */
  function Reversed(news: seq<Card>): (r: seq<Card>)
    ensures |r| == |news|
    ensures forall k :: 0 <= k < |news| ==> r[k] == news[|news| - 1 - k]
  {
    if news == [] then [] else Reversed(news[1..]) + [news[0]]
  }

  /** Cutting the tail short first changes nothing when the overall cut falls within it. */
  lemma TakeOfTakenTail<T>(front: seq<T>, tail: seq<T>, a: nat, b: nat)
    requires a <= |tail| && b <= |front| + a
    ensures (front + tail[..a])[..b] == (front + tail)[..b]
  {
    assert forall k :: 0 <= k < b ==> (front + tail[..a])[k] == (front + tail)[k];
  }

  /**
   * Starting from a panel of at most `MaxCards`, pushing cards one by one
   * leaves exactly the most recent ones, newest first, above what remains of
   * the old panel, and never more than `MaxCards` cards.
   */
  lemma {:induction false} PushAllKeepsNewest(cards: seq<Card>, news: seq<Card>)
    requires |cards| <= MaxCards
    ensures PushAll(cards, news) == (Reversed(news) + cards)[..Min(|news| + |cards|, MaxCards)]
    decreases |news|
  {
    if news == [] {
      assert Reversed(news) + cards == cards;
    } else {
      var once := PushCard(cards, news[0]);
      var a := Min(1 + |cards|, MaxCards);
      assert once == ([news[0]] + cards)[..a];
      PushAllKeepsNewest(once, news[1..]);
      var n := Min(|news| + |cards|, MaxCards);
      assert Min(|news| - 1 + |once|, MaxCards) == n;
      TakeOfTakenTail(Reversed(news[1..]), [news[0]] + cards, a, n);
      assert Reversed(news[1..]) + ([news[0]] + cards) == Reversed(news) + cards;
    }
  }

  /**
   * After pushing `news` onto a panel within its cap, the card at position `k`
   * is the `k`-th most recently pushed one, for every position the new cards fill.
   */
  lemma PushAllNewestAt(cards: seq<Card>, news: seq<Card>, k: nat)
    requires |cards| <= MaxCards && k < |news| && k < MaxCards
    ensures |PushAll(cards, news)| == Min(|news| + |cards|, MaxCards)
    ensures PushAll(cards, news)[k] == news[|news| - 1 - k]
  {
    PushAllKeepsNewest(cards, news);
    assert (Reversed(news) + cards)[k] == Reversed(news)[k];
  }

  function Min(a: int, b: int): int
  {
    if a < b then a else b
  }
}
