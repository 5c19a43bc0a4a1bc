/** The home screen's vertical video feed: a fixed list of items, the index of the one on
    screen, and a flag that swallows wheel events until a timer clears it. The timer is not
    modelled; `ThrottleExpired` is the moment it fires. */
module HomeFeed {
  import opened Wrappers

  datatype FeedItem = FeedItem(id: nat, video: string, creator: string, title: string, likes: nat)

  const FeedItems: seq<FeedItem> := [
    FeedItem(1, "/a1.mp4", "cryptoartist", "Pixel Legends Collection", 234),
    FeedItem(2, "/a2.mp4", "nftcollector", "Morning vibes", 189),
    FeedItem(3, "/a3.mp4", "web3builder", "New drop coming soon", 512),
    FeedItem(4, "/a4.mp4", "degenape", "Just minted this", 87),
    FeedItem(5, "/a5.mp4", "pixelmaster", "Animated my PFP", 341),
    FeedItem(6, "/a6.mp4", "artlover", "Experimenting with Veo", 156)
  ]

  /** `Math.max(0, i - 1)`: the wheel turned down shows the previous item. */
  function Previous(i: int): int {
    if i - 1 < 0 then 0 else i - 1
  }

  /** `Math.min(feedItems.length - 1, i + 1)`: the wheel turned up shows the next item. */
  function Following(i: int): int {
    if |FeedItems| - 1 < i + 1 then |FeedItems| - 1 else i + 1
  }

  /** Both moves keep an on-screen index on screen, and each moves by at most one. */
  lemma MovesStayInFeed(i: int)
    requires 0 <= i < |FeedItems|
    ensures 0 <= Previous(i) < |FeedItems| && 0 <= Following(i) < |FeedItems|
    ensures Previous(i) <= i <= Following(i) && i - Previous(i) <= 1 && Following(i) - i <= 1
  {
  }

  class Feed {
    var currentIndex: int
    var isScrolling: bool

    /** The index always names an item of the feed. */
    ghost predicate Valid()
      reads this
    {
      0 <= currentIndex < |FeedItems|
    }

    constructor ()
      ensures currentIndex == 0 && !isScrolling && Valid()
    {
      currentIndex := 0;
      isScrolling := false;
    }

    /** `feedItems[currentIndex]` */
    function CurrentItem(): (item: FeedItem)
      requires Valid()
      reads this
      ensures item in FeedItems
    {
      FeedItems[currentIndex]
    }

    /** `feedItems[currentIndex + 1]`, which is `undefined` exactly on the last item. */
    function NextItem(): (item: Option<FeedItem>)
      requires Valid()
      reads this
      ensures item.None? <==> currentIndex == |FeedItems| - 1
      ensures item.Some? ==> item.value == FeedItems[currentIndex + 1]
    {
      if currentIndex + 1 < |FeedItems| then Some(FeedItems[currentIndex + 1]) else None
    }

    /** While the flag is up a wheel event changes nothing. Otherwise the flag goes up (also
        for a zero delta), a positive delta moves to the previous item and a negative one to
        the next. */
    method HandleWheel(deltaY: int)
      requires Valid()
      modifies this
      ensures Valid()
      ensures old(isScrolling) ==> currentIndex == old(currentIndex) && isScrolling
      ensures !old(isScrolling) ==> isScrolling
      ensures !old(isScrolling) && deltaY > 0 ==> currentIndex == Previous(old(currentIndex))
      ensures !old(isScrolling) && deltaY < 0 ==> currentIndex == Following(old(currentIndex))
      ensures deltaY == 0 ==> currentIndex == old(currentIndex)
    {
      if isScrolling {
        return;
      }
      isScrolling := true;
      if deltaY > 0 {
        currentIndex := Previous(currentIndex);
      } else if deltaY < 0 {
        currentIndex := Following(currentIndex);
      }
    }

    /** Clicking indicator dot i (one dot per feed item) shows item i; the throttle flag is
        not consulted. */
    method SelectDot(i: nat)
      requires Valid() && i < |FeedItems|
      modifies this
      ensures Valid() && currentIndex == i && isScrolling == old(isScrolling)
      ensures CurrentItem() == FeedItems[i]
    {
      currentIndex := i;
    }

    /** The throttle timer firing lowers the flag and leaves the index alone. */
    method ThrottleExpired()
      requires Valid()
      modifies this
      ensures Valid()
      ensures !isScrolling && currentIndex == old(currentIndex)
    {
      isScrolling := false;
    }
  }

  /** Two wheel events with no timer in between move at most one item. */
  method WheelTwice(feed: Feed, first: int, second: int)
    requires feed.Valid()
    modifies feed
    ensures feed.Valid() && feed.isScrolling
    ensures -1 <= feed.currentIndex - old(feed.currentIndex) <= 1
  {
    feed.HandleWheel(first);
    MovesStayInFeed(old(feed.currentIndex));
    feed.HandleWheel(second);
  }
}
