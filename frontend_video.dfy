/**
 * The camera feeds of the `frontend` console
 * (`frontend/src/app/services/video.service.ts`): a subject holds the feed
 * list; the primary feed and the secondary feeds are derived from it, and
 * `setPrimaryFeed` replaces the list with one where only the chosen id is
 * primary.
 */
module FrontendVideo {
  import opened Common
  import opened TelemetryModel

  /** The three feeds the subject starts with; no id occurs twice. */
  function InitialFeeds(): (r: seq<CameraFeed>)
    ensures |r| == 3
    ensures forall i, j :: 0 <= i < j < |r| ==> r[i].id != r[j].id
  {
    [ CameraFeed("front", "Front Cam", "assets/video/front-feed.mp4", Some(true)),
      CameraFeed("rear", "Rear Cam", "assets/video/rear-feed.mp4", None),
      CameraFeed("side", "Side Cam", "assets/video/side-feed.mp4", None) ]
  }

  /** How many feeds are primary. */
  function PrimaryCount(feeds: seq<CameraFeed>): (n: nat)
    ensures n <= |feeds|
  {
    if feeds == [] then 0 else (if IsPrimary(feeds[0]) then 1 else 0) + PrimaryCount(feeds[1..])
  }

  /** Initially exactly one feed, `front`, is primary. */
  lemma InitialFeedsHaveOnePrimary()
    ensures PrimaryCount(InitialFeeds()) == 1
    ensures IsPrimary(InitialFeeds()[0]) && InitialFeeds()[0].id == "front"
  {
    var feeds := InitialFeeds();
    assert feeds[1..][1..][1..] == [];
  }

  /** The list `setPrimaryFeed` publishes: every feed kept in place, primary exactly when its id matches. */
  function WithPrimary(feeds: seq<CameraFeed>, feedId: string): (r: seq<CameraFeed>)
    ensures |r| == |feeds|
    ensures forall i :: 0 <= i < |feeds| ==>
      r[i].id == feeds[i].id && r[i].labelText == feeds[i].labelText && r[i].streamUrl == feeds[i].streamUrl
    ensures forall i :: 0 <= i < |feeds| ==> (IsPrimary(r[i]) <==> feeds[i].id == feedId)
  {
    seq(|feeds|, i requires 0 <= i < |feeds| => feeds[i].(isPrimary := Some(feeds[i].id == feedId)))
  }

  /** How many feeds carry the id. */
  function IdCount(feeds: seq<CameraFeed>, id: string): nat
  {
    if feeds == [] then 0 else (if feeds[0].id == id then 1 else 0) + IdCount(feeds[1..], id)
  }

  /** After `setPrimaryFeed`, the number of primary feeds is the number of feeds with the id: one for an id present once, none for an absent id. */
  lemma {:induction false} WithPrimaryCount(feeds: seq<CameraFeed>, feedId: string)
    ensures PrimaryCount(WithPrimary(feeds, feedId)) == IdCount(feeds, feedId)
    decreases |feeds|
  {
    if feeds != [] {
      WithPrimaryCount(feeds[1..], feedId);
      assert WithPrimary(feeds, feedId)[1..] == WithPrimary(feeds[1..], feedId);
    }
  }

  /** `primaryFeed$`: the first primary feed, or the first feed when none is primary (nothing for an empty list). */
  function PrimaryFeed(feeds: seq<CameraFeed>): (r: Option<CameraFeed>)
    ensures feeds == [] ==> r.None?
    ensures r.Some? ==> r.value in feeds
    ensures PrimaryCount(feeds) > 0 ==> r.Some? && IsPrimary(r.value)
    ensures PrimaryCount(feeds) > 0 ==>
      exists i :: 0 <= i < |feeds| && feeds[i] == r.value && IsPrimary(feeds[i]) && forall j :: 0 <= j < i ==> !IsPrimary(feeds[j])
    ensures PrimaryCount(feeds) == 0 && feeds != [] ==> r == Some(feeds[0])
  {
    match FirstPrimary(feeds)
    case Some(feed) => Some(feed)
    case None => if feeds == [] then None else Some(feeds[0])
  }

  /** `feeds.find(feed => feed.isPrimary)`. */
  function FirstPrimary(feeds: seq<CameraFeed>): (r: Option<CameraFeed>)
    ensures r.Some? <==> PrimaryCount(feeds) > 0
    ensures r.Some? ==> r.value in feeds && IsPrimary(r.value)
    ensures r.Some? ==>
      exists i :: 0 <= i < |feeds| && feeds[i] == r.value && IsPrimary(feeds[i]) && forall j :: 0 <= j < i ==> !IsPrimary(feeds[j])
    ensures r.None? ==> forall i :: 0 <= i < |feeds| ==> !IsPrimary(feeds[i])
  {
    if feeds == [] then None
    else if IsPrimary(feeds[0]) then Some(feeds[0])
    else FirstPrimary(feeds[1..])
  }

  /** `secondaryFeeds$`: the feeds that are not primary, in their original order. */
  function SecondaryFeeds(feeds: seq<CameraFeed>): (r: seq<CameraFeed>)
    ensures forall f :: f in r <==> f in feeds && !IsPrimary(f)
    ensures |r| + PrimaryCount(feeds) == |feeds|
    ensures PrimaryCount(feeds) == 0 ==> r == feeds
  {
    if feeds == [] then []
    else if IsPrimary(feeds[0]) then SecondaryFeeds(feeds[1..])
    else [feeds[0]] + SecondaryFeeds(feeds[1..])
  }

  /**
   * `filter` works piece by piece: the secondary feeds of a concatenation are
   * those of each part, in order. With `SecondaryFeedsOne` this fixes the
   * result, order included.
   */
  lemma {:induction false} SecondaryFeedsSplit(a: seq<CameraFeed>, b: seq<CameraFeed>)
    ensures SecondaryFeeds(a + b) == SecondaryFeeds(a) + SecondaryFeeds(b)
    decreases |a|
  {
    if a == [] {
      assert a + b == b;
    } else {
      var ab := a + b;
      assert ab[0] == a[0] && ab[1..] == a[1..] + b;
      SecondaryFeedsSplit(a[1..], b);
      var rest, tail := SecondaryFeeds(a[1..]), SecondaryFeeds(b);
      if !IsPrimary(a[0]) {
        assert [a[0]] + (rest + tail) == ([a[0]] + rest) + tail;
      }
    }
  }

  /** A single feed is secondary exactly when it is not primary. */
  lemma SecondaryFeedsOne(f: CameraFeed)
    ensures SecondaryFeeds([f]) == if IsPrimary(f) then [] else [f]
  {
    assert [f][1..] == [];
  }

  /** With exactly one primary feed, at index p, the secondary feeds are the list without it, in order. */
  lemma SecondaryFeedsDropThePrimary(feeds: seq<CameraFeed>, p: nat)
    requires PrimaryCount(feeds) == 1 && p < |feeds| && IsPrimary(feeds[p])
    ensures SecondaryFeeds(feeds) == feeds[..p] + feeds[p + 1..]
  {
    OnePrimaryIsTheOnly(feeds, feeds[p]);
    assert feeds == feeds[..p] + ([feeds[p]] + feeds[p + 1..]);
    SecondaryFeedsSplit(feeds[..p], [feeds[p]] + feeds[p + 1..]);
    SecondaryFeedsSplit([feeds[p]], feeds[p + 1..]);
    SecondaryFeedsOne(feeds[p]);
    NoPrimaryOutside(feeds, p);
  }

  /** The only primary feed's neighbours on both sides hold no primary feed. */
  lemma NoPrimaryOutside(feeds: seq<CameraFeed>, p: nat)
    requires PrimaryCount(feeds) == 1 && p < |feeds| && IsPrimary(feeds[p])
    ensures PrimaryCount(feeds[..p]) == 0 && PrimaryCount(feeds[p + 1..]) == 0
  {
    PrimaryCountSplit(feeds[..p], [feeds[p]] + feeds[p + 1..]);
    PrimaryCountSplit([feeds[p]], feeds[p + 1..]);
    assert feeds[..p] + ([feeds[p]] + feeds[p + 1..]) == feeds;
    assert [feeds[p]][1..] == [];
  }

  lemma {:induction false} PrimaryCountSplit(a: seq<CameraFeed>, b: seq<CameraFeed>)
    ensures PrimaryCount(a + b) == PrimaryCount(a) + PrimaryCount(b)
    decreases |a|
  {
    if a != [] {
      assert (a + b)[1..] == a[1..] + b;
      PrimaryCountSplit(a[1..], b);
    } else {
      assert a + b == b;
    }
  }

  /**
   * With exactly one primary feed, the primary feed and the secondary feeds
   * split the list: the primary is not secondary and every other feed is.
   */
  lemma PrimaryAndSecondaryPartition(feeds: seq<CameraFeed>)
    requires PrimaryCount(feeds) == 1
    ensures PrimaryFeed(feeds).Some?
    ensures PrimaryFeed(feeds).value !in SecondaryFeeds(feeds)
    ensures |SecondaryFeeds(feeds)| + 1 == |feeds|
    ensures forall f :: f in feeds ==> f == PrimaryFeed(feeds).value || f in SecondaryFeeds(feeds)
  {
    OnePrimaryIsTheOnly(feeds, PrimaryFeed(feeds).value);
  }

  /** With exactly one primary feed, every primary feed of the list is the same value. */
  lemma {:induction false} OnePrimaryIsTheOnly(feeds: seq<CameraFeed>, p: CameraFeed)
    requires PrimaryCount(feeds) == 1 && p in feeds && IsPrimary(p)
    ensures forall f :: f in feeds && IsPrimary(f) ==> f == p
    decreases |feeds|
  {
    if IsPrimary(feeds[0]) {
      assert PrimaryCount(feeds[1..]) == 0;
      NoPrimaryInTail(feeds[1..]);
    } else {
      OnePrimaryIsTheOnly(feeds[1..], p);
    }
  }

  lemma {:induction false} NoPrimaryInTail(feeds: seq<CameraFeed>)
    requires PrimaryCount(feeds) == 0
    ensures forall f :: f in feeds ==> !IsPrimary(f)
    decreases |feeds|
  {
    if feeds != [] {
      NoPrimaryInTail(feeds[1..]);
    }
  }

  class VideoService {
    /** The list the subject holds. */
    var feeds: seq<CameraFeed>

    constructor ()
      ensures feeds == InitialFeeds()
    {
      feeds := InitialFeeds();
    }

    method SetPrimaryFeed(feedId: string)
      modifies this
      ensures feeds == WithPrimary(old(feeds), feedId)
      ensures PrimaryCount(feeds) == IdCount(old(feeds), feedId)
    {
      WithPrimaryCount(feeds, feedId);
      feeds := WithPrimary(feeds, feedId);
    }
  }
}
