/**
 * The camera-feed list of the `src/main` console
 * (`src/main/frontend/src/app/services/video.service.ts`, with the feed shape
 * of `src/main/frontend/src/app/components/camera/camera.component.ts`). The
 * service holds the list in a subject and replaces it on every change.
 */
module MainVideo {
  import opened Common

  /** `CameraFeed`: the two optional properties are `None` when the object does not have them. */
  datatype CameraFeed = CameraFeed(id: string, name: string, streamUrl: Option<string>, placeholder: Option<string>)

  /** No id occurs twice. */
  predicate DistinctIds(feeds: seq<CameraFeed>)
  {
    forall i, j :: 0 <= i < j < |feeds| ==> feeds[i].id != feeds[j].id
  }

  predicate HasId(feeds: seq<CameraFeed>, id: string)
  {
    exists i :: 0 <= i < |feeds| && feeds[i].id == id
  }

  function InitialFeeds(): (r: seq<CameraFeed>)
    ensures |r| == 3 && DistinctIds(r)
  {
    [ CameraFeed("front", "Frontkamera", None, Some("Front Cam")),
      CameraFeed("rear", "Rückkamera", None, Some("Rear Cam")),
      CameraFeed("thermal", "Thermal", None, Some("Thermal")) ]
  }

  /** `registerFeed`: the feed is appended unless a feed with its id exists. */
  function Registered(feeds: seq<CameraFeed>, feed: CameraFeed): (r: seq<CameraFeed>)
    ensures feeds <= r && |r| <= |feeds| + 1
  {
    if HasId(feeds, feed.id) then feeds else feeds + [feed]
  }

  /** Registering keeps ids distinct, always leaves the id present and is idempotent. */
  lemma RegisteredKeepsIdsDistinct(feeds: seq<CameraFeed>, feed: CameraFeed)
    requires DistinctIds(feeds)
    ensures DistinctIds(Registered(feeds, feed))
    ensures HasId(Registered(feeds, feed), feed.id)
    ensures Registered(Registered(feeds, feed), feed) == Registered(feeds, feed)
    ensures HasId(feeds, feed.id) <==> Registered(feeds, feed) == feeds
  {
    var r := Registered(feeds, feed);
    if !HasId(feeds, feed.id) {
      assert r[|feeds|] == feed;
      assert r[..|feeds|] == feeds;
    }
  }

  /** The object spread `{ ...existing, ...feed }`: every property `feed` has wins. */
  function Merge(existing: CameraFeed, feed: CameraFeed): (r: CameraFeed)
    ensures r.id == feed.id && r.name == feed.name
    ensures r.streamUrl == (if feed.streamUrl.Some? then feed.streamUrl else existing.streamUrl)
    ensures r.placeholder == (if feed.placeholder.Some? then feed.placeholder else existing.placeholder)
  {
    CameraFeed(
      feed.id,
      feed.name,
      if feed.streamUrl.Some? then feed.streamUrl else existing.streamUrl,
      if feed.placeholder.Some? then feed.placeholder else existing.placeholder)
  }

  /** `updateFeed`: every entry with the feed's id is merged with it, the rest stay as they were. */
  function Updated(feeds: seq<CameraFeed>, feed: CameraFeed): (r: seq<CameraFeed>)
    ensures |r| == |feeds|
    ensures forall i :: 0 <= i < |feeds| ==>
      r[i] == (if feeds[i].id == feed.id then Merge(feeds[i], feed) else feeds[i])
  {
    seq(|feeds|, i requires 0 <= i < |feeds| =>
      if feeds[i].id == feed.id then Merge(feeds[i], feed) else feeds[i])
  }

  /** Updating keeps the ids in place, changes nothing for an unknown id, and is idempotent. */
  lemma {:induction false} UpdatedProperties(feeds: seq<CameraFeed>, feed: CameraFeed)
    ensures forall i :: 0 <= i < |feeds| ==> Updated(feeds, feed)[i].id == feeds[i].id
    ensures !HasId(feeds, feed.id) ==> Updated(feeds, feed) == feeds
    ensures Updated(Updated(feeds, feed), feed) == Updated(feeds, feed)
    ensures DistinctIds(feeds) ==> DistinctIds(Updated(feeds, feed))
  {
    var once := Updated(feeds, feed);
    var twice := Updated(once, feed);
    forall i | 0 <= i < |feeds|
      ensures twice[i] == once[i]
    {
      if feeds[i].id == feed.id {
        assert Merge(Merge(feeds[i], feed), feed) == Merge(feeds[i], feed);
      }
    }
  }

  class VideoService {
    /** The list the subject holds; the `currentFeeds` getter returns it. */
    var feeds: seq<CameraFeed>
    /** How many lists the subject has emitted. */
    var emissions: nat

    constructor ()
      ensures feeds == InitialFeeds() && emissions == 1
    {
      feeds := InitialFeeds();
      emissions := 1;
    }

    method RegisterFeed(feed: CameraFeed)
      modifies this
      ensures feeds == Registered(old(feeds), feed)
      ensures emissions == old(emissions) + (if HasId(old(feeds), feed.id) then 0 else 1)
    {
      if HasId(feeds, feed.id) {
        return;
      }
      feeds := feeds + [feed];
      emissions := emissions + 1;
    }

    method UpdateFeed(feed: CameraFeed)
      modifies this
      ensures feeds == Updated(old(feeds), feed)
      ensures emissions == old(emissions) + 1
    {
      feeds := Updated(feeds, feed);
      emissions := emissions + 1;
    }
  }
}
