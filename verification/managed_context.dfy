/**
 * An abstract managed object context: an in-memory table of cache records
 * (in fetch order), a table of image objects keyed by identity, an
 * allocation counter that hands out fresh identities, and the state that the
 * last successful save committed. Fetch and save take a fault argument that
 * stands for the framework's failure.
 */
module ManagedObjectContext {
  import opened FeedTypes
  import opened ImageRecord

  /**
   * The stored attributes of a managed cache record together with its
   * identity. `timestamp` is None until it is assigned; `feed` lists the
   * identities of its images in order.
   */
  datatype ManagedFeedCache = ManagedFeedCache(ref: ObjectId, timestamp: Option<Date>, feed: seq<ObjectId>)

  /** A cache record just allocated in a context: no timestamp yet and an empty feed. */
  function Blank(ref: ObjectId): (c: ManagedFeedCache)
    ensures c.ref == ref && c.timestamp.None? && |c.feed| == 0
  {
    ManagedFeedCache(ref, None, [])
  }

  /** No two cache records in the table share an identity. */
  predicate UniqueRefs(caches: seq<ManagedFeedCache>)
  {
    forall i, j :: 0 <= i < j < |caches| ==> caches[i].ref != caches[j].ref
  }

  /** The table after the object with identity `ref` is deleted. */
  function Remove(caches: seq<ManagedFeedCache>, ref: ObjectId): (r: seq<ManagedFeedCache>)
    ensures forall c :: c in r <==> c in caches && c.ref != ref
    ensures |r| <= |caches|
    ensures UniqueRefs(caches) ==> UniqueRefs(r)
  {
    if caches == [] then []
    else
      var rest := Remove(caches[1..], ref);
      assert UniqueRefs(caches) ==> UniqueRefs(caches[1..]);
      assert UniqueRefs(caches) ==> forall c :: c in rest ==> c.ref != caches[0].ref;
      if caches[0].ref == ref then rest else [caches[0]] + rest
  }

  /** Deleting an identity that is not in the table changes nothing. */
  lemma {:induction false} RemoveAbsent(caches: seq<ManagedFeedCache>, ref: ObjectId)
    requires forall c :: c in caches ==> c.ref != ref
    ensures Remove(caches, ref) == caches
  {
    if caches != [] {
      RemoveAbsent(caches[1..], ref);
      assert [caches[0]] + caches[1..] == caches;
    }
  }

  /** With unique identities, deleting the first record's identity removes exactly that record. */
  lemma RemoveFirst(caches: seq<ManagedFeedCache>)
    requires UniqueRefs(caches) && caches != []
    ensures Remove(caches, caches[0].ref) == caches[1..]
  {
    forall c | c in caches[1..] ensures c.ref != caches[0].ref {
      var k :| 0 <= k < |caches[1..]| && caches[1..][k] == c;
      assert caches[k + 1] == c;
    }
    RemoveAbsent(caches[1..], caches[0].ref);
  }

  /** The table after the record with identity `ref` gets a timestamp. */
  function WithTimestamp(caches: seq<ManagedFeedCache>, ref: ObjectId, timestamp: Date): (r: seq<ManagedFeedCache>)
    ensures |r| == |caches|
    ensures forall i :: 0 <= i < |r| ==> r[i].ref == caches[i].ref && r[i].feed == caches[i].feed
    ensures forall i :: 0 <= i < |r| && caches[i].ref == ref ==> r[i].timestamp == Some(timestamp)
    ensures forall i :: 0 <= i < |r| && caches[i].ref != ref ==> r[i] == caches[i]
    ensures UniqueRefs(caches) ==> UniqueRefs(r)
  {
    seq(|caches|, i requires 0 <= i < |caches| =>
      if caches[i].ref == ref then caches[i].(timestamp := Some(timestamp)) else caches[i])
  }

  /** The table after the record with identity `ref` gets a feed. */
  function WithFeed(caches: seq<ManagedFeedCache>, ref: ObjectId, feed: seq<ObjectId>): (r: seq<ManagedFeedCache>)
    ensures |r| == |caches|
    ensures forall i :: 0 <= i < |r| ==> r[i].ref == caches[i].ref && r[i].timestamp == caches[i].timestamp
    ensures forall i :: 0 <= i < |r| && caches[i].ref == ref ==> r[i].feed == feed
    ensures forall i :: 0 <= i < |r| && caches[i].ref != ref ==> r[i] == caches[i]
    ensures UniqueRefs(caches) ==> UniqueRefs(r)
  {
    seq(|caches|, i requires 0 <= i < |caches| =>
      if caches[i].ref == ref then caches[i].(feed := feed) else caches[i])
  }

  /** Setting the timestamp of the last record, whose identity is unique, touches only that record. */
  lemma WithTimestampOfLast(caches: seq<ManagedFeedCache>, c: ManagedFeedCache, timestamp: Date)
    requires UniqueRefs(caches + [c])
    ensures WithTimestamp(caches + [c], c.ref, timestamp) == caches + [c.(timestamp := Some(timestamp))]
  {
    forall i | 0 <= i < |caches| ensures caches[i].ref != c.ref {
      assert (caches + [c])[i] == caches[i] && (caches + [c])[|caches|] == c;
    }
  }

  /** Setting the feed of the last record, whose identity is unique, touches only that record. */
  lemma WithFeedOfLast(caches: seq<ManagedFeedCache>, c: ManagedFeedCache, feed: seq<ObjectId>)
    requires UniqueRefs(caches + [c])
    ensures WithFeed(caches + [c], c.ref, feed) == caches + [c.(feed := feed)]
  {
    forall i | 0 <= i < |caches| ensures caches[i].ref != c.ref {
      assert (caches + [c])[i] == caches[i] && (caches + [c])[|caches|] == c;
    }
  }

  class Context {
    /** The cache records the context holds, pending changes included, in fetch order. */
    var caches: seq<ManagedFeedCache>
    /** The image objects the context holds, by identity. */
    var images: map<ObjectId, ManagedFeedImage>
    /** The next identity to hand out; identities are never reused. */
    var nextRef: ObjectId
    /** The state committed by the last successful save. */
    var savedCaches: seq<ManagedFeedCache>
    var savedImages: map<ObjectId, ManagedFeedImage>

    /**
     * Identities are unique among cache records, every identity in use was
     * handed out already, and every feed element names an image object of
     * this context.
     */
    ghost predicate Valid()
      reads this
    {
      && UniqueRefs(caches)
      && (forall c :: c in caches ==> c.ref < nextRef)
      && (forall c, k :: c in caches && k in c.feed ==> k in images)
      && (forall k :: k in images ==> k < nextRef)
    }

    constructor ()
      ensures Valid()
      ensures caches == [] && images == map[] && savedCaches == [] && savedImages == map[]
    {
      caches, images, nextRef := [], map[], 0;
      savedCaches, savedImages := [], map[];
    }

    /** `fetch`: all cache records in table order, or the thrown error. */
    method Fetch(fault: Option<Error>) returns (r: Result<seq<ManagedFeedCache>>)
      ensures r == if fault.Some? then Failure(fault.value) else Success(caches)
    {
      if fault.Some? {
        r := Failure(fault.value);
      } else {
        r := Success(caches);
      }
    }

    /** `delete`: the record with identity `ref` leaves the table; image objects stay. */
    method Delete(ref: ObjectId)
      requires Valid()
      modifies this`caches
      ensures Valid()
      ensures caches == Remove(old(caches), ref)
    {
      caches := Remove(caches, ref);
    }

    /** `ManagedFeedCache(context:)`: a blank cache record with a fresh identity joins the table. */
    method InsertCache() returns (ref: ObjectId)
      requires Valid()
      modifies this`caches, this`nextRef
      ensures Valid()
      ensures ref == old(nextRef) && nextRef == old(nextRef) + 1
      ensures caches == old(caches) + [Blank(ref)]
    {
      ref := nextRef;
      caches := caches + [Blank(ref)];
      nextRef := nextRef + 1;
    }

    /** `ManagedFeedImage(context:)` followed by its field assignments: a filled image with a fresh identity. */
    method InsertImage(image: ManagedFeedImage) returns (ref: ObjectId)
      requires Valid()
      modifies this`images, this`nextRef
      ensures Valid()
      ensures ref == old(nextRef) && nextRef == old(nextRef) + 1
      ensures ref !in old(images) && images == old(images)[ref := image]
    {
      ref := nextRef;
      images := images[ref := image];
      nextRef := nextRef + 1;
    }

    /** Assigns `timestamp` on the record with identity `ref`. */
    method SetTimestamp(ref: ObjectId, timestamp: Date)
      requires Valid()
      modifies this`caches
      ensures Valid()
      ensures caches == WithTimestamp(old(caches), ref, timestamp)
    {
      caches := WithTimestamp(caches, ref, timestamp);
      assert forall c :: c in caches ==> exists i :: 0 <= i < |old(caches)| && (c == old(caches)[i] || c == old(caches)[i].(timestamp := Some(timestamp)));
    }

    /** Assigns `feed` on the record with identity `ref`; the feed names objects of this context. */
    method SetFeed(ref: ObjectId, feed: seq<ObjectId>)
      requires Valid()
      requires forall k :: k in feed ==> k in images
      modifies this`caches
      ensures Valid()
      ensures caches == WithFeed(old(caches), ref, feed)
    {
      caches := WithFeed(caches, ref, feed);
      assert forall c :: c in caches ==> exists i :: 0 <= i < |old(caches)| && (c == old(caches)[i] || c == old(caches)[i].(feed := feed));
    }

    /**
     * `save`: commits every pending change, or throws. A failed save rolls
     * nothing back: the pending changes stay in the context.
     */
    method Save(fault: Option<Error>) returns (err: Option<Error>)
      requires Valid()
      modifies this`savedCaches, this`savedImages
      ensures Valid()
      ensures err == fault
      ensures fault.None? ==> savedCaches == caches && savedImages == images
      ensures fault.Some? ==> savedCaches == old(savedCaches) && savedImages == old(savedImages)
    {
      err := fault;
      if fault.None? {
        savedCaches, savedImages := caches, images;
      }
    }
  }
}
