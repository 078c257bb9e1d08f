/**
 * The repository helpers of `ManagedFeedCache`: look up the single cache
 * record, delete it, allocate a fresh one, fill it from domain images, and
 * project it back to domain images. Each helper runs against a `Context`
 * and, where the source can throw, takes the fetch's fault as an argument.
 */
module FeedCache {
  import opened FeedTypes
  import opened ImageRecord
  import opened OrderedSets
  import opened ManagedObjectContext

  /** `fetch(request).first`: sequence order stands for the unsorted fetch order. */
  function First(caches: seq<ManagedFeedCache>): (r: Option<ManagedFeedCache>)
    ensures r.None? <==> caches == []
    ensures r.Some? ==> r.value in caches && r.value == caches[0]
  {
    if caches == [] then None else Some(caches[0])
  }

  /** The table after `find` followed by deletion of the record it found, if any. */
  function AfterDeleteAll(caches: seq<ManagedFeedCache>): (r: seq<ManagedFeedCache>)
    ensures caches == [] ==> r == []
    ensures caches != [] ==> forall c :: c in r <==> c in caches && c.ref != caches[0].ref
    ensures UniqueRefs(caches) && caches != [] ==> r == caches[1..]
    ensures UniqueRefs(caches) ==> UniqueRefs(r)
  {
    match First(caches)
    case None => caches
    case Some(found) =>
      var r := Remove(caches, found.ref);
      assert UniqueRefs(caches) ==> r == caches[1..] by {
        if UniqueRefs(caches) {
          RemoveFirst(caches);
        }
      }
      r
  }

  /**
   * The table after `getUniqueInstance` and, for `create`, the assignments
   * that follow it: the found record goes, `record` (which carries the fresh
   * identity) joins at the end.
   */
  function ReplacedTable(caches: seq<ManagedFeedCache>, record: ManagedFeedCache): (r: seq<ManagedFeedCache>)
    ensures |r| >= 1 && r[|r| - 1] == record
    ensures caches == [] ==> r == [record]
    ensures UniqueRefs(caches) && caches != [] ==> |r| == |caches|
    ensures UniqueRefs(caches) && |caches| <= 1 ==> r == [record]
    ensures UniqueRefs(caches) && (forall c :: c in caches ==> c.ref != record.ref) ==> UniqueRefs(r)
  {
    var kept := AfterDeleteAll(caches);
    assert UniqueRefs(caches) && (forall c :: c in caches ==> c.ref != record.ref) ==> UniqueRefs(kept + [record]) by {
      if UniqueRefs(caches) && (forall c :: c in caches ==> c.ref != record.ref) {
        forall i, j | 0 <= i < j < |kept + [record]| ensures (kept + [record])[i].ref != (kept + [record])[j].ref {
          if j == |kept| {
            assert kept[i] in kept;
          }
        }
      }
    }
    kept + [record]
  }

  /** Repeated `create` starting from at most one record always leaves exactly the last record created. */
  lemma {:induction false} ReplacedTwiceHoldsLast(caches: seq<ManagedFeedCache>, first: ManagedFeedCache, second: ManagedFeedCache)
    requires UniqueRefs(caches) && |caches| <= 1
    ensures ReplacedTable(ReplacedTable(caches, first), second) == [second]
  {
    var once := ReplacedTable(caches, first);
    assert once == [first];
    assert UniqueRefs(once);
  }

  /** `ManagedFeedCache.map` filled `refs` from `feed`: one image per input, fields copied, in order. */
  ghost predicate Mapped(feed: seq<LocalFeedImage>, refs: seq<ObjectId>, images: map<ObjectId, ManagedFeedImage>)
  {
    |refs| == |feed| && forall i :: 0 <= i < |refs| ==> refs[i] in images && images[refs[i]] == FromLocal(feed[i])
  }

  /** `after` keeps every image object of `before` as it was and adds none outside `added`. */
  ghost predicate AddsOnly(before: map<ObjectId, ManagedFeedImage>, after: map<ObjectId, ManagedFeedImage>, added: seq<ObjectId>)
  {
    && (forall k :: k in before ==> k in after && after[k] == before[k])
    && (forall k :: k in after ==> k in before || k in added)
  }

  /** `n` consecutive identities starting at `start`, as the allocation counter hands them out. */
  function Consecutive(start: ObjectId, n: nat): (r: seq<ObjectId>)
    ensures |r| == n
    ensures Distinct(r)
    ensures forall k :: k in r ==> start <= k < start + n
  {
    seq(n, i requires 0 <= i < n => start + i)
  }

  /**
   * `local` of a cache record: a `compactMap` over its feed that keeps the
   * projection of every element naming an image object of the context and
   * drops the others.
   */
  function LocalFeed(feed: seq<ObjectId>, images: map<ObjectId, ManagedFeedImage>): (r: seq<LocalFeedImage>)
    ensures |r| <= |feed|
    ensures (forall k :: k in feed ==> k in images) ==> |r| == |feed|
  {
    if feed == [] then []
    else (if feed[0] in images then [Local(images[feed[0]])] else []) + LocalFeed(feed[1..], images)
  }

  /** Round trip: the projection of a mapped feed is the feed it was filled from. */
  lemma {:induction false} LocalFeedOfMapped(feed: seq<LocalFeedImage>, refs: seq<ObjectId>, images: map<ObjectId, ManagedFeedImage>)
    requires Mapped(feed, refs, images)
    ensures LocalFeed(refs, images) == feed
  {
    if refs != [] {
      assert Mapped(feed[1..], refs[1..], images) by {
        forall i | 0 <= i < |refs[1..]| ensures refs[1..][i] in images && images[refs[1..][i]] == FromLocal(feed[1..][i]) {
          assert refs[1..][i] == refs[i + 1] && feed[1..][i] == feed[i + 1];
        }
      }
      LocalFeedOfMapped(feed[1..], refs[1..], images);
      LocalOfFromLocal(feed[0]);
      assert [feed[0]] + feed[1..] == feed;
    }
  }

  /** In a valid context `local` drops nothing: every record projects to as many images as its feed lists. */
  lemma LocalOfValidContext(context: Context)
    requires context.Valid()
    ensures forall c :: c in context.caches ==> |LocalFeed(c.feed, context.images)| == |c.feed|
  {
    forall c | c in context.caches ensures |LocalFeed(c.feed, context.images)| == |c.feed| {
      assert forall k :: k in c.feed ==> k in context.images;
    }
  }

  /** `find`: the first cache record of the table, none exactly when there is none, or the fetch's error. */
  method Find(context: Context, fault: Option<Error>) returns (r: Result<Option<ManagedFeedCache>>)
    ensures fault.Some? ==> r == Failure(fault.value)
    ensures fault.None? ==> r.Success?
    ensures fault.None? ==> (r.value.None? <==> context.caches == [])
    ensures fault.None? && r.value.Some? ==> r.value.value in context.caches && r.value.value == context.caches[0]
  {
    var fetched := context.Fetch(fault);
    if fetched.Failure? {
      return Failure(fetched.error);
    }
    return Success(First(fetched.value));
  }

  /** `getUniqueInstance`: deletes the record `find` returns, if any, then allocates a blank one. */
  method GetUniqueInstance(context: Context, fault: Option<Error>) returns (r: Result<ObjectId>)
    requires context.Valid()
    modifies context`caches, context`nextRef
    ensures context.Valid()
    ensures fault.Some? ==> r == Failure(fault.value)
    ensures fault.Some? ==> context.caches == old(context.caches) && context.nextRef == old(context.nextRef)
    ensures fault.None? ==> r == Success(old(context.nextRef)) && context.nextRef == old(context.nextRef) + 1
    ensures fault.None? ==> context.caches == ReplacedTable(old(context.caches), Blank(old(context.nextRef)))
  {
    var found := Find(context, fault);
    if found.Failure? {
      return Failure(found.error);
    }
    if found.value.Some? {
      context.Delete(found.value.value.ref);
    }
    var ref := context.InsertCache();
    return Success(ref);
  }

  /** `deleteAll`: deletes the record `find` returns, if any; despite the name, only that one. */
  method DeleteAll(context: Context, fault: Option<Error>) returns (err: Option<Error>)
    requires context.Valid()
    modifies context`caches
    ensures context.Valid()
    ensures err == fault
    ensures fault.Some? ==> context.caches == old(context.caches)
    ensures fault.None? ==> context.caches == AfterDeleteAll(old(context.caches))
  {
    var found := Find(context, fault);
    if found.Failure? {
      return Some(found.error);
    }
    if found.value.Some? {
      context.Delete(found.value.value.ref);
    }
    return None;
  }

  /**
   * `map`: allocates one filled image object per domain image, in order, and
   * wraps them in an ordered set, which keeps them all since every one is new.
   */
  method Map(feed: seq<LocalFeedImage>, context: Context) returns (ordered: seq<ObjectId>)
    requires context.Valid()
    modifies context`images, context`nextRef
    ensures context.Valid()
    ensures context.nextRef == old(context.nextRef) + |feed|
    ensures ordered == Consecutive(old(context.nextRef), |feed|)
    ensures forall k :: k in ordered ==> k !in old(context.images)
    ensures Mapped(feed, ordered, context.images)
    ensures AddsOnly(old(context.images), context.images, ordered)
    ensures LocalFeed(ordered, context.images) == feed
  {
    var models: seq<ObjectId> := [];
    var i := 0;
    while i < |feed|
      invariant 0 <= i <= |feed|
      invariant context.Valid()
      invariant context.nextRef == old(context.nextRef) + i
      invariant models == Consecutive(old(context.nextRef), i)
      invariant Mapped(feed[..i], models, context.images)
      invariant forall k :: k in old(context.images) ==> k in context.images && context.images[k] == old(context.images)[k]
      invariant forall k :: k in context.images ==> k in old(context.images) || k in models
    {
      var ref := context.InsertImage(FromLocal(feed[i]));
      models := models + [ref];
      i := i + 1;
    }
    assert feed[..i] == feed;
    FromArrayOfDistinct(models);
    ordered := FromArray(models);
    LocalFeedOfMapped(feed, ordered, context.images);
  }

  /**
   * `create`: obtains the unique instance, then assigns the timestamp and the
   * mapped feed. A throwing `find` leaves the context as it was.
   */
  method Create(feed: seq<LocalFeedImage>, timestamp: Date, context: Context, fault: Option<Error>) returns (err: Option<Error>)
    requires context.Valid()
    modifies context`caches, context`images, context`nextRef
    ensures context.Valid()
    ensures err == fault
    ensures fault.Some? ==> context.caches == old(context.caches) && context.images == old(context.images)
    ensures fault.Some? ==> context.nextRef == old(context.nextRef)
    ensures fault.None? ==> context.caches == ReplacedTable(old(context.caches),
      ManagedFeedCache(old(context.nextRef), Some(timestamp), Consecutive(old(context.nextRef) + 1, |feed|)))
    ensures fault.None? ==> context.nextRef == old(context.nextRef) + 1 + |feed|
    ensures fault.None? ==> Mapped(feed, Consecutive(old(context.nextRef) + 1, |feed|), context.images)
    ensures fault.None? ==> AddsOnly(old(context.images), context.images, Consecutive(old(context.nextRef) + 1, |feed|))
    ensures fault.None? ==> LocalFeed(context.caches[|context.caches| - 1].feed, context.images) == feed
    ensures fault.None? && |old(context.caches)| <= 1 ==> |context.caches| == 1
  {
    var instance := GetUniqueInstance(context, fault);
    if instance.Failure? {
      return Some(instance.error);
    }
    var feedCache := instance.value;
    ghost var kept := AfterDeleteAll(old(context.caches));
    assert context.caches == kept + [Blank(feedCache)];
    WithTimestampOfLast(kept, Blank(feedCache), timestamp);
    context.SetTimestamp(feedCache, timestamp);
    var images := Map(feed, context);
    WithFeedOfLast(kept, ManagedFeedCache(feedCache, Some(timestamp), []), images);
    context.SetFeed(feedCache, images);
    return None;
  }
}
