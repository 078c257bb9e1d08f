/**
 * `CoreDataFeedStore`, the public store, as it stands in this snapshot:
 * `insert` allocates a new cache record without deleting any earlier one,
 * fills it, saves and reports once through its completion; `retrieve`
 * always reports an empty cache. Completions are modelled as the list of
 * values the completion was called with, in order.
 */
module FeedStore {
  import opened FeedTypes
  import opened ManagedObjectContext
  import opened FeedCache

  /** What a retrieval reports: an empty cache, a found feed with its timestamp, or an error. */
  datatype RetrieveCachedFeedResult = Empty | Found(feed: seq<LocalFeedImage>, timestamp: Date) | Failed(error: Error)

  /** The table after `insert`: every earlier record stays, and `record` joins at the end. */
  function InsertedTable(caches: seq<ManagedFeedCache>, record: ManagedFeedCache): (r: seq<ManagedFeedCache>)
    ensures |r| == |caches| + 1
    ensures forall c :: c in caches ==> c in r
    ensures r[|caches|] == record
  {
    caches + [record]
  }

  /** Unlike `create`, two inserts never leave a single record: the table grows by two and keeps the first. */
  lemma InsertTwiceKeepsBoth(caches: seq<ManagedFeedCache>, first: ManagedFeedCache, second: ManagedFeedCache)
    ensures |InsertedTable(InsertedTable(caches, first), second)| == |caches| + 2
    ensures first in InsertedTable(InsertedTable(caches, first), second)
  {
  }

  class CoreDataFeedStore {
    const context: Context

    /** Builds the store over an already loaded context. */
    constructor (context: Context)
      ensures this.context == context
    {
      this.context := context;
    }

    /** `retrieve`: the completion is called once, with `.empty`, whatever the context holds. */
    method Retrieve() returns (completions: seq<RetrieveCachedFeedResult>)
      ensures |completions| == 1 && completions[0].Empty?
    {
      completions := [Empty];
    }

    /**
     * `insert`: a new cache record with the given timestamp and a feed of
     * fresh images copied from `feed`, in order, then a save. The completion
     * is called once: with no error after a successful save, with the save's
     * error otherwise. A failed save rolls nothing back.
     */
    method Insert(feed: seq<LocalFeedImage>, timestamp: Date, saveFault: Option<Error>) returns (completions: seq<Option<Error>>)
      requires context.Valid()
      modifies context
      ensures context.Valid()
      ensures context.caches == InsertedTable(old(context.caches),
        ManagedFeedCache(old(context.nextRef), Some(timestamp), Consecutive(old(context.nextRef) + 1, |feed|)))
      ensures context.nextRef == old(context.nextRef) + 1 + |feed|
      ensures Mapped(feed, Consecutive(old(context.nextRef) + 1, |feed|), context.images)
      ensures AddsOnly(old(context.images), context.images, Consecutive(old(context.nextRef) + 1, |feed|))
      ensures LocalFeed(context.caches[|context.caches| - 1].feed, context.images) == feed
      ensures completions == [saveFault]
      ensures saveFault.None? ==> context.savedCaches == context.caches && context.savedImages == context.images
      ensures saveFault.Some? ==> context.savedCaches == old(context.savedCaches) && context.savedImages == old(context.savedImages)
    {
      var feedCache := context.InsertCache();
      ghost var before := old(context.caches);
      WithTimestampOfLast(before, Blank(feedCache), timestamp);
      context.SetTimestamp(feedCache, timestamp);
      label mapping:
      var images := Map(feed, context);
      assert old(context.images) == old@mapping(context.images);
      assert AddsOnly(old(context.images), context.images, images);
      WithFeedOfLast(before, ManagedFeedCache(feedCache, Some(timestamp), []), images);
      context.SetFeed(feedCache, images);
      completions := [];
      var err := context.Save(saveFault);
      if err.None? {
        completions := completions + [None];
      } else {
        completions := completions + [err];
      }
    }
  }

  /**
   * A caller's view of this snapshot: two successful inserts leave two new
   * records in the context, and a retrieval afterwards still reports empty.
   */
  method InsertInsertRetrieve(store: CoreDataFeedStore, a: seq<LocalFeedImage>, t1: Date, b: seq<LocalFeedImage>, t2: Date)
    returns (retrieved: seq<RetrieveCachedFeedResult>)
    requires store.context.Valid()
    modifies store.context
    ensures store.context.Valid()
    ensures |store.context.caches| == |old(store.context.caches)| + 2
    ensures store.context.caches[|store.context.caches| - 2].timestamp == Some(t1)
    ensures store.context.caches[|store.context.caches| - 1].timestamp == Some(t2)
    ensures retrieved == [Empty]
  {
    var first := store.Insert(a, t1, None);
    var second := store.Insert(b, t2, None);
    retrieved := store.Retrieve();
  }
}
