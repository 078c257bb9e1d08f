# Feed cache record layer

A Dafny model of the record layer of a Core Data feed cache. The cache keeps a
single snapshot: a timestamp and an ordered list of feed images. The model has
three parts, one per source file:

- **the image record** (`ManagedFeedImage`) and its `local` projection to the
  domain value `LocalFeedImage`;
- **the repository helpers** of `ManagedFeedCache`: `find`,
  `getUniqueInstance`, `deleteAll`, `map`, `create` and `local`;
- **the public store** `CoreDataFeedStore`: `insert` with its completion, and
  `retrieve`.

The managed object context is a class, `ManagedObjectContext.Context`. It holds:

- a table of cache records, whose sequence order stands for the unsorted fetch
  order;
- a table of image objects, keyed by identity;
- an allocation counter that hands out fresh object identities;
- the state that the last successful save committed.

A fetch or a save can throw. Each one takes a `fault: Option<Error>` argument
that says whether it throws and with which error. A failed save rolls nothing
back, so the pending objects stay in the context.

`Date`, `URL` and `UUID` are opaque values compared only for equality. A
completion is modelled as the list of values it was called with.

The model follows the code of this snapshot, which is still mid-refactor. Its
intended design is not what the code does:

- `insert` (CoreDataFeedStore.swift:38) allocates a new cache record without
  going through `getUniqueInstance`, so records accumulate. `FeedStore.InsertTwiceKeepsBoth`
  and `FeedStore.InsertInsertRetrieve` state this.
- `retrieve` always reports an empty cache (CoreDataFeedStore.swift:31-33).
- Nothing is ever rolled back.

`CoreDataFeedStore`'s private `map` (CoreDataFeedStore.swift:53-63) does the
same thing, statement for statement, as `ManagedFeedCache.map`. Both are
modelled by the one method `FeedCache.Map`, which `insert` calls.

CoreDataFeedStore.swift:67-79 declares the two managed classes a second time.
They are modelled as the same record shapes as in the dedicated files.

## Model

| member | source | states |
|---|---|---|
| ImageRecord.Local | FeedStoreChallenge/ManagedFeedImage.swift:12-14 | `local` is total and loses nothing: copying its result back into a record gives the same record |
| ImageRecord.FromLocal | FeedStoreChallenge/ManagedFeedCache.swift:26-30 | filling a record copies `id`, `url` and `location` from the domain image, and its `description` into `imageDescription` |
| ImageRecord.LocalOfFromLocal | FeedStoreChallenge/ManagedFeedCache.swift:26-30 | filling a record from a domain image and reading `local` gives the image back |
| ImageRecord.LocalInjective | FeedStoreChallenge/ManagedFeedImage.swift:12-14 | two records have the same `local` exactly when they are the same record |
| ImageRecord.LocalKeepsFields | FeedStoreChallenge/ManagedFeedImage.swift:6-13 | `local` keeps `id` and `url`, maps `imageDescription` to `description`, and an absent description or location stays absent |
| OrderedSets.FromArray | FeedStoreChallenge/ManagedFeedCache.swift:25 | the ordered set of an array has no duplicates, only the array's elements and all of them, and is no longer than the array |
| OrderedSets.FromArrayOfDistinct | FeedStoreChallenge/ManagedFeedCache.swift:25-32 | an array of distinct objects becomes an ordered set with the same elements in the same order: nothing is dropped |
| ManagedObjectContext.Blank | FeedStoreChallenge/ManagedFeedCache.swift:17 | a freshly allocated cache record has its identity, no timestamp yet and an empty feed |
| ManagedObjectContext.WithTimestamp | FeedStoreChallenge/ManagedFeedCache.swift:37 | assigning `timestamp` sets it on the record with that identity; identities, feeds and every other record stay as they were |
| ManagedObjectContext.WithFeed | FeedStoreChallenge/ManagedFeedCache.swift:38 | assigning `feed` sets it on the record with that identity; identities, timestamps and every other record stay as they were |
| ManagedObjectContext.Remove | FeedStoreChallenge/ManagedFeedCache.swift:16 | deleting an object removes exactly the records with its identity and keeps identities unique |
| ManagedObjectContext.RemoveAbsent | FeedStoreChallenge/ManagedFeedCache.swift:21 | deleting an identity that is not in the table changes nothing |
| ManagedObjectContext.RemoveFirst | FeedStoreChallenge/ManagedFeedCache.swift:16 | with unique identities, deleting the first record's identity removes exactly that record |
| ManagedObjectContext.WithTimestampOfLast | FeedStoreChallenge/ManagedFeedCache.swift:37 | assigning `timestamp` on the newest record leaves every other record unchanged |
| ManagedObjectContext.WithFeedOfLast | FeedStoreChallenge/ManagedFeedCache.swift:38 | assigning `feed` on the newest record leaves every other record unchanged |
| ManagedObjectContext.Context.constructor | FeedStoreChallenge/CoreDataFeedStore.swift:28 | a new context holds no records, no images and no saved state |
| ManagedObjectContext.Context.Fetch | FeedStoreChallenge/ManagedFeedCache.swift:12 | a fetch gives every cache record in table order, or the thrown error |
| ManagedObjectContext.Context.Delete | FeedStoreChallenge/ManagedFeedCache.swift:16 | `context.delete` removes the object's record from the table and keeps the context valid |
| ManagedObjectContext.Context.InsertCache | FeedStoreChallenge/ManagedFeedCache.swift:17 | `ManagedFeedCache(context:)` appends a blank record with a fresh identity |
| ManagedObjectContext.Context.InsertImage | FeedStoreChallenge/ManagedFeedCache.swift:26-30 | a managed image is allocated under a fresh identity and holds the given fields |
| ManagedObjectContext.Context.SetTimestamp | FeedStoreChallenge/ManagedFeedCache.swift:37 | assigns the timestamp of the record with the given identity |
| ManagedObjectContext.Context.SetFeed | FeedStoreChallenge/ManagedFeedCache.swift:38 | assigns the feed of the record with the given identity |
| ManagedObjectContext.Context.Save | FeedStoreChallenge/CoreDataFeedStore.swift:41 | a successful save commits the whole pending state; a failing one throws, commits nothing and rolls nothing back; the context stays valid |
| FeedCache.First | FeedStoreChallenge/ManagedFeedCache.swift:12 | `.first` of the fetch is absent exactly when the table is empty, and otherwise is the record first in fetch order |
| FeedCache.AfterDeleteAll | FeedStoreChallenge/ManagedFeedCache.swift:20-22 | an empty table stays empty; otherwise only the found (first) record goes, so one record leaves an empty table and n records leave n - 1 |
| FeedCache.ReplacedTable | FeedStoreChallenge/ManagedFeedCache.swift:15-18 | the new record is last; 0 records become 1, n >= 1 records stay n, at most one record becomes exactly the new one; identities stay unique |
| FeedCache.ReplacedTwiceHoldsLast | FeedStoreChallenge/ManagedFeedCache.swift:35-39 | starting from at most one record, two creates leave exactly the second record |
| FeedCache.Consecutive | FeedStoreChallenge/ManagedFeedCache.swift:25-26 | identities handed out by successive allocations are distinct and start at the counter |
| FeedCache.LocalFeed | FeedStoreChallenge/ManagedFeedCache.swift:41-43 | the `compactMap` projection is never longer than the feed, and is exactly as long when every element names an image |
| FeedCache.LocalFeedOfMapped | FeedStoreChallenge/ManagedFeedCache.swift:24-43 | round trip: `local` of a feed filled by `map` from some images gives those images, in order |
| FeedCache.LocalOfValidContext | FeedStoreChallenge/ManagedFeedCache.swift:41-43 | in a valid context the `compactMap` drops nothing: every record projects to as many images as its feed lists |
| FeedCache.Find | FeedStoreChallenge/ManagedFeedCache.swift:9-13 | `find` changes nothing; it gives the fetch's error, or none exactly when the table is empty, or else the first record of the table |
| FeedCache.GetUniqueInstance | FeedStoreChallenge/ManagedFeedCache.swift:15-18 | a throwing `find` changes nothing; otherwise the found record is deleted and a blank record with a fresh identity joins, as `ReplacedTable` states |
| FeedCache.DeleteAll | FeedStoreChallenge/ManagedFeedCache.swift:20-22 | a throwing `find` changes nothing; otherwise the found record, and only that one, is deleted, as `AfterDeleteAll` states |
| FeedCache.Map | FeedStoreChallenge/ManagedFeedCache.swift:24-33 | one fresh image per input, in order, with the four fields copied; earlier objects are untouched; the ordered set drops nothing; `local` of the result is the input |
| FeedCache.Create | FeedStoreChallenge/ManagedFeedCache.swift:35-39 | a throwing `find` changes nothing; otherwise the table becomes the old one without the found record plus one record with the given timestamp whose `local` is `feed`; from at most one record, exactly one remains; the counter advances by one plus the feed's length, earlier images are untouched and the only new images are the feed's |
| FeedStore.InsertedTable | FeedStoreChallenge/CoreDataFeedStore.swift:38-40 | after `insert` every earlier record remains and the table grows by exactly one, the new record |
| FeedStore.InsertTwiceKeepsBoth | FeedStoreChallenge/CoreDataFeedStore.swift:38 | two inserts grow the table by two and keep the first record: nothing enforces a single slot |
| FeedStore.CoreDataFeedStore.constructor | FeedStoreChallenge/CoreDataFeedStore.swift:18-29 | the store works on the context it is given |
| FeedStore.CoreDataFeedStore.Retrieve | FeedStoreChallenge/CoreDataFeedStore.swift:31-33 | the completion is called exactly once, with `.empty`, whatever the context holds |
| FeedStore.CoreDataFeedStore.Insert | FeedStoreChallenge/CoreDataFeedStore.swift:35-47 | one new record, none deleted, with the given timestamp and one fresh image per input in order, fields copied and `local` equal to the input; earlier images are untouched and no other image appears; the completion is called exactly once, with nil after a successful save or with the save's error; a failed save commits nothing and the new objects stay pending |
| FeedStore.InsertInsertRetrieve | FeedStoreChallenge/CoreDataFeedStore.swift:31-47 | two successful inserts add two records with their timestamps in order, and a retrieval afterwards still reports empty |

## Left out

- Building the Core Data stack (CoreDataFeedStore.swift:8-9, 18-29) is left out. This covers the model lookup, the `ModelNotFound` error, loading the persistent container and creating the background context. It is library set-up and I/O. The store's constructor takes a context that is already loaded.
- `context.perform` (CoreDataFeedStore.swift:36) is left out because it schedules on a background queue. `insert` runs its body synchronously.
- `deleteCachedFeed` (CoreDataFeedStore.swift:49-51) is left out. It only calls `fatalError`, so it has no behaviour to model.
- Fetch-request mechanics (ManagedFeedCache.swift:10-11) are left out: entity-name lookup and `returnsObjectsAsFaults` are internals of the library.
- Real persistence and faulting are left out. A save either commits the whole table or fails as its fault argument says. A failure of Core Data's own validation, such as an unassigned timestamp, is covered by that same argument.
- The image's `cache` relationship (ManagedFeedImage.swift:10) is not stored. Its inverse is maintained by Core Data. In the model, an image belongs to the record whose `feed` lists it.
- Cascade deletion of a deleted cache record's images is left out. The delete rule lives in the Core Data model file, which is not part of this model. `Context.Delete` leaves image objects in the context.
- The state of a managed image between its allocation and its four field assignments (ManagedFeedCache.swift:26-30, CoreDataFeedStore.swift:55-59) is not modelled. No caller can observe it, and `Context.InsertImage` does both at once.
- The `as? ManagedFeedImage` cast in `local` (ManagedFeedCache.swift:42) is modelled as "the identity names an image object of the context". `Context.Valid()` requires every feed element to name one, so in a valid context the cast never drops an element (`FeedCache.LocalOfValidContext`).
