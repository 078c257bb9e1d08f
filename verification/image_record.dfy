/** The `ManagedFeedImage` record and its projection back to a `LocalFeedImage`. */
module ImageRecord {
  import opened FeedTypes

  /**
   * The stored attributes of one managed image. The owning `cache`
   * relationship is not an attribute here: an image belongs to the cache
   * record whose `feed` lists its identity.
   */
  datatype ManagedFeedImage = ManagedFeedImage(id: Uuid, imageDescription: Option<string>, location: Option<string>, url: Url)

  /** The four field copies that fill a freshly allocated managed image from a domain image. */
  function FromLocal(image: LocalFeedImage): (m: ManagedFeedImage)
    ensures m.id == image.id && m.url == image.url
    ensures m.imageDescription == image.description && m.location == image.location
  {
    ManagedFeedImage(image.id, image.description, image.location, image.url)
  }

  /** `local`: total, and loses nothing, since copying its value back gives the record again. */
  function Local(m: ManagedFeedImage): (v: LocalFeedImage)
    ensures FromLocal(v) == m
  {
    LocalFeedImage(m.id, m.imageDescription, m.location, m.url)
  }

  /** Filling a record from a domain image and reading `local` gives the image back. */
  lemma LocalOfFromLocal(image: LocalFeedImage)
    ensures Local(FromLocal(image)) == image
  {
  }

  /** `local` is one-to-one: two records with the same projection are the same record. */
  lemma LocalInjective(m: ManagedFeedImage, n: ManagedFeedImage)
    ensures Local(m) == Local(n) <==> m == n
  {
    assert FromLocal(Local(m)) == m && FromLocal(Local(n)) == n;
  }

  /** `local` keeps the identifier, and an absent description or location stays absent. */
  lemma LocalKeepsFields(m: ManagedFeedImage)
    ensures Local(m).id == m.id && Local(m).url == m.url
    ensures Local(m).description.None? <==> m.imageDescription.None?
    ensures Local(m).location.None? <==> m.location.None?
    ensures m.imageDescription.Some? ==> Local(m).description.value == m.imageDescription.value
    ensures m.location.Some? ==> Local(m).location.value == m.location.value
  {
  }
}
