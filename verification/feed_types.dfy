/** Domain values and the opaque Foundation types that the feed-cache record layer passes around. */
module FeedTypes {

  datatype Option<T> = None | Some(value: T)

  /** An error thrown by the persistence framework; only its identity matters. */
  datatype Error = Error(code: nat)

  /** The outcome of a call that may throw. */
  datatype Result<T> = Success(value: T) | Failure(error: Error)

  /** `UUID`, `URL` and `Date` are opaque here and are compared only for equality. */
  type Uuid = int
  type Url = string
  type Date = int

  /** The identity of a managed object inside a context. */
  type ObjectId = nat

  /** The application-level image value that callers hand to the store and get back from it. */
  datatype LocalFeedImage = LocalFeedImage(id: Uuid, description: Option<string>, location: Option<string>, url: Url)
}
