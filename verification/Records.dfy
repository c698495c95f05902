/** Values shared by every store: results, identifiers, time, and rows as they lie in a bucket. */
module Records {

  datatype Option<+T> = None | Some(value: T)

  datatype Result<+T> = Ok(value: T) | Err(error: string)

  type Byte = b: int | 0 <= b < 256

  /** A secret or file id: the path parameter of the routes. */
  type Id = string

  /** Nanoseconds since Go's zero `time.Time`, so the zero value is the number zero. */
  type Time = int

  const ZERO_TIME: Time := 0

  /** A stored JSON value: either it decodes, or reading it is an error. */
  datatype Row<+T> = Row(value: T) | Undecodable

  /** Expiry is strict: at the very instant of `expiresAt` a record is still alive. */
  predicate IsExpired(expiresAt: Time, now: Time) {
    expiresAt != ZERO_TIME && now > expiresAt
  }

  /** The ids a listing returns: every key of the bucket, each once, in whatever order. */
  ghost predicate Lists(ids: seq<Id>, keys: set<Id>) {
    && (forall id :: id in ids <==> id in keys)
    && (forall i, j :: 0 <= i < j < |ids| ==> ids[i] != ids[j])
  }

  /** Walks a bucket's keys with an iterator, as the listing methods of the stores do. */
  method ListKeys(keys: set<Id>) returns (ids: seq<Id>)
    ensures Lists(ids, keys)
  {
    ids := [];
    var rest := keys;
    while rest != {}
      invariant rest <= keys
      invariant forall id :: id in ids <==> id in keys - rest
      invariant forall i, j :: 0 <= i < j < |ids| ==> ids[i] != ids[j]
      decreases |rest|
    {
      var id :| id in rest;
      assert id !in ids;
      ids := ids + [id];
      rest := rest - {id};
    }
  }
}
