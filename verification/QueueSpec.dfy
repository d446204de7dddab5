/**
 The sequential meaning of the bounded lock-free queue, as its callers may rely on it.

 An entry is claimed (it has its place in the order) before it is published (it may be taken).
 The two ways an operation may report failure are part of the specification: `enqueue` may find
 the queue full although it is not, while some consumer still holds a slot it has taken from, and
 `dequeue` may find it empty although it is not, while the head entry is claimed but unpublished.
 */
module QueueSpec {

  datatype Entry<T> = Entry(value: T, published: bool)

  /** `base` is the ticket of the head entry; `held` are the taken tickets whose slot is not yet given back. */
  datatype Queue<T> = Queue(cap: nat, base: nat, entries: seq<Entry<T>>, held: set<nat>)

  datatype Event<T> =
    | Stutter
    | Claim(value: T)
    | Publish(ticket: nat)
    | Take(value: T)
    | GiveBack(ticket: nat)
    | ReportFull
    | ReportEmpty

  predicate HeadPublished<T>(q: Queue<T>) {
    q.entries != [] && q.entries[0].published
  }

  /** What each event demands of the queue it happens in, and the queue it leaves. */
  predicate Happens<T(==)>(q: Queue<T>, e: Event<T>, q': Queue<T>) {
    match e
    case Stutter => q' == q
    case Claim(v) => |q.entries| < q.cap && q' == q.(entries := q.entries + [Entry(v, false)])
    case Publish(k) =>
      && q.base <= k < q.base + |q.entries|
      && !q.entries[k - q.base].published
      && q' == q.(entries := q.entries[k - q.base := q.entries[k - q.base].(published := true)])
    case Take(v) =>
      && HeadPublished(q)
      && v == q.entries[0].value
      && q' == q.(base := q.base + 1, entries := q.entries[1..], held := q.held + {q.base})
    case GiveBack(k) => k in q.held && q' == q.(held := q.held - {k})
    case ReportFull => (|q.entries| == q.cap || q.held != {}) && q' == q
    case ReportEmpty => !HeadPublished(q) && q' == q
  }
}
