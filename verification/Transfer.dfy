/** transfer/transfer.go and the skip test of ui/update.go: what is copied, what a
    destination answers, and when a worker decides that nothing is left to do. */
module Transfer {

  newtype byte = x: int | 0 <= x < 256

  type Bytes = seq<byte>

  datatype Option<+T> = None | Some(value: T)

  /** One file to transfer. The size is never negative. */
  datatype Item = Item(path: string, size: nat)

  /** What Destination.Stat returns. */
  datatype Stat = StatAnswer(found: bool, size: nat) | StatError

  /** The size-only skip test of the worker loop. */
  predicate Skips(answer: Stat, want: nat) {
    answer.StatAnswer? && answer.found && answer.size == want
  }

  /** What a size query sees of a stored file. */
  function StatOf(stored: Option<Bytes>): Stat {
    match stored
    case None => StatAnswer(false, 0)
    case Some(b) => StatAnswer(true, |b|)
  }

  function Lookup<K, V>(m: map<K, V>, k: K): Option<V> {
    if k in m then Some(m[k]) else None
  }

  /** What one Put may do to the stored file, on every backend: success stores exactly
      the source; failure leaves the file as it was or leaves a prefix of the source. */
  predicate PutOutcome(before: Option<Bytes>, src: Bytes, after: Option<Bytes>, err: bool) {
    && (!err ==> after == Some(src))
    && (after == before || (after.Some? && after.value <= src))
  }

  lemma Member<T>(s: set<T>) returns (k: T)
    requires |s| > 0
    ensures k in s
  {
    k :| k in s;
  }
}
