module Wrappers {
  datatype Option<+T> = None | Some(value: T)

  /** Stands for the source's ContractError and integrity errors. */
  datatype Result<+T> = Success(value: T) | Failure(reason: string)

  lemma SmallerSet<T>(a: set<T>, b: set<T>)
    requires a <= b
    ensures |a| <= |b|
  {
    assert a + (b - a) == b;
  }
}
