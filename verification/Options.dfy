/** An optional value: a nullable column, or the answer of a lookup. */
module Options {
  datatype Option<+T> = None | Some(value: T)
}

/** Facts about finite sets that the proofs share. */
module Sets {
  lemma Inhabited<T>(s: set<T>) returns (x: T)
    requires |s| > 0
    ensures x in s
  {
    x :| x in s;
  }
}
