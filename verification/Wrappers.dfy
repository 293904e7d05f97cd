/** The optional value the other modules share, the law of sequences they are reminded of, and the
    removal of one key. */
module Wrappers {
  datatype Option<+T> = None | Some(value: T)

  lemma Assoc<T>(a: seq<T>, b: seq<T>, c: seq<T>)
    ensures a + (b + c) == (a + b) + c
  {
  }

  function Without<K(==), V>(m: map<K, V>, key: K): map<K, V> { m - {key} }
}
