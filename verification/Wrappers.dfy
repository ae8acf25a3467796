/** The usual optional value, for Go's nil, `, ok` results and buffered channels
    of capacity one; and what several modules say about numbers, strings and
    sequences. */
module Wrappers {
  datatype Option<+T> = None | Some(value: T)

  function Min(a: nat, b: nat): nat { if a < b then a else b }

  /** strings.HasPrefix. */
  predicate HasPrefix(s: string, prefix: string) { prefix <= s }

  /** Concatenation is associative. */
  lemma Regroup<T>(a: seq<T>, b: seq<T>, c: seq<T>)
    ensures a + b + c == a + (b + c)
  {
  }
}
