/** Small things several modules need. */
module Common {
  datatype Option<T> = None | Some(value: T)

  type ClientId = nat
  type TokenId = nat

  lemma Regroup(a: string, b: string, c: string)
    ensures (a + b) + c == a + (b + c)
  {
  }
}
