/** What several models share. */
module Common {

  datatype Option<+T> = None | Some(value: T)

  /** A JSON-RPC request id. */
  datatype RequestId = StringId(text: string) | IntegerId(number: int)

  function Bit(b: bool): nat
  {
    if b then 1 else 0
  }

  lemma Regroup<T>(a: seq<T>, b: seq<T>, c: seq<T>)
    ensures a + b + c == a + (b + c)
  {
  }

  lemma NothingBefore<T>(a: seq<T>)
    ensures [] + a == a
  {
  }
}
