/** Vocabulary shared by the models of the auction backend. */
module Common {

  datatype Option<+T> = None | Some(value: T)

  /** Milliseconds since the epoch. */
  type Time = int

  /** Object ids; only their identity matters. */
  type UserId = nat
  type AuctionId = nat

  datatype Status = ACTIVE | ENDED | CANCELLED

  /** What an upsert by key, or a queue insertion by job id, does to its table. */
  function PutIfAbsent<K, V>(table: map<K, V>, key: K, value: V): map<K, V> {
    if key in table then table else table[key := value]
  }

  function Min(x: int, y: int): int {
    if x < y then x else y
  }

  function Max(x: int, y: int): int {
    if x < y then y else x
  }

  lemma FirstIsMember<T>(s: seq<T>)
    ensures s == [] || s[0] in s
  {
  }
}
