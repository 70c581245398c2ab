/** What several modules share. */
module Common {
  datatype Option<T> = None | Some(value: T)

  type uint16 = n: int | 0 <= n < 0x1_0000

  /** Counts a fact. */
  function One(b: bool): nat {
    if b then 1 else 0
  }
}
