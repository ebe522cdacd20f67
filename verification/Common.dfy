/** Small types shared by every component. */
module Common {

  datatype Option<+T> = None | Some(value: T)

  /** One octet. */
  type Byte = b: int | 0 <= b < 256

  function Min(a: nat, b: nat): nat {
    if a <= b then a else b
  }
}
