/** Types that several of the models share. */
module Common {

  type byte = b: int | 0 <= b < 256
  type word = w: int | 0 <= w < 0x10000

  datatype Option<+T> = None | Some(value: T)
}
