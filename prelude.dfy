/** The two pieces of Rust's standard library the poker crates lean on:
    `Option` and `std::cmp::Ordering`, with the integer `cmp` that the
    hand comparator and the ace-high rank order are built from. */
module Prelude {

  datatype Option<+T> = None | Some(value: T)

  datatype Ordering = Less | Equal | Greater {
    /** `Ordering::reverse`: swaps Less and Greater. */
    function Reverse(): (r: Ordering)
      ensures r == Equal <==> this == Equal
      ensures r == Less <==> this == Greater
    {
      match this
      case Less => Greater
      case Equal => Equal
      case Greater => Less
    }
  }

  /** `Ord::cmp` on integers (the `u8` indices of ranks and hand categories). */
  function CmpInt(a: int, b: int): (o: Ordering)
    ensures o == Less <==> a < b
    ensures o == Equal <==> a == b
    ensures o == Greater <==> a > b
  {
    if a < b then Less else if a == b then Equal else Greater
  }
}
