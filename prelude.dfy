/** Small shared vocabulary of the solvers: an optional value for the
    places where the programs give up with a panic, and Rust's `u8`. */
module Prelude {

  /** `None` stands for a run that ends in a panic; `Some` carries the
      value the program goes on with. */
  datatype Option<+T> = None | Some(value: T)

  /** Rust's `u8`, the type of bingo numbers and of course-command amounts. */
  type U8 = n: nat | n < 256

  /** The product of two numbers, unbounded: the `u32` multiplications of the
      solvers, without their overflow. Kept apart so that proofs about it
      stay small. */
  function Product(a: nat, b: nat): nat {
    a * b
  }
}
