/** Shared wrappers and the machine-integer limits of the Rust sources. */
module Prelude {

  datatype Option<+T> = None | Some(value: T)

  datatype Result<+T, +E> = Ok(value: T) | Err(error: E)

  const U32_MAX: nat := 0xFFFF_FFFF
  const U64_MAX: nat := 0xFFFF_FFFF_FFFF_FFFF

  /** A 40-digit commit identity; only equality is ever used. */
  type Sha = nat
}
