/** Rust primitive integer widths and the Option/Result wrappers the contracts return. */
module Primitives {

  const U8_MAX: int := 0xFF
  const U16_MAX: int := 0xFFFF
  const U32_MAX: int := 0xFFFF_FFFF

  type U8 = x: int | 0 <= x <= U8_MAX
  type U16 = x: int | 0 <= x <= U16_MAX
  type U32 = x: int | 0 <= x <= U32_MAX
  type I8 = x: int | -0x80 <= x <= 0x7F

  datatype Option<+T> = None | Some(value: T)

  /** Rust's `Result<T, E>`; `Ok(())` is written `Ok(())` here too. */
  datatype Result<+T, +E> = Ok(value: T) | Err(error: E)
}

/** The pieces of the ink! environment the contracts mention but do not define. */
module InkEnv {

  /** A 32-byte account identifier; only its identity matters to the contracts. */
  datatype AccountId = AccountId(raw: nat)

  /** ink!'s `LangError`: a message could not be dispatched. */
  datatype LangError = CouldNotReadInput

  /** `ink::env::Error`, kept opaque: the contracts only ever use its `Debug` rendering. */
  datatype EnvError = EnvError(debugText: string)
}
