/** Values shared by every part of the binding: the result wrappers that stand
    for Rust's `Option` and `Result`, byte strings, Erlang atoms, the errors a
    NIF can return, and the fixed-width integers the option structs decode. */
module Common {

  datatype Option<+T> = None | Some(value: T)

  datatype Result<+T, +E> = Ok(value: T) | Err(error: E)

  type Byte = bv8

  /** A binary, an `IVec` or a `Vec<u8>`: only the bytes matter here. */
  type Bytes = seq<Byte>

  /** Keys and values of a sled tree. */
  type Store = map<Bytes, Bytes>

  /** An Erlang atom, identified by its name. */
  type Atom = string

  const NilAtom: Atom := "nil"
  const FalseAtom: Atom := "false"
  const OkAtom: Atom := "ok"

  /** An Erlang process identifier. */
  type Pid = nat

  type U8 = x: int | 0 <= x < 0x100
  type I32 = x: int | -0x8000_0000 <= x < 0x8000_0000
  type U64 = x: int | 0 <= x < 0x1_0000_0000_0000_0000
  /** `usize` on the 64-bit targets the binding is built for. */
  type Usize = U64

  /** The term carried by `rustler::Error::RaiseTerm`: either a bare string or
      the `Sled.Error` exception struct (`message` and `__exception__`). */
  datatype RaisedTerm =
    | StringTerm(text: string)
    | SledErrorStruct(message: string, exception: bool)

  /** The error side of a NIF result. */
  datatype NifError = BadArg | RaiseTerm(term: RaisedTerm)

  /** The value held by a present key, or `None`. */
  function Lookup(s: Store, k: Bytes): Option<Bytes>
  {
    if k in s then Some(s[k]) else None
  }
}
