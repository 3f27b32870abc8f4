/** Conversions from sled results to NIF results: engine errors become raised
    strings, absent values stay absent, and present values are copied into a
    freshly allocated binary whose allocation may fail. */
module Utils {
  import opened Common
  import opened Engine

  const SledErrorPrefix: string := "sled::Error::"
  const AllocationFailure: string := "failed to allocate OwnedBinary for result value"

  /** `raise_term_from_string`: the string itself is the raised term. */
  function RaiseTermFromString(error: string): (e: NifError)
    ensures e.RaiseTerm? && e.term.StringTerm? && e.term.text == error
  {
    RaiseTerm(StringTerm(error))
  }

  /** `rustler_result_from_sled`: successes pass through untouched; an engine
      error is raised as its `Debug` text behind the prefix. */
  function RustlerResultFromSled<T>(r: Result<T, SledError>): (o: Result<T, NifError>)
    ensures o.Ok? <==> r.Ok?
    ensures r.Ok? ==> o.value == r.value
    ensures r.Err? ==> o.error == RaiseTerm(StringTerm(SledErrorPrefix + r.error.debug))
  {
    match r
    case Ok(v) => Ok(v)
    case Err(err) => Err(RaiseTermFromString(SledErrorPrefix + err.debug))
  }

  /** `try_binary_from`: `allocates` says whether `OwnedBinary::new` found
      memory for `|v|` bytes. On success the binary is a byte-for-byte copy. */
  function TryBinaryFrom(allocates: bool, v: Bytes): (r: Result<Bytes, NifError>)
    ensures r.Ok? <==> allocates
    ensures r.Ok? ==> |r.value| == |v| && forall i :: 0 <= i < |v| ==> r.value[i] == v[i]
    ensures r.Err? ==> r.error == RaiseTerm(StringTerm(AllocationFailure))
  {
    if allocates then Ok(v) else Err(RaiseTermFromString(AllocationFailure))
  }

  /** `try_binary_result_from_sled`. */
  function TryBinaryResultFromSled(allocates: bool, r: Result<Option<Bytes>, SledError>)
    : (o: Result<Option<Bytes>, NifError>)
    ensures r == Ok(None) ==> o == Ok(None)
    ensures r.Err? ==> o == Err(RaiseTerm(StringTerm(SledErrorPrefix + r.error.debug)))
    ensures r.Ok? && r.value.Some? ==> (o.Ok? <==> allocates)
    ensures r.Ok? && r.value.Some? && allocates ==> o == Ok(Some(r.value.value))
    ensures r.Ok? && r.value.Some? && !allocates ==> o == Err(RaiseTerm(StringTerm(AllocationFailure)))
  {
    match RustlerResultFromSled<Option<Bytes>>(r)
    case Ok(Some(v)) =>
      (match TryBinaryFrom(allocates, v)
       case Ok(b) => Ok(Some(b))
       case Err(e) => Err(e))
    case Ok(None) => Ok(None)
    case Err(err) => Err(err)
  }
}
