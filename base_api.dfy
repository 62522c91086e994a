/** The result record every backend call returns (`BaseApiResponse`). */
module BaseApi {
  import opened Wrappers

  /** `succeed`, plus a `reason` and a `data` payload that are Python `None`
      (here `Option.None`) unless given. */
  datatype Response<T> = Response(succeed: bool, reason: Option<string>, data: Option<T>)

  const SuccessReason := "Success"

  /** A record built directly with only `succeed`: both other fields default to `None`. */
  function Bare<T>(succeed: bool): (r: Response<T>)
    ensures r.succeed == succeed && r.reason.None? && r.data.None?
  {
    Response(succeed, None, None)
  }

  /** `BaseApiResponse.success(data)`; `success()` is `Success(None)`. */
  function Success<T>(data: Option<T>): Response<T> {
    Response(true, Some(SuccessReason), data)
  }

  /** `BaseApiResponse.failure(reason)`. */
  function Failure<T>(reason: string): Response<T> {
    Response(false, Some(reason), None)
  }

  /** The records that `success` and `failure` can build. */
  predicate Produced<T>(r: Response<T>) {
    if r.succeed then r.reason == Some(SuccessReason) else r.reason.Some? && r.data.None?
  }

  /** Every record the two factories build is `Produced`, the `succeed` flag alone tells the
      two apart, a failure never carries data, and each factory is recovered from its record. */
  lemma FactoriesAreDistinguishable<T>(d: Option<T>, reason: string)
    ensures Produced(Success(d)) && Produced(Failure<T>(reason))
    ensures Success(d).succeed && !Failure<T>(reason).succeed
    ensures Success(d) != Failure(reason)
    ensures Success(d).data == d && Failure<T>(reason).data.None?
    ensures Failure<T>(reason).reason == Some(reason)
  {
  }

  /** A produced record is exactly one of the two factory results. */
  lemma ProducedIsFactoryResult<T>(r: Response<T>)
    ensures Produced(r) <==> (r == Success(r.data) || (r.reason.Some? && r == Failure(r.reason.value)))
  {
  }

  /** A collaborator reply as the record the collaborator would return. */
  function FromReply<T>(x: Reply<T>): (r: Response<T>)
    ensures Produced(r)
    ensures r.succeed <==> x.Ok?
    ensures x.Ok? ==> r.data == Some(x.value)
    ensures x.Err? ==> r.reason == Some(x.reason)
  {
    match x
    case Ok(v) => Success(Some(v))
    case Err(m) => Failure(m)
  }

  /** The reply a produced record stands for. */
  function ToReply<T>(r: Response<T>): Reply<T>
    requires Produced(r) && (r.succeed ==> r.data.Some?)
  {
    if r.succeed then Ok(r.data.value) else Err(r.reason.value)
  }

  /** `Reply` and produced records carrying data carry the same information. */
  lemma ReplyRoundTrip<T>(x: Reply<T>)
    ensures ToReply(FromReply(x)) == x
  {
  }
}
