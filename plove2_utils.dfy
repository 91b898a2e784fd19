/** The error-breadcrumb helpers of the protocol_love zome
    (zomes/protocol_love/src/utils.rs): `t(result, tag)` passes a success
    through and prefixes a failure's message with `tag`. The classic zome's
    helper took its arguments the other way round. */
module Plove2Utils {
  import opened Results
  import PloveUtils

  /** `tag_error`: the failure whose message is `tag` followed by `error`. */
  function TagError<T>(error: string, tag: string): (r: Result<T>)
    ensures r.Err?
    ensures tag <= r.msg && r.msg[|tag|..] == error
  {
    Err(tag + error)
  }

  /** `t(result, tag)`. */
  function T<T>(result: Result<T>, tag: string): (r: Result<T>)
    ensures r.Ok? <==> result.Ok?
    ensures result.Ok? ==> r == result
    ensures result.Err? ==> tag <= r.msg && r.msg[|tag|..] == result.msg
    ensures tag == "" ==> r == result
  {
    match result
    case Ok(v) => Ok(v)
    case Err(e) => TagError(e, tag)
  }

  /** The newer helper is the classic one with its arguments swapped. */
  lemma SameAsClassic<T>(result: Result<T>, tag: string)
    ensures T(result, tag) == PloveUtils.T(tag, result)
  {
  }

  /** Wrapping twice puts the outer tag first: `t(t(Err e, a), b)` is
      `Err(b ++ a ++ e)`. */
  lemma OuterTagFirst<T>(e: string, a: string, b: string)
    ensures T(T<T>(Err(e), a), b) == Err(b + a + e)
  {
    assert b + (a + e) == b + a + e;
  }
}
