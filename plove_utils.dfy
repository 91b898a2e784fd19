/** The error-breadcrumb helpers of the protocol-love zome
    (zomes/protocol-love/src/utils.rs): `t(tag, result)` passes a success
    through and prefixes a failure's message with `tag`. */
module PloveUtils {
  import opened Results

  /** `tag_error`: the failure whose message is `tag` followed by `error`. */
  function TagError<T>(error: string, tag: string): (r: Result<T>)
    ensures r.Err?
    ensures tag <= r.msg && r.msg[|tag|..] == error
  {
    Err(tag + error)
  }

  /** `t(tag, result)`. */
  function T<T>(tag: string, result: Result<T>): (r: Result<T>)
    ensures r.Ok? <==> result.Ok?
    ensures result.Ok? ==> r == result
    ensures result.Err? ==> tag <= r.msg && r.msg[|tag|..] == result.msg
  {
    match result
    case Ok(v) => Ok(v)
    case Err(e) => TagError(e, tag)
  }

  /** `result` wrapped in one `t` per tag, the first tag outermost:
      `t(tags[0], t(tags[1], ... result))`. */
  function Wrap<T>(tags: seq<string>, result: Result<T>): Result<T>
    decreases |tags|
  {
    if tags == [] then result else T(tags[0], Wrap(tags[1..], result))
  }

  /** The tags written one after the other. */
  function Breadcrumb(tags: seq<string>): string
    decreases |tags|
  {
    if tags == [] then "" else tags[0] + Breadcrumb(tags[1..])
  }

  /** However deeply a result is wrapped, a success comes out unchanged and a
      failure carries every tag, outermost first, before its original message. */
  lemma {:induction false} WrapBreadcrumb<T>(tags: seq<string>, result: Result<T>)
    ensures result.Ok? ==> Wrap(tags, result) == result
    ensures result.Err? ==> Wrap(tags, result) == Err(Breadcrumb(tags) + result.msg)
    decreases |tags|
  {
    if tags != [] {
      WrapBreadcrumb(tags[1..], result);
      if result.Err? {
        assert tags[0] + (Breadcrumb(tags[1..]) + result.msg) == (tags[0] + Breadcrumb(tags[1..])) + result.msg;
      }
    }
  }

  /** Two levels: `t(b, t(a, Err e))` is `Err(b ++ a ++ e)`. */
  lemma NestedTags<T>(a: string, b: string, e: string)
    ensures T(b, T<T>(a, Err(e))) == Err(b + a + e)
  {
    WrapBreadcrumb<T>([b, a], Err(e));
    assert [b, a][1..] == [a];
    assert [a][1..] == [];
    assert Wrap<T>([a], Err(e)) == T(a, Wrap<T>([], Err(e)));
    assert Wrap<T>([b, a], Err(e)) == T(b, Wrap<T>([a], Err(e)));
    assert Breadcrumb([b, a]) == b + Breadcrumb([a]);
    assert Breadcrumb([a]) == a + Breadcrumb([]);
  }
}
