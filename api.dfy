/**
 * The JSON endpoints the home screen reads: a response's status, and the
 * `data.data` array it may carry.
 */
module Api {
  import opened Wrappers
  import opened Units

  /** An HTTP response: `ok`, `status` and the `data.data` array when the body has one. */
  datatype Response<T> = Response(ok: bool, status: nat, items: Option<seq<T>>)

  function StatusError(status: nat): (e: string)
  {
    "API request failed with status " + NatToString(status)
  }

  /**
   * The records to work on: an error naming the status when the response is
   * not ok, otherwise the array, with a missing one read as empty.
   */
  function ResponseItems<T>(resp: Response<T>): (r: Result<seq<T>>)
    ensures r.Failure? <==> !resp.ok
    ensures r.Failure? ==> r.error == StatusError(resp.status)
    ensures r.Success? && resp.items.None? ==> r.value == []
    ensures r.Success? && resp.items.Some? ==> r.value == resp.items.value
  {
    if !resp.ok then Failure(StatusError(resp.status)) else Success(resp.items.GetOr([]))
  }

  /** Different statuses give different messages. */
  lemma StatusErrorInjective(a: nat, b: nat)
    requires StatusError(a) == StatusError(b)
    ensures a == b
  {
    var p := "API request failed with status ";
    assert NatToString(a) == StatusError(a)[|p|..];
    assert NatToString(b) == StatusError(b)[|p|..];
    assert DigitsValue(NatToString(a)) == a;
  }
}
