/** What `fetch` reports about a response that arrived. */
module Http {

  /** `Response.ok`: the status is in the range 200-299. */
  predicate IsOk(status: nat): (ok: bool)
    ensures ok <==> 200 <= status < 300
  {
    200 <= status <= 299
  }
}
