/**
 * The `Response` record every endpoint returns beside its result: the
 * `success`, `status` and `data` members of the reply body.
 */
module Envelopes {
  import opened Wrappers
  import opened PyValues
  import opened Http

  datatype Envelope = Envelope(success: Value, status: Value, data: Value)

  /** The three members the record needs, when the body is an object holding them all. */
  function Members(body: Value): (r: Option<Envelope>)
    ensures r.Some? <==> body.VDict? && Lookup(body.entries, "success").Some?
                         && Lookup(body.entries, "status").Some? && Lookup(body.entries, "data").Some?
    ensures r.Some? ==> r.value == Envelope(Lookup(body.entries, "success").value,
                                            Lookup(body.entries, "status").value,
                                            Lookup(body.entries, "data").value)
  {
    if !body.VDict? then None
    else
      match (Lookup(body.entries, "success"), Lookup(body.entries, "status"), Lookup(body.entries, "data"))
      case (Some(s), Some(st), Some(d)) => Some(Envelope(s, st, d))
      case _ => None
  }

  /**
   * The mapping as declared: `data` is annotated `dict` and the record
   * mapper checks types, so a reply whose data member is a list, as every
   * list endpoint's is, is refused.
   */
  function EnvelopeAsDeclared(body: Value): (r: Result<Envelope, ApiError>)
    ensures r.Success? <==> Members(body).Some? && Members(body).value.data.VDict?
    ensures r.Success? ==> r.value == Members(body).value
  {
    match Members(body)
    case None => Failure(DataShapeError("reply lacks success, status or data"))
    case Some(env) =>
      if env.data.VDict? then Success(env) else Failure(DataShapeError("data is not a dict"))
  }

  /** The mapping as the list endpoints need it: `data` of any shape. */
  function EnvelopeOf(body: Value): (r: Result<Envelope, ApiError>)
    ensures r.Success? <==> Members(body).Some?
    ensures r.Success? ==> r.value == Members(body).value
    ensures r.Success? ==> Data(body) == Success(r.value.data)
  {
    match Members(body)
    case None => Failure(DataShapeError("reply lacks success, status or data"))
    case Some(env) => Success(env)
  }

  /** The two mappings agree on every reply whose data member is an object. */
  lemma EnvelopeAgreesOnObjects(body: Value)
    requires Members(body).Some? && Members(body).value.data.VDict?
    ensures EnvelopeAsDeclared(body) == EnvelopeOf(body)
  {
  }

  /**
   * A well-formed reply to a list endpoint, `{"success": true, "status": 200,
   * "data": []}`, is refused by the declared mapping and accepted by the
   * corrected one.
   */
  lemma ListDataRefusedAsDeclared()
    ensures var body := VDict([("success", VBool(true)), ("status", VInt(200)), ("data", VList([]))]);
            && EnvelopeAsDeclared(body).Failure?
            && EnvelopeOf(body) == Success(Envelope(VBool(true), VInt(200), VList([])))
  {
    var es := [("success", VBool(true)), ("status", VInt(200)), ("data", VList([]))];
    assert es[..2][..1] == [("success", VBool(true))];
    assert es[..2] == [("success", VBool(true)), ("status", VInt(200))];
    assert Lookup(es, "data") == Some(VList([]));
    assert Lookup(es, "status") == Some(VInt(200));
    assert Lookup(es, "success") == Some(VBool(true));
  }
}
