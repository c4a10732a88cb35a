/** The reply every invocation prints: a status, an error message or the handler's fields. */
module Envelope {
  import opened Values
  import opened Errors

  const StatusSuccess := "Success"
  const StatusFailure := "Failure"
  const StatusNotSupported := "Not supported"

  /**
   * The reply for a handler's result. On an error the fields are dropped and the reply is
   * exactly a Failure status and the error's text; otherwise the handler's fields are laid
   * over a Success status, key by key, so a handler's own "status" replaces it.
   */
  function EnvelopeOf(fields: Fields, err: Option<Error>): (data: Fields)
    ensures err.Some? ==> data.Keys == {"status", "message"}
    ensures err.Some? ==> data["status"] == Str(StatusFailure) && data["message"] == Str(ErrorText(err.value))
    ensures err.None? ==> data.Keys == fields.Keys + {"status"}
    ensures err.None? ==> forall k :: k in fields ==> data[k] == fields[k]
    ensures err.None? && "status" !in fields ==> data["status"] == Str(StatusSuccess)
  {
    if err.Some? then
      map["status" := Str(StatusFailure), "message" := Str(ErrorText(err.value))]
    else
      map["status" := Str(StatusSuccess)] + fields
  }

  /** Builds the reply in place, copying the handler's fields one key at a time. */
  method FormatResult(fields: Fields, err: Option<Error>) returns (data: Fields)
    ensures data == EnvelopeOf(fields, err)
  {
    if err.Some? {
      data := map["status" := Str(StatusFailure), "message" := Str(ErrorText(err.value))];
      return;
    }
    data := map["status" := Str(StatusSuccess)];
    var pending := fields.Keys;
    while pending != {}
      invariant pending <= fields.Keys
      invariant data.Keys == (fields.Keys - pending) + {"status"}
      invariant forall k :: k in fields && k !in pending ==> data[k] == fields[k]
      invariant "status" !in fields.Keys - pending ==> data["status"] == Str(StatusSuccess)
      decreases pending
    {
      var k :| k in pending;
      data := data[k := fields[k]];
      pending := pending - {k};
    }
    assert data.Keys == EnvelopeOf(fields, err).Keys;
  }
}
