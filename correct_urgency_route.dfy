/**
 * `POST /api/correct-urgency`: a user's correction of the urgency flag. The body must carry a
 * truthy id, sender and subject and both flags (any value but `undefined`, so `null` and `false`
 * pass); the correction is stored and the log's flag set, and the answer is a success whatever
 * the store did.
 */
module CorrectUrgencyRoute {
  import opened Js
  import opened Http
  import opened DbService
  import opened Wrappers

  const MissingFields: string := "Missing required fields"
  const InternalError: string := "Internal server error"
  const Logged: string := "Urgency correction logged successfully"

  predicate HasRequired(v: JsValue)
    requires !v.Undefined? && !v.Null?
  {
    && Truthy(Field(v, "id")) && Truthy(Field(v, "sender")) && Truthy(Field(v, "subject"))
    && !Field(v, "wasUrgent").Undefined? && !Field(v, "shouldBeUrgent").Undefined?
  }

  /** The checks and the document built from the body; the snippet defaults to the empty string. */
  function CheckUrgencyCorrection(body: RequestBody, timestamp: Time): (r: Result<UrgencyCorrection, Response>)
    ensures r.Ok? <==> body.Parsed? && !body.value.Undefined? && !body.value.Null? && HasRequired(body.value)
    ensures r.Err? && (body.Unparseable? || body.value.Undefined? || body.value.Null?) ==>
      r.error == Response(500, ErrorBody(InternalError))
    ensures r.Err? && body.Parsed? && !body.value.Undefined? && !body.value.Null? ==>
      r.error == Response(400, ErrorBody(MissingFields))
    ensures r.Ok? ==>
      var v := body.value;
      && r.value.id == Field(v, "id") && r.value.sender == Field(v, "sender") && r.value.subject == Field(v, "subject")
      && r.value.wasUrgent == Field(v, "wasUrgent") && r.value.shouldBeUrgent == Field(v, "shouldBeUrgent")
      && r.value.timestamp == timestamp
      && r.value.snippet == (if Truthy(Field(v, "snippet")) then Field(v, "snippet") else Str(""))
  {
    match body
    case Unparseable(_) => Err(Response(500, ErrorBody(InternalError)))
    case Parsed(v) =>
      if v.Undefined? || v.Null? then Err(Response(500, ErrorBody(InternalError)))
      else if !HasRequired(v) then Err(Response(400, ErrorBody(MissingFields)))
      else
        Ok(UrgencyCorrection(Field(v, "id"), Field(v, "sender"), Field(v, "subject"),
                             Or(Field(v, "snippet"), Str("")), Field(v, "wasUrgent"),
                             Field(v, "shouldBeUrgent"), timestamp))
  }

  /** The answer, which does not depend on the store. */
  function UrgencyResponse(body: RequestBody, timestamp: Time): (r: Response)
    ensures r.status == 200 <==> CheckUrgencyCorrection(body, timestamp).Ok?
    ensures r.status == 200 ==> r.body == MessageBody(Logged)
    ensures r.status != 200 ==> r.status in {400, 500}
  {
    match CheckUrgencyCorrection(body, timestamp)
    case Err(resp) => resp
    case Ok(_) => Json(MessageBody(Logged))
  }

  /**
   * The flags are only checked for presence: a `false` or `null` flag is accepted and written to
   * the log as sent.
   */
  lemma FalsyFlagsAccepted(body: RequestBody, timestamp: Time, logs: map<string, EmailLog>)
    requires body.Parsed? && body.value.Obj?
    requires var v := body.value;
             Truthy(Field(v, "id")) && Truthy(Field(v, "sender")) && Truthy(Field(v, "subject"))
             && Field(v, "wasUrgent") in {Null, Bool(false)} && Field(v, "shouldBeUrgent") in {Null, Bool(false)}
    requires IsDocId(Field(body.value, "id")) && Field(body.value, "id").s in logs
    ensures CheckUrgencyCorrection(body, timestamp).Ok?
    ensures var data := CheckUrgencyCorrection(body, timestamp).value;
            LogsAfterUrgencyCorrection(logs, data, Up)[data.id.s].isUrgent == Field(body.value, "shouldBeUrgent")
  {
  }

  /** `POST /api/correct-urgency`, the store being available as `availability` says. */
  method Post(store: Firestore, body: RequestBody, timestamp: Time, availability: Availability) returns (resp: Response)
    modifies store
    ensures resp == UrgencyResponse(body, timestamp)
    ensures store.corrections == old(store.corrections) && store.rules == old(store.rules)
    ensures store.stats == old(store.stats) && store.storedCategories == old(store.storedCategories)
    ensures var r := CheckUrgencyCorrection(body, timestamp);
            && (r.Err? ==> store.urgencyCorrections == old(store.urgencyCorrections) && store.logs == old(store.logs))
            && (r.Ok? ==> store.urgencyCorrections == Recorded(old(store.urgencyCorrections), r.value.id, r.value, availability)
                          && store.logs == LogsAfterUrgencyCorrection(old(store.logs), r.value, availability))
  {
    var checked := CheckUrgencyCorrection(body, timestamp);
    if checked.Err? {
      return checked.error;
    }
    store.AddUrgencyCorrection(checked.value, availability);
    resp := Json(MessageBody(Logged));
  }
}
