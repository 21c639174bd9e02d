/**
 * `POST /api/correct-category`: a user's correction of a classification. The body must carry an
 * id, sender, subject, wrong and correct category, the correct one from the taxonomy; the
 * correction is then stored and the log relabelled, and the answer is a success whatever the
 * store did, since the store swallows its failures.
 */
module CorrectCategoryRoute {
  import opened Js
  import opened Http
  import opened Categories
  import opened DbService
  import opened Wrappers

  const MissingFields: string := "Missing required fields"
  const InvalidCategory: string := "Invalid category"
  const InternalError: string := "Internal server error"
  const Logged: string := "Correction logged successfully"

  /** The five fields the handler requires to be truthy. */
  predicate HasRequired(v: JsValue)
    requires !v.Undefined? && !v.Null?
  {
    && Truthy(Field(v, "id")) && Truthy(Field(v, "sender")) && Truthy(Field(v, "subject"))
    && Truthy(Field(v, "wrongCategory")) && Truthy(Field(v, "correctCategory"))
  }

  /**
   * The checks and the document built from the body: a body that is not JSON, or cannot be
   * destructured (`null`), is a 500; a missing field a 400; a correct category outside the
   * taxonomy a 400. The snippet defaults to the empty string.
   */
  function CheckCorrection(body: RequestBody, timestamp: Time): (r: Result<EmailCorrection, Response>)
    ensures r.Ok? <==>
      body.Parsed? && !body.value.Undefined? && !body.value.Null? && HasRequired(body.value)
      && Includes(Field(body.value, "correctCategory"))
    ensures r.Err? && (body.Unparseable? || body.value.Undefined? || body.value.Null?) ==>
      r.error == Response(500, ErrorBody(InternalError))
    ensures r.Err? && body.Parsed? && !body.value.Undefined? && !body.value.Null? ==>
      r.error == Response(400, ErrorBody(if HasRequired(body.value) then InvalidCategory else MissingFields))
    ensures r.Ok? ==>
      var v := body.value;
      && IsCategory(r.value.correctCategory) && Field(v, "correctCategory") == Str(r.value.correctCategory)
      && r.value.id == Field(v, "id") && r.value.sender == Field(v, "sender") && r.value.subject == Field(v, "subject")
      && r.value.wrongCategory == Field(v, "wrongCategory") && r.value.timestamp == timestamp
      && r.value.snippet == (if Truthy(Field(v, "snippet")) then Field(v, "snippet") else Str(""))
  {
    match body
    case Unparseable(_) => Err(Response(500, ErrorBody(InternalError)))
    case Parsed(v) =>
      if v.Undefined? || v.Null? then Err(Response(500, ErrorBody(InternalError)))
      else if !HasRequired(v) then Err(Response(400, ErrorBody(MissingFields)))
      else if !Includes(Field(v, "correctCategory")) then Err(Response(400, ErrorBody(InvalidCategory)))
      else
        Ok(EmailCorrection(Field(v, "id"), Field(v, "sender"), Field(v, "subject"),
                           Or(Field(v, "snippet"), Str("")), Field(v, "wrongCategory"),
                           Field(v, "correctCategory").s, timestamp))
  }

  /** The answer, which does not depend on the store at all. */
  function CorrectionResponse(body: RequestBody, timestamp: Time): (r: Response)
    ensures r.status == 200 <==> CheckCorrection(body, timestamp).Ok?
    ensures r.status == 200 ==> r.body == MessageBody(Logged)
    ensures r.status != 200 ==> r.status in {400, 500}
  {
    match CheckCorrection(body, timestamp)
    case Err(resp) => resp
    case Ok(_) => Json(MessageBody(Logged))
  }

  /**
   * An accepted correction is acknowledged even when the store is down at the first write, in
   * which case nothing is stored and no log changes.
   */
  lemma AcknowledgedEvenIfLost(body: RequestBody, timestamp: Time, logs: map<string, EmailLog>,
                               corrections: map<string, EmailCorrection>)
    requires CheckCorrection(body, timestamp).Ok?
    ensures var data := CheckCorrection(body, timestamp).value;
            && CorrectionResponse(body, timestamp) == Json(MessageBody(Logged))
            && Recorded(corrections, data.id, data, DownAtFirstWrite) == corrections
            && LogsAfterCorrection(logs, data, DownAtFirstWrite) == logs
  {
  }

  /**
   * With the store up, an accepted correction whose id names a logged email relabels that log
   * with a category of the taxonomy, and the correction is kept under the same id.
   */
  lemma AcceptedCorrectionRelabels(body: RequestBody, timestamp: Time, logs: map<string, EmailLog>,
                                   corrections: map<string, EmailCorrection>)
    requires CheckCorrection(body, timestamp).Ok?
    requires var id := Field(body.value, "id"); IsDocId(id) && id.s in logs
    ensures var data := CheckCorrection(body, timestamp).value;
            var id := data.id.s;
            && LogsAfterCorrection(logs, data, Up)[id].category == data.correctCategory
            && IsCategory(LogsAfterCorrection(logs, data, Up)[id].category)
            && Recorded(corrections, data.id, data, Up)[id] == data
  {
  }

  /** `POST /api/correct-category`, the store being available as `availability` says. */
  method Post(store: Firestore, body: RequestBody, timestamp: Time, availability: Availability) returns (resp: Response)
    modifies store
    ensures resp == CorrectionResponse(body, timestamp)
    ensures store.urgencyCorrections == old(store.urgencyCorrections) && store.rules == old(store.rules)
    ensures store.stats == old(store.stats) && store.storedCategories == old(store.storedCategories)
    ensures var r := CheckCorrection(body, timestamp);
            && (r.Err? ==> store.corrections == old(store.corrections) && store.logs == old(store.logs))
            && (r.Ok? ==> store.corrections == Recorded(old(store.corrections), r.value.id, r.value, availability)
                          && store.logs == LogsAfterCorrection(old(store.logs), r.value, availability))
  {
    var checked := CheckCorrection(body, timestamp);
    if checked.Err? {
      return checked.error;
    }
    store.AddCorrection(checked.value, availability);
    resp := Json(MessageBody(Logged));
  }
}
