/**
 * `/api/rules`: POST adds a sender rule after checking that a sender and a category are present
 * and that the category is one of the taxonomy's; DELETE removes a rule by the `id` query
 * parameter. Store failures are rethrown by the store and answered with 500.
 */
module RulesRoute {
  import opened Wrappers
  import opened Js
  import opened Http
  import opened Categories
  import opened DbService

  const MissingFields: string := "Missing required fields"
  const InvalidCategory: string := "Invalid category"
  const AddFailed: string := "Failed to add rule"
  const MissingId: string := "Missing rule ID"
  const DeleteFailed: string := "Failed to delete rule"

  /** The fields of an accepted POST body: the sender as sent and a category of the taxonomy. */
  datatype NewRule = NewRule(sender: JsValue, category: Category)

  /**
   * The checks of a POST: a body that is not JSON, or is `null`, throws (500, with the handler's
   * fixed message); a falsy sender or category is a 400; so is a category outside the taxonomy.
   */
  function CheckRule(body: RequestBody): (r: Result<NewRule, Response>)
    ensures r.Ok? <==>
      && body.Parsed? && !body.value.Undefined? && !body.value.Null?
      && Truthy(Field(body.value, "sender")) && Truthy(Field(body.value, "category"))
      && Includes(Field(body.value, "category"))
    ensures r.Ok? ==> r.value.sender == Field(body.value, "sender") && Field(body.value, "category") == Str(r.value.category)
    ensures r.Err? && (body.Unparseable? || body.value.Undefined? || body.value.Null?) ==>
      r.error == Response(500, ErrorBody(AddFailed))
    ensures r.Err? && body.Parsed? && !body.value.Undefined? && !body.value.Null? ==>
      r.error == Response(400, ErrorBody(
        if Truthy(Field(body.value, "sender")) && Truthy(Field(body.value, "category")) then InvalidCategory else MissingFields))
  {
    match body
    case Unparseable(_) => Err(Response(500, ErrorBody(AddFailed)))
    case Parsed(v) =>
      match Prop(v, "sender")
      case Err(_) => Err(Response(500, ErrorBody(AddFailed)))
      case Ok(sender) =>
        var category := Field(v, "category");
        if !Truthy(sender) || !Truthy(category) then Err(Response(400, ErrorBody(MissingFields)))
        else if !Includes(category) then Err(Response(400, ErrorBody(InvalidCategory)))
        else Ok(NewRule(sender, category.s))
  }

  /** What a POST answers and which rule, if any, it stores. */
  datatype RuleOutcome = RuleOutcome(resp: Response, stored: Option<SenderRule>)

  /** A POST, the store generating `newId` and being `up` or not. */
  function AddRule(body: RequestBody, createdAt: Time, newId: string, up: bool): RuleOutcome {
    match CheckRule(body)
    case Err(resp) => RuleOutcome(resp, None)
    case Ok(rule) =>
      if up then RuleOutcome(Json(RuleAdded(newId, "Rule added")), Some(SenderRule(newId, rule.sender, rule.category, createdAt)))
      else RuleOutcome(Response(500, ErrorBody(AddFailed)), None)
  }

  /** Every stored rule sits under its own id, names a sender and a category of the taxonomy. */
  predicate WellFormedRules(rules: map<string, SenderRule>) {
    forall id | id in rules :: rules[id].id == id && Truthy(rules[id].sender) && IsCategory(rules[id].category)
  }

  function RulesAfterAdd(rules: map<string, SenderRule>, o: RuleOutcome): map<string, SenderRule> {
    if o.stored.Some? then rules[o.stored.value.id := o.stored.value] else rules
  }

  /**
   * A rule is stored exactly when the answer is 200, which returns the new id; the stored rule
   * carries the sender and category of the request; and the rules stay well formed.
   */
  lemma AddRuleOutcome(rules: map<string, SenderRule>, body: RequestBody, createdAt: Time, newId: string, up: bool)
    requires WellFormedRules(rules)
    ensures var o := AddRule(body, createdAt, newId, up);
            && (o.stored.Some? <==> o.resp.status == 200)
            && (o.stored.Some? <==> up && CheckRule(body).Ok?)
            && (o.stored.Some? ==> o.resp.body == RuleAdded(newId, "Rule added")
                                   && o.stored.value.id == newId
                                   && o.stored.value.sender == Field(body.value, "sender")
                                   && Field(body.value, "category") == Str(o.stored.value.category))
            && o.resp.status in {200, 400, 500}
            && WellFormedRules(RulesAfterAdd(rules, o))
  {
  }

  /** `POST /api/rules` */
  method Post(store: Firestore, body: RequestBody, createdAt: Time, newId: string, up: bool) returns (resp: Response)
    modifies store`rules
    ensures var o := AddRule(body, createdAt, newId, up);
            resp == o.resp && store.rules == RulesAfterAdd(old(store.rules), o)
  {
    var checked := CheckRule(body);
    if checked.Err? {
      return checked.error;
    }
    var id := store.AddSenderRule(checked.value.sender, checked.value.category, createdAt, newId, up);
    if id.Err? {
      return Response(500, ErrorBody(AddFailed));
    }
    resp := Json(RuleAdded(id.value, "Rule added"));
  }

  /** A DELETE with the `id` query parameter (`None` when absent). */
  function DeleteRule(id: Option<string>, up: bool): (r: Response)
    ensures id.None? || id.value == "" ==> r == Response(400, ErrorBody(MissingId))
    ensures r.status == 200 <==> id.Some? && up && IsDocId(Str(id.value))
    ensures r.status == 200 ==> r.body == MessageBody("Rule deleted")
    ensures r.status != 200 && id.Some? && id.value != "" ==> r == Response(500, ErrorBody(DeleteFailed))
  {
    if id.None? || id.value == "" then Response(400, ErrorBody(MissingId))
    else if up && IsDocId(Str(id.value)) then Json(MessageBody("Rule deleted"))
    else Response(500, ErrorBody(DeleteFailed))
  }

  /** Removing a rule keeps the rules well formed. */
  lemma DeleteKeepsRulesWellFormed(rules: map<string, SenderRule>, id: string)
    requires WellFormedRules(rules)
    ensures WellFormedRules(rules - {id}) && id !in rules - {id}
  {
  }

  /** `DELETE /api/rules?id=…` */
  method Delete(store: Firestore, id: Option<string>, up: bool) returns (resp: Response)
    modifies store`rules
    ensures resp == DeleteRule(id, up)
    ensures store.rules == if resp.status == 200 then old(store.rules) - {id.value} else old(store.rules)
  {
    if id.None? || id.value == "" {
      return Response(400, ErrorBody(MissingId));
    }
    var deleted := store.DeleteSenderRule(id.value, up);
    if deleted.Err? {
      return Response(500, ErrorBody(DeleteFailed));
    }
    resp := Json(MessageBody("Rule deleted"));
  }
}
