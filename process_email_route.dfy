/**
 * The push webhook: a Pub/Sub push delivers a base64 payload naming a mailbox change; the handler
 * checks the request's shape, acknowledges an empty payload, parses it, and then sorts at most one
 * message, the newest unread one in the inbox, which it classifies and moves. It persists nothing.
 * Base64 decoding, `JSON.parse`, authentication, Gmail and the classifier are the outside world.
 */
module ProcessEmailRoute {
  import opened Wrappers
  import opened Js
  import opened Text
  import opened Seqs
  import opened Http
  import opened GmailService
  import opened EmailClassifier

  /** The webhook lists a single message. */
  const ListLimit: nat := 1

  datatype World = World(
    decode: string -> string,                 // `Buffer.from(s, 'base64').toString()`
    decodeOther: JsValue -> Result<string, string>, // `Buffer.from(v, 'base64')` on a value that is not a string
    parse: string -> Result<JsValue, string>, // `JSON.parse`
    authError: Option<string>,                // `auth.getClient()`
    listReply: Result<seq<MessageRef>, string>,
    details: string -> Result<MessageDetails, string>,
    classify: Classifier,
    moveFaults: MoveFaults)

  /** Where the checks on the request leave the handler. */
  datatype Intake = Respond(resp: Response) | Proceed(notification: JsValue)

  const InvalidFormat: string := "Invalid Pub/Sub message format"
  const NoData: string := "No data in message"

  /** `body.message.data ? <decoded and trimmed> : null`, with `None` for `null`. */
  function Payload(data: JsValue, w: World): Result<Option<string>, string> {
    if !Truthy(data) then Ok(None)
    else if data.Str? then Ok(Some(Trim(w.decode(data.s))))
    else
      match w.decodeOther(data)
      case Err(e) => Err(e)
      case Ok(text) => Ok(Some(Trim(text)))
  }

  /**
   * The checks before any call to Gmail: a body that does not parse or is `null` throws (500); a
   * missing or falsy `message` is a 400; a missing payload, or one that trims to nothing, is
   * acknowledged with 200; a payload that is not JSON, or parses to `null`, throws (500).
   */
  function CheckRequest(body: RequestBody, w: World): (r: Intake)
    ensures body.Unparseable? ==> r == Respond(Response(500, ErrorBody(body.reason)))
    ensures body.Parsed? && Prop(body.value, "message").Ok? && !Truthy(Prop(body.value, "message").value) ==>
      r == Respond(Response(400, ErrorBody(InvalidFormat)))
    ensures body.Parsed? && Prop(body.value, "message").Err? ==>
      r == Respond(Response(500, ErrorBody(Prop(body.value, "message").error)))
    ensures body.Parsed? && Prop(body.value, "message").Ok? && Truthy(Prop(body.value, "message").value) ==>
      var payload := Payload(Prop(Prop(body.value, "message").value, "data").value, w);
      && (payload.Err? ==> r == Respond(Response(500, ErrorBody(payload.error))))
      && (payload.Ok? && (payload.value.None? || payload.value.value == "") ==>
            r == Respond(Response(200, MessageBody(NoData))))
      && (payload.Ok? && payload.value.Some? && payload.value.value != "" ==>
            var parsed := w.parse(payload.value.value);
            && (parsed.Err? ==> r == Respond(Response(500, ErrorBody(parsed.error))))
            && (parsed.Ok? && !parsed.value.Null? && !parsed.value.Undefined? ==> r == Proceed(parsed.value))
            && (parsed.Ok? && (parsed.value.Null? || parsed.value.Undefined?) ==>
                  r.Respond? && r.resp.status == 500))
    ensures r.Respond? && r.resp.status == 200 ==> r.resp.body == MessageBody(NoData)
    ensures r.Proceed? ==> !r.notification.Null? && !r.notification.Undefined?
  {
    match body
    case Unparseable(reason) => Respond(Response(500, ErrorBody(reason)))
    case Parsed(v) =>
      match Prop(v, "message")
      case Err(e) => Respond(Response(500, ErrorBody(e)))
      case Ok(message) =>
        if !Truthy(message) then Respond(Response(400, ErrorBody(InvalidFormat)))
        else
          match Payload(Prop(message, "data").value, w)
          case Err(e) => Respond(Response(500, ErrorBody(e)))
          case Ok(data) =>
            if data.None? || data.value == "" then Respond(Response(200, MessageBody(NoData)))
            else
              match w.parse(data.value)
              case Err(e) => Respond(Response(500, ErrorBody(e)))
              case Ok(notification) =>
                match Prop(notification, "historyId")
                case Err(e) => Respond(Response(500, ErrorBody(e)))
                case Ok(_) => Proceed(notification)
  }

  /** The response and what the handler did to the mailbox. */
  datatype Effect = Effect(resp: Response, requests: seq<Request>, labels: seq<Label>,
                           messageLabels: map<string, set<string>>)

  function Fail(message: string, requests: seq<Request>, labels: seq<Label>,
                messageLabels: map<string, set<string>>): Effect {
    Effect(Response(500, ErrorBody(message)), requests, labels, messageLabels)
  }

  /** The message's details as the classifier sees them: the snippet doubles as the body. */
  function InputOf(d: MessageDetails): EmailInput {
    var snippet := SnippetOf(d);
    EmailInput(HeaderOr(d, "Subject", "No Subject"), HeaderOr(d, "From", "Unknown Sender"), snippet, Some(snippet))
  }

  /** Moving the classified message: the requests are the move's alone. */
  function Place(w: World, id: string, category: string, labels: seq<Label>,
                 messageLabels: map<string, set<string>>): Effect {
    var moved := MoveResult(labels, messageLabels, id, category, w.moveFaults);
    Effect(if moved.Ok? then Json(StatusBody("success")) else Response(500, ErrorBody(moved.error)),
           MoveSent(labels, id, category, w.moveFaults),
           LabelsAfterMove(labels, category, w.moveFaults),
           MessageLabelsAfterMove(labels, messageLabels, id, category, w.moveFaults))
  }

  /** Sorting the listed message `id`: fetch it in full, classify it, move it. */
  function Sort(w: World, id: string, labels: seq<Label>, messageLabels: map<string, set<string>>): Effect {
    var fetched := [GetMessageRequest(id, Full)];
    match w.details(id)
    case Err(e) => Fail(e, fetched, labels, messageLabels)
    case Ok(d) =>
      match w.classify(InputOf(d))
      case Err(e) => Fail(e, fetched, labels, messageLabels)
      case Ok(c) =>
        var placed := Place(w, id, c.category, labels, messageLabels);
        placed.(requests := fetched + placed.requests)
  }

  /**
   * The Gmail part, which does not look at the notification at all: list one unread message and,
   * when there is one with an id, sort it.
   */
  function Deliver(w: World, labels: seq<Label>, messageLabels: map<string, set<string>>): Effect {
    if w.authError.Some? then Fail(w.authError.value, [], labels, messageLabels)
    else
      var listed := [ListMessagesRequest(InboxUnreadQuery, ListLimit)];
      match w.listReply
      case Err(e) => Fail(e, listed, labels, messageLabels)
      case Ok(all) =>
        var messages := Take(all, ListLimit);
        if messages == [] then Effect(Json(StatusBody("success")), listed, labels, messageLabels)
        else if !HasText(messages[0].id) then Effect(Json(MessageBody("No message ID found")), listed, labels, messageLabels)
        else
          var sorted := Sort(w, messages[0].id.value, labels, messageLabels);
          sorted.(requests := listed + sorted.requests)
  }

  /**
   * With nothing to sort (an empty listing, or a first message without an id) the listing is the
   * only request, the answer is "success" or "No message ID found", and the mailbox is unchanged.
   */
  lemma NothingToSortOnlyLists(body: RequestBody, w: World, labels: seq<Label>,
                               messageLabels: map<string, set<string>>)
    requires CheckRequest(body, w).Proceed? && w.authError.None? && w.listReply.Ok?
    ensures var e := Handle(body, w, labels, messageLabels);
            var listed := [ListMessagesRequest(InboxUnreadQuery, ListLimit)];
            && (w.listReply.value == [] ==> e == Effect(Json(StatusBody("success")), listed, labels, messageLabels))
            && (w.listReply.value != [] && !HasText(w.listReply.value[0].id) ==>
                  e == Effect(Json(MessageBody("No message ID found")), listed, labels, messageLabels))
  {
  }

  /** The whole handler. */
  function Handle(body: RequestBody, w: World, labels: seq<Label>, messageLabels: map<string, set<string>>): Effect {
    match CheckRequest(body, w)
    case Respond(resp) => Effect(resp, [], labels, messageLabels)
    case Proceed(_) => Deliver(w, labels, messageLabels)
  }

  /**
   * A request the checks answer makes no call to Gmail: a 400 for a missing message, the 200
   * acknowledgement of an empty payload, and the 500 of a payload that is not JSON.
   */
  lemma RejectedRequestsTouchNothing(body: RequestBody, w: World, labels: seq<Label>,
                                     messageLabels: map<string, set<string>>)
    requires CheckRequest(body, w).Respond?
    ensures Handle(body, w, labels, messageLabels) == Effect(CheckRequest(body, w).resp, [], labels, messageLabels)
    ensures CheckRequest(body, w).resp.status in {200, 400, 500}
  {
  }

  /** An empty payload is acknowledged, whatever else the world would answer. */
  lemma EmptyPayloadAcknowledged(v: JsValue, w: World, labels: seq<Label>, messageLabels: map<string, set<string>>)
    requires Prop(v, "message").Ok? && Truthy(Prop(v, "message").value)
    requires var data := Prop(Prop(v, "message").value, "data").value;
             !Truthy(data) || (data.Str? && Trim(w.decode(data.s)) == "")
    ensures Handle(Parsed(v), w, labels, messageLabels) == Effect(Response(200, MessageBody(NoData)), [], labels, messageLabels)
  {
  }

  /** A payload that is not JSON makes the handler fail with the parser's message, before any call. */
  lemma BadJsonFails(v: JsValue, w: World, labels: seq<Label>, messageLabels: map<string, set<string>>, text: string)
    requires Prop(v, "message").Ok? && Truthy(Prop(v, "message").value)
    requires Payload(Prop(Prop(v, "message").value, "data").value, w) == Ok(Some(text)) && text != ""
    requires w.parse(text).Err?
    ensures Handle(Parsed(v), w, labels, messageLabels)
            == Effect(Response(500, ErrorBody(w.parse(text).error)), [], labels, messageLabels)
  {
  }

  /**
   * At most one message is handled per notification: the only listing asks for a single message,
   * at most one message is fetched, and at most one modify request is sent, as the last request.
   */
  lemma AtMostOneMessage(body: RequestBody, w: World, labels: seq<Label>, messageLabels: map<string, set<string>>)
    ensures var rs := Handle(body, w, labels, messageLabels).requests;
            && (|rs| > 0 ==> rs[0] == ListMessagesRequest(InboxUnreadQuery, ListLimit))
            && (forall i | 1 <= i < |rs| :: !rs[i].ListMessagesRequest?)
            && (forall i | 0 <= i < |rs| && i != 1 :: !rs[i].GetMessageRequest?)
            && (forall i | 0 <= i < |rs| - 1 :: !rs[i].ModifyRequest?)
  {
    if CheckRequest(body, w).Proceed? && w.authError.None? && w.listReply.Ok? {
      var messages := Take(w.listReply.value, ListLimit);
      if messages != [] && HasText(messages[0].id) {
        var id := messages[0].id.value;
        var sorted := Sort(w, id, labels, messageLabels);
        assert Handle(body, w, labels, messageLabels).requests
               == [ListMessagesRequest(InboxUnreadQuery, ListLimit)] + sorted.requests;
        SortRequests(w, id, labels, messageLabels);
      }
    }
  }

  /** Sorting fetches the message once, as its first request, and moves it at most once, last. */
  lemma SortRequests(w: World, id: string, labels: seq<Label>, messageLabels: map<string, set<string>>)
    ensures var rs := Sort(w, id, labels, messageLabels).requests;
            && |rs| >= 1 && rs[0] == GetMessageRequest(id, Full)
            && (forall i | 0 <= i < |rs| :: !rs[i].ListMessagesRequest?)
            && (forall i | 1 <= i < |rs| :: !rs[i].GetMessageRequest?)
            && (forall i | 0 <= i < |rs| - 1 :: !rs[i].ModifyRequest?)
  {
    if w.details(id).Ok? && w.classify(InputOf(w.details(id).value)).Ok? {
      var category := w.classify(InputOf(w.details(id).value)).value.category;
      PlaceRequests(w, id, category, labels, messageLabels);
    }
  }

  /** The move sends neither a listing nor a fetch, and a modify request only as its last request. */
  lemma PlaceRequests(w: World, id: string, category: string, labels: seq<Label>,
                      messageLabels: map<string, set<string>>)
    ensures var rs := Place(w, id, category, labels, messageLabels).requests;
            && (forall i | 0 <= i < |rs| :: !rs[i].ListMessagesRequest? && !rs[i].GetMessageRequest?)
            && (forall i | 0 <= i < |rs| - 1 :: !rs[i].ModifyRequest?)
  {
    if w.moveFaults.listLabels.None? {
      ModifyOnlyWhenResolved(labels, id, category, w.moveFaults.createReply);
    }
  }

  /**
   * When the message is moved, it is the first listed message, and it goes into the category the
   * classifier gave for its subject, sender and snippet, with the snippet as the body.
   */
  lemma MovesTheListedMessage(body: RequestBody, w: World, labels: seq<Label>, messageLabels: map<string, set<string>>)
    requires Handle(body, w, labels, messageLabels).resp == Json(StatusBody("success"))
    requires CheckRequest(body, w).Proceed? && w.listReply.Ok? && Take(w.listReply.value, ListLimit) != []
    ensures var id := w.listReply.value[0].id.value;
            var d := w.details(id).value;
            var c := w.classify(InputOf(d)).value;
            && HasText(w.listReply.value[0].id) && w.details(id).Ok?
            && MoveResult(labels, messageLabels, id, c.category, w.moveFaults).Ok?
            && Handle(body, w, labels, messageLabels).messageLabels
               == MessageLabelsAfterMove(labels, messageLabels, id, c.category, w.moveFaults)
  {
  }

  /** `POST /api/process-email` against a mailbox. */
  method Post(mailbox: Mailbox, body: RequestBody, w: World) returns (resp: Response)
    modifies mailbox`sent, mailbox`labels, mailbox`messageLabels
    ensures var e := Handle(body, w, old(mailbox.labels), old(mailbox.messageLabels));
            && resp == e.resp && mailbox.sent == old(mailbox.sent) + e.requests
            && mailbox.labels == e.labels && mailbox.messageLabels == e.messageLabels
  {
    var intake := CheckRequest(body, w);
    if intake.Respond? {
      return intake.resp;
    }
    resp := DeliverTo(mailbox, w);
  }

  /** The Gmail part of the handler against the mailbox. */
  method DeliverTo(mailbox: Mailbox, w: World) returns (resp: Response)
    modifies mailbox`sent, mailbox`labels, mailbox`messageLabels
    ensures var e := Deliver(w, old(mailbox.labels), old(mailbox.messageLabels));
            && resp == e.resp && mailbox.sent == old(mailbox.sent) + e.requests
            && mailbox.labels == e.labels && mailbox.messageLabels == e.messageLabels
  {
    if w.authError.Some? {
      return Response(500, ErrorBody(w.authError.value));
    }
    var listed := mailbox.ListMessages(InboxUnreadQuery, ListLimit, w.listReply);
    if listed.Err? {
      return Response(500, ErrorBody(listed.error));
    }
    var messages := listed.value;
    if |messages| > 0 {
      var messageId := messages[0].id;
      if !HasText(messageId) {
        return Json(MessageBody("No message ID found"));
      }
      resp := SortMessage(mailbox, messageId.value, w);
      assert mailbox.sent == old(mailbox.sent) + [ListMessagesRequest(InboxUnreadQuery, ListLimit)]
             + Sort(w, messageId.value, old(mailbox.labels), old(mailbox.messageLabels)).requests;
      return;
    }
    resp := Json(StatusBody("success"));
  }

  /** Fetching, classifying and moving one listed message. */
  method SortMessage(mailbox: Mailbox, messageId: string, w: World) returns (resp: Response)
    modifies mailbox`sent, mailbox`labels, mailbox`messageLabels
    ensures var e := Sort(w, messageId, old(mailbox.labels), old(mailbox.messageLabels));
            && resp == e.resp && mailbox.sent == old(mailbox.sent) + e.requests
            && mailbox.labels == e.labels && mailbox.messageLabels == e.messageLabels
  {
    var messageDetails := mailbox.GetMessage(messageId, Full, w.details(messageId));
    if messageDetails.Err? {
      return Response(500, ErrorBody(messageDetails.error));
    }
    var subject := HeaderOr(messageDetails.value, "Subject", "No Subject");
    var sender := HeaderOr(messageDetails.value, "From", "Unknown Sender");
    var snippet := SnippetOf(messageDetails.value);
    var bodyContent := snippet;
    var classification := w.classify(EmailInput(subject, sender, snippet, Some(bodyContent)));
    if classification.Err? {
      return Response(500, ErrorBody(classification.error));
    }
    var moved := mailbox.MoveEmailToCategory(messageId, classification.value.category, w.moveFaults);
    if moved.Err? {
      return Response(500, ErrorBody(moved.error));
    }
    resp := Json(StatusBody("success"));
  }
}
