/**
 * The Gmail side of the system: the user's labels, the labels of each message, and the requests
 * the handlers send. The server's replies (listings, message details, the reply to a label
 * creation, failures) are parameters; the mailbox records every request it is sent, so the model
 * can say which calls a handler makes and in which order.
 */
module GmailService {
  import opened Wrappers
  import opened Seqs

  datatype Label = Label(id: string, name: string)

  /** An error the API raises, with its HTTP status code. */
  datatype ApiError = ApiError(code: int, message: string)

  datatype Format = Metadata(headers: seq<string>) | Full

  datatype Request =
    | ListMessagesRequest(query: string, maxResults: nat)
    | GetMessageRequest(id: string, format: Format)
    | ListLabelsRequest
    | CreateLabelRequest(name: string)
    | ModifyRequest(id: string, addLabelIds: seq<string>, removeLabelIds: seq<string>)

  /** An entry of a message listing; its `id` may be missing. */
  datatype MessageRef = MessageRef(id: Option<string>)

  datatype Header = Header(name: string, value: string)

  /** What `messages.get` returns: `payload.headers` and `snippet`, each possibly missing. */
  datatype MessageDetails = MessageDetails(headers: Option<seq<Header>>, snippet: Option<string>)

  /** A string that is present and non-empty, i.e. truthy. */
  predicate HasText(v: Option<string>) {
    v.Some? && v.value != ""
  }

  /** `headers.find(h => h.name === name)?.value`: the value of the first header with that name. */
  function FindHeader(headers: seq<Header>, name: string): (r: Option<string>)
    ensures r.None? <==> forall i | 0 <= i < |headers| :: headers[i].name != name
    ensures r.Some? ==> exists i | 0 <= i < |headers| ::
      headers[i].name == name && headers[i].value == r.value && forall k | 0 <= k < i :: headers[k].name != name
  {
    if headers == [] then None
    else if headers[0].name == name then Some(headers[0].value)
    else
      var r := FindHeader(headers[1..], name);
      if r.Some? then
        var i :| 0 <= i < |headers[1..]| && headers[1..][i].name == name && headers[1..][i].value == r.value
                 && forall k | 0 <= k < i :: headers[1..][k].name != name;
        assert headers[i + 1].name == name && headers[i + 1].value == r.value;
        r
      else r
  }

  /** `headers?.find(h => h.name === name)?.value || fallback` */
  function HeaderOr(details: MessageDetails, name: string, fallback: string): (r: string)
    ensures details.headers.Some? && HasText(FindHeader(details.headers.value, name)) ==>
      r == FindHeader(details.headers.value, name).value
    ensures details.headers.None? || !HasText(FindHeader(details.headers.value, name)) ==> r == fallback
  {
    var v := if details.headers.Some? then FindHeader(details.headers.value, name) else None;
    if HasText(v) then v.value else fallback
  }

  /** `snippet || ''` */
  function SnippetOf(details: MessageDetails): string {
    details.snippet.GetOr("")
  }

  /** `labels?.find(l => l.name === name)?.id`: the id of the first label with exactly that name. */
  function FindLabelId(labels: seq<Label>, name: string): (r: Option<string>)
    ensures r.None? <==> forall i | 0 <= i < |labels| :: labels[i].name != name
    ensures r.Some? ==> exists i | 0 <= i < |labels| ::
      labels[i].name == name && labels[i].id == r.value && forall k | 0 <= k < i :: labels[k].name != name
  {
    if labels == [] then None
    else if labels[0].name == name then Some(labels[0].id)
    else
      var r := FindLabelId(labels[1..], name);
      if r.Some? then
        var i :| 0 <= i < |labels[1..]| && labels[1..][i].name == name && labels[1..][i].id == r.value
                 && forall k | 0 <= k < i :: labels[1..][k].name != name;
        assert labels[i + 1].name == name && labels[i + 1].id == r.value;
        r
      else r
  }

  /**
   * What `createLabel` returns for the server's reply to the creation: the new label, `null` for a
   * 409 (the label already exists), and every other error rethrown.
   */
  function CreateLabelResult(name: string, reply: Result<string, ApiError>): (r: Result<Option<Label>, ApiError>)
    ensures reply.Ok? ==> r == Ok(Some(Label(reply.value, name)))
    ensures reply.Err? && reply.error.code == 409 ==> r == Ok(None)
    ensures reply.Err? && reply.error.code != 409 ==> r == Err(reply.error)
  {
    match reply
    case Ok(id) => Ok(Some(Label(id, name)))
    case Err(e) => if e.code == 409 then Ok(None) else Err(e)
  }

  const Inbox: string := "INBOX"

  /** The search both handlers list messages with: unread messages in the inbox. */
  const InboxUnreadQuery: string := "label:INBOX is:unread"

  /** The message of the error thrown when no label id could be obtained. */
  function UnresolvedMessage(category: string): string {
    "Could not find or create label for category: " + category
  }

  /** The message of the API's 404 for a message id it does not know. */
  const NotFoundMessage: string := "Requested entity was not found."

  /** How the label lookup of `moveEmailToCategory` ends. */
  datatype Resolution = Resolved(id: string) | Unresolved | CreateFailed(error: ApiError)

  /**
   * The label id `moveEmailToCategory` settles on: a truthy id of the first label with that exact
   * name; otherwise the created label's id, which a 409 leaves `null`.
   */
  function Resolve(labels: seq<Label>, category: string, createReply: Result<string, ApiError>): Resolution {
    var found := FindLabelId(labels, category);
    if HasText(found) then Resolved(found.value)
    else
      match CreateLabelResult(category, createReply)
      case Err(e) => CreateFailed(e)
      case Ok(created) => if created.Some? && created.value.id != "" then Resolved(created.value.id) else Unresolved
  }

  /** The requests of one `moveEmailToCategory` after the label listing succeeded, in order. */
  function MoveRequests(labels: seq<Label>, messageId: string, category: string,
                        createReply: Result<string, ApiError>): seq<Request> {
    [ListLabelsRequest]
    + (if HasText(FindLabelId(labels, category)) then [] else [CreateLabelRequest(category)])
    + (match Resolve(labels, category, createReply)
       case Resolved(id) => [ModifyRequest(messageId, [id], [Inbox])]
       case _ => [])
  }

  /** The labels after the lookup: a label is added exactly when one was created. */
  function LabelsAfter(labels: seq<Label>, category: string, createReply: Result<string, ApiError>): seq<Label> {
    if !HasText(FindLabelId(labels, category)) && createReply.Ok?
    then labels + [Label(createReply.value, category)]
    else labels
  }

  /** The failures the server may answer one move with. */
  datatype MoveFaults = MoveFaults(listLabels: Option<string>, createReply: Result<string, ApiError>,
                                   modifyFault: Option<string>)

  /** The label set of a message after a successful modify: `INBOX` removed, the label added. */
  function Relabel(current: set<string>, labelId: string): set<string> {
    current - {Inbox} + {labelId}
  }

  /** Every request one `moveEmailToCategory` sends, in order. */
  function MoveSent(labels: seq<Label>, messageId: string, category: string, faults: MoveFaults): seq<Request> {
    if faults.listLabels.Some? then [ListLabelsRequest]
    else MoveRequests(labels, messageId, category, faults.createReply)
  }

  function LabelsAfterMove(labels: seq<Label>, category: string, faults: MoveFaults): seq<Label> {
    if faults.listLabels.Some? then labels else LabelsAfter(labels, category, faults.createReply)
  }

  /**
   * How one `moveEmailToCategory` ends: the id of the label the message was moved into, or the
   * message of the error it throws.
   */
  function MoveResult(labels: seq<Label>, messageLabels: map<string, set<string>>, messageId: string,
                      category: string, faults: MoveFaults): (r: Result<string, string>)
    ensures r.Ok? ==> messageId in messageLabels && Resolve(labels, category, faults.createReply) == Resolved(r.value)
    ensures faults.listLabels.Some? ==> r == Err(faults.listLabels.value)
    ensures faults.listLabels.None? ==>
      match Resolve(labels, category, faults.createReply)
      case CreateFailed(e) => r == Err(e.message)
      case Unresolved => r == Err(UnresolvedMessage(category))
      case Resolved(id) =>
        if faults.modifyFault.Some? then r == Err(faults.modifyFault.value)
        else r == (if messageId in messageLabels then Ok(id) else Err(NotFoundMessage))
  {
    if faults.listLabels.Some? then Err(faults.listLabels.value)
    else
      match Resolve(labels, category, faults.createReply)
      case CreateFailed(e) => Err(e.message)
      case Unresolved => Err(UnresolvedMessage(category))
      case Resolved(id) =>
        if faults.modifyFault.Some? then Err(faults.modifyFault.value)
        else if messageId !in messageLabels then Err(NotFoundMessage)
        else Ok(id)
  }

  /** The labels of every message after the move: only a successful move changes them. */
  function MessageLabelsAfterMove(labels: seq<Label>, messageLabels: map<string, set<string>>, messageId: string,
                                  category: string, faults: MoveFaults): map<string, set<string>> {
    var r := MoveResult(labels, messageLabels, messageId, category, faults);
    if r.Ok? then messageLabels[messageId := Relabel(messageLabels[messageId], r.value)] else messageLabels
  }

  /**
   * A successful move leaves the message out of the inbox and in the category's label, and touches
   * no other message; a failed one changes no message.
   */
  lemma MoveEffect(labels: seq<Label>, messageLabels: map<string, set<string>>, messageId: string,
                   category: string, faults: MoveFaults)
    ensures var r := MoveResult(labels, messageLabels, messageId, category, faults);
            var after := MessageLabelsAfterMove(labels, messageLabels, messageId, category, faults);
            && after.Keys == messageLabels.Keys
            && (forall m | m in messageLabels && m != messageId :: after[m] == messageLabels[m])
            && (r.Ok? ==> r.value in after[messageId] && (r.value != Inbox ==> Inbox !in after[messageId]))
            && (r.Err? ==> after == messageLabels)
  {
  }

  /** A move succeeds only into a label named exactly after the category. */
  lemma MoveTargetsCategory(labels: seq<Label>, messageLabels: map<string, set<string>>, messageId: string,
                            category: string, faults: MoveFaults)
    requires MoveResult(labels, messageLabels, messageId, category, faults).Ok?
    ensures var id := MoveResult(labels, messageLabels, messageId, category, faults).value;
            Label(id, category) in LabelsAfterMove(labels, category, faults)
  {
    var id := MoveResult(labels, messageLabels, messageId, category, faults).value;
    var found := FindLabelId(labels, category);
    if HasText(found) {
      var i :| 0 <= i < |labels| && labels[i].name == category && labels[i].id == found.value
               && forall k | 0 <= k < i :: labels[k].name != category;
      assert labels[i] == Label(id, category);
    } else {
      var after := LabelsAfterMove(labels, category, faults);
      assert after[|after| - 1] == Label(id, category);
    }
  }

  /** A lookup that finds a label with a truthy id uses the first one and creates nothing. */
  lemma ResolveFound(labels: seq<Label>, messageId: string, category: string, createReply: Result<string, ApiError>,
                     i: int)
    requires 0 <= i < |labels| && labels[i].name == category && labels[i].id != ""
    requires forall k | 0 <= k < i :: labels[k].name != category
    ensures Resolve(labels, category, createReply) == Resolved(labels[i].id)
    ensures MoveRequests(labels, messageId, category, createReply)
            == [ListLabelsRequest, ModifyRequest(messageId, [labels[i].id], [Inbox])]
    ensures LabelsAfter(labels, category, createReply) == labels
  {
    var found := FindLabelId(labels, category);
    var j :| 0 <= j < |labels| && labels[j].name == category && labels[j].id == found.value
             && forall k | 0 <= k < j :: labels[k].name != category;
    assert j == i;
  }

  /** The label is created exactly when the lookup yields no truthy id. */
  lemma CreateOnlyOnMiss(labels: seq<Label>, messageId: string, category: string, createReply: Result<string, ApiError>)
    ensures CreateLabelRequest(category) in MoveRequests(labels, messageId, category, createReply)
            <==> !HasText(FindLabelId(labels, category))
  {
  }

  /**
   * A modify request is sent exactly when a label id was obtained; it names the message, adds
   * exactly that label and removes exactly `INBOX`, and it is the last request.
   */
  lemma ModifyOnlyWhenResolved(labels: seq<Label>, messageId: string, category: string,
                               createReply: Result<string, ApiError>)
    ensures var rs := MoveRequests(labels, messageId, category, createReply);
            && (exists i | 0 <= i < |rs| :: rs[i].ModifyRequest?) <==> Resolve(labels, category, createReply).Resolved?
    ensures var rs := MoveRequests(labels, messageId, category, createReply);
            Resolve(labels, category, createReply).Resolved? ==>
              rs[|rs| - 1] == ModifyRequest(messageId, [Resolve(labels, category, createReply).id], [Inbox])
  {
    var rs := MoveRequests(labels, messageId, category, createReply);
    if Resolve(labels, category, createReply).Resolved? {
      assert rs[|rs| - 1].ModifyRequest?;
    } else {
      assert forall i | 0 <= i < |rs| :: !rs[i].ModifyRequest?;
    }
  }

  /** On a miss, a 409 from the creation leaves no id, so the move fails naming the category. */
  lemma ConflictUnresolved(labels: seq<Label>, category: string, message: string)
    requires !HasText(FindLabelId(labels, category))
    ensures Resolve(labels, category, Err(ApiError(409, message))) == Unresolved
    ensures LabelsAfter(labels, category, Err(ApiError(409, message))) == labels
  {
  }

  class Mailbox {
    var labels: seq<Label>
    /** The label ids of each message the mailbox holds. */
    var messageLabels: map<string, set<string>>
    /** Every request sent to the API so far, oldest first. */
    var sent: seq<Request>

    constructor (labels0: seq<Label>, messageLabels0: map<string, set<string>>)
      ensures labels == labels0 && messageLabels == messageLabels0 && sent == []
    {
      labels, messageLabels, sent := labels0, messageLabels0, [];
    }

    /** `messages.list`: the server's listing, cut at `maxResults`. */
    method ListMessages(query: string, maxResults: nat, reply: Result<seq<MessageRef>, string>)
      returns (r: Result<seq<MessageRef>, string>)
      modifies this`sent
      ensures sent == old(sent) + [ListMessagesRequest(query, maxResults)]
      ensures reply.Err? ==> r == Err(reply.error)
      ensures reply.Ok? ==> r == Ok(Take(reply.value, maxResults))
    {
      sent := sent + [ListMessagesRequest(query, maxResults)];
      if reply.Err? {
        return Err(reply.error);
      }
      r := Ok(Take(reply.value, maxResults));
    }

    /** `messages.get` */
    method GetMessage(id: string, format: Format, reply: Result<MessageDetails, string>)
      returns (r: Result<MessageDetails, string>)
      modifies this`sent
      ensures sent == old(sent) + [GetMessageRequest(id, format)] && r == reply
    {
      sent := sent + [GetMessageRequest(id, format)];
      r := reply;
    }

    /** `listLabels` */
    method ListLabels(fault: Option<string>) returns (r: Result<seq<Label>, string>)
      modifies this`sent
      ensures sent == old(sent) + [ListLabelsRequest]
      ensures fault.Some? ==> r == Err(fault.value)
      ensures fault.None? ==> r == Ok(labels)
    {
      sent := sent + [ListLabelsRequest];
      if fault.Some? {
        return Err(fault.value);
      }
      r := Ok(labels);
    }

    /** `createLabel(name)`, the server answering `reply`: a created label joins the list. */
    method CreateLabel(name: string, reply: Result<string, ApiError>) returns (r: Result<Option<Label>, ApiError>)
      modifies this`sent, this`labels
      ensures sent == old(sent) + [CreateLabelRequest(name)]
      ensures labels == old(labels) + (if reply.Ok? then [Label(reply.value, name)] else [])
      ensures r == CreateLabelResult(name, reply)
    {
      sent := sent + [CreateLabelRequest(name)];
      if reply.Ok? {
        labels := labels + [Label(reply.value, name)];
      }
      r := CreateLabelResult(name, reply);
    }

    /** `messages.modify` adding one label and removing `INBOX`. */
    method Modify(id: string, labelId: string, fault: Option<string>) returns (r: Result<(), string>)
      modifies this`sent, this`messageLabels
      ensures sent == old(sent) + [ModifyRequest(id, [labelId], [Inbox])]
      ensures fault.Some? ==> r == Err(fault.value) && messageLabels == old(messageLabels)
      ensures fault.None? && id !in old(messageLabels) ==> r == Err(NotFoundMessage) && messageLabels == old(messageLabels)
      ensures fault.None? && id in old(messageLabels) ==>
        r == Ok(()) && messageLabels == old(messageLabels)[id := Relabel(old(messageLabels)[id], labelId)]
    {
      sent := sent + [ModifyRequest(id, [labelId], [Inbox])];
      if fault.Some? {
        return Err(fault.value);
      }
      if id !in messageLabels {
        return Err(NotFoundMessage);
      }
      messageLabels := messageLabels[id := Relabel(messageLabels[id], labelId)];
      r := Ok(());
    }

    /**
     * `moveEmailToCategory(messageId, category)`: list the labels afresh, take the first with that
     * exact name, create it on a miss, throw when there is still no id, and otherwise move the
     * message out of the inbox into the label.
     */
    method MoveEmailToCategory(messageId: string, category: string, faults: MoveFaults)
      returns (r: Result<(), string>)
      modifies this`sent, this`labels, this`messageLabels
      ensures sent == old(sent) + MoveSent(old(labels), messageId, category, faults)
      ensures labels == LabelsAfterMove(old(labels), category, faults)
      ensures messageLabels == MessageLabelsAfterMove(old(labels), old(messageLabels), messageId, category, faults)
      ensures var m := MoveResult(old(labels), old(messageLabels), messageId, category, faults);
              r == if m.Ok? then Ok(()) else Err(m.error)
    {
      var listed := ListLabels(faults.listLabels);
      if listed.Err? {
        return Err(listed.error);
      }
      var labelId := FindLabelId(listed.value, category);
      if !HasText(labelId) {
        var newLabel := CreateLabel(category, faults.createReply);
        if newLabel.Err? {
          return Err(newLabel.error.message);
        }
        labelId := if newLabel.value.Some? then Some(newLabel.value.value.id) else None;
      }
      if !HasText(labelId) {
        return Err(UnresolvedMessage(category));
      }
      r := Modify(messageId, labelId.value, faults.modifyFault);
    }
  }
}
