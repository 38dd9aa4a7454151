/**
  The WhatsApp webhook endpoints: the subscription handshake, and the
  receiver that takes the first message out of a notification and picks the
  reply. The session collection is a map from phone number to session,
  the verify token of the configuration is a parameter, and whether the
  database handle can be obtained is the flag `dbUp`.
 */
module Webhook {
  import opened Wrappers
  import opened Menu
  import opened Cart
  import opened Chat

  /** The answer to the handshake: an HTTP error or the challenge echoed back with 200. */
  datatype VerifyResponse = BadRequest | Forbidden | Challenge(body: string)

  /** `verify_webhook`: the mode is checked before the token. */
  function VerifyWebhook(mode: string, token: string, challenge: string, configuredToken: string): (r: VerifyResponse)
    ensures r == BadRequest <==> mode != "subscribe"
    ensures r == Forbidden <==> mode == "subscribe" && token != configuredToken
    ensures r.Challenge? <==> mode == "subscribe" && token == configuredToken
    ensures r.Challenge? ==> r.body == challenge
  {
    if mode != "subscribe" then BadRequest
    else if token != configuredToken then Forbidden
    else Challenge(challenge)
  }

  // ---------------------------------------------------------------------
  // Notification payload: entry[] -> changes[] -> value -> messages[]

  /** The `text` object of a message; `body` possibly absent. */
  datatype TextPart = TextPart(body: Option<string>)

  /** One message: the sender, the type, and the `text` object when present. */
  datatype Message = Message(sender: string, msgType: Option<string>, text: Option<TextPart>)

  /** A `value` object; an absent `messages` list is `[]`, as is an absent `value`. */
  datatype Value = Value(messages: seq<Message>)

  datatype Change = Change(value: Value)

  datatype Entry = Entry(changes: seq<Change>)

  datatype Payload = Payload(entry: seq<Entry>)

  /** The message the receiver acts on: sender, whether it is a text, and its text body. */
  datatype Inbound = Inbound(sender: string, isText: bool, textBody: string)

  /** The notification holds at least one message under its first entry and first change. */
  predicate CarriesMessage(p: Payload) {
    p.entry != [] && p.entry[0].changes != [] && p.entry[0].changes[0].value.messages != []
  }

  /**
    The first message of the first change of the first entry, or `None` when
    any of the three lists is empty. Only a message of type "text" has a
    body; it is "" when the text object or its body is missing.
   */
  function ExtractMessage(p: Payload): (r: Option<Inbound>)
    ensures r.None? <==> !CarriesMessage(p)
    ensures r.Some? ==>
      var m := p.entry[0].changes[0].value.messages[0];
      && r.value.sender == m.sender
      && (r.value.isText <==> m.msgType == Some("text"))
      && (!r.value.isText ==> r.value.textBody == "")
      && (r.value.isText && m.text.Some? && m.text.value.body.Some? ==> r.value.textBody == m.text.value.body.value)
      && (r.value.isText && (m.text.None? || m.text.value.body.None?) ==> r.value.textBody == "")
  {
    if p.entry == [] then None
    else
      var changes := p.entry[0].changes;
      if changes == [] then None
      else
        var messages := changes[0].value.messages;
        if messages == [] then None
        else
          var m := messages[0];
          var isText := m.msgType == Some("text");
          var body := if isText then (m.text.GetOr(TextPart(None))).body.GetOr("") else "";
          Some(Inbound(m.sender, isText, body))
  }

  /** The status the receiver answers with. */
  datatype Status = Ignored | Ok

  /** The reply sent back to the sender. */
  datatype OutReply = ChatReply(reply: Reply) | OnlyTextReply | ApologyReply

  /** The session map with one phone's session saved (or left as it was). */
  function Saved(store: map<string, Session>, phone: string, write: Option<Session>): (s: map<string, Session>)
    ensures forall p :: p != phone ==> (p in s <==> p in store) && (p in store ==> s[p] == store[p])
    ensures write.Some? ==> phone in s && s[phone] == write.value
    ensures write.None? ==> s == store
  {
    if write.Some? then store[phone := write.value] else store
  }

  /**
    `receive_webhook`: a notification without a message is ignored; a
    message that is not text gets the fixed "text only" reply; a text goes
    through the chat state machine with the sender's stored session. If the
    database handle cannot be obtained the reply is the apology. Only the
    sender's session can change: `write` is what the chat step saves for
    the sender, and reply, write and order are those of `HandleUserMessage`.
   */
  method ReceiveWebhook(p: Payload, store: map<string, Session>, snap: Snapshot, now: string, dbUp: bool)
    returns (status: Status, reply: Option<OutReply>, newStore: map<string, Session>, order: Option<ChatOrder>,
             ghost write: Option<Session>)
    ensures newStore == (if CarriesMessage(p) then Saved(store, ExtractMessage(p).value.sender, write) else store)
    ensures !CarriesMessage(p) ==> status == Ignored && reply == None && newStore == store && order == None
    ensures CarriesMessage(p) ==> status == Ok && reply.Some?
    ensures CarriesMessage(p) && !dbUp ==> reply == Some(ApologyReply) && write == None && newStore == store && order == None
    ensures CarriesMessage(p) && dbUp && !ExtractMessage(p).value.isText ==>
      reply == Some(OnlyTextReply) && write == None && newStore == store && order == None
    ensures CarriesMessage(p) && dbUp && ExtractMessage(p).value.isText ==>
      var m := ExtractMessage(p).value;
      && reply.value.ChatReply?
      && (forall q :: q != m.sender ==> (q in newStore <==> q in store) && (q in store ==> newStore[q] == store[q]))
      && (newStore != store ==> m.sender in newStore && SavedStep(LoadSession(store, m.sender), Normalize(m.textBody), m.textBody, Some(newStore[m.sender])))
      && (order.Some? ==> order.value.customerPhone == m.sender && order.value.items == LoadSession(store, m.sender).cart)
    ensures CarriesMessage(p) && dbUp && ExtractMessage(p).value.isText ==>
      var m := ExtractMessage(p).value;
      var session := LoadSession(store, m.sender);
      var text := Normalize(m.textBody);
      && (text in RestartWords ==>
            && write == Some(Cleared(session, ShowMenu)) && order == None
            && reply.value.reply.MainMenu? && NumberedMenu(reply.value.reply.entries, CategoriesOf(snap)))
      && (order.Some? <==> text !in RestartWords && session.state == ConfirmOrder && text in ConfirmYes)
      && (order.Some? ==> write == Some(Cleared(session, Idle)))
      && (text !in RestartWords ==> StateRule(text, m.textBody, m.sender, session, snap, now, reply.value.reply, write, order))
      && SavedStep(session, text, m.textBody, write)
    ensures order.Some? ==> order.value.totalPrice == Subtotal(order.value.items) && order.value.status == "new"
  {
    newStore := store;
    order := None;
    write := None;
    var inbound := ExtractMessage(p);
    if inbound.None? {
      return Ignored, None, store, None, None;
    }
    var m := inbound.value;
    status := Ok;
    if !dbUp {
      reply := Some(ApologyReply);
    } else if m.isText {
      var session := LoadSession(store, m.sender);
      var r, w, o := HandleUserMessage(m.textBody, m.sender, session, snap, now);
      reply := Some(ChatReply(r));
      newStore := Saved(store, m.sender, w);
      order := o;
      write := w;
    } else {
      reply := Some(OnlyTextReply);
    }
  }
}
