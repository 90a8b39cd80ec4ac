/** The test router itself: its session state, the handlers that react to
    each inbound message by updating that state and sending commands, the
    start-up sequence and the receive loop. Each handler is proved to do
    what the corresponding function of `Relay` says. */
module TestRouter {
  import opened Wire
  import opened Relay
  import opened Session
  import opened Transport

  /** Builds the recipient list for a routed message from the recipients
      mirror: the text entries the decoder accepts, in order. */
  method CollectRecipients(entries: seq<DatasetData>, decode: string -> Option<Relation>) returns (rs: seq<Relation>)
    ensures rs == Recipients(entries, decode)
    ensures |rs| == AcceptedCount(entries, decode)
  {
    rs := [];
    for i := 0 to |entries|
      invariant rs == Recipients(entries[..i], decode)
    {
      assert entries[..i + 1][..i] == entries[..i];
      var entry := entries[i];
      if entry.String? {
        var relation := decode(entry.text);
        if relation.Some? {
          rs := rs + [relation.value];
        }
      }
    }
    assert entries[..|entries|] == entries;
    RecipientsCountsAccepted(entries, decode);
  }

  class State {
    var recps: seq<DatasetData>
    var msgs: seq<DatasetData>

    function Mirror(): Mirrors
      reads this
    {
      Mirrors(recps, msgs)
    }

    /** Sends the start-up commands and starts with both mirrors empty.
        `page` is the page the UI library built for this client. */
    constructor Init(client: ClientChannel, page: UiPage)
      modifies client`sent
      ensures Mirror() == Empty
      ensures client.sent == old(client.sent) + StartupCommands(page)
    {
      client.Send(Message.Router(SetIdentityProperty("name", "Test Router")));
      client.Send(Message.Dataset(DatasetMessage.Subscribe(RecpPath)));
      client.Send(Message.Dataset(DatasetMessage.Subscribe(MessagesPath)));
      client.Send(Message.Router(RouterMessage.Subscribe(TestEvent)));
      client.Send(Message.Ui(SetPage(page)));
      recps := [];
      msgs := [];
    }

    method MsgHandler(client: ClientChannel, msg: Message, decode: string -> Option<Relation>)
      modifies this, client`sent
      ensures Mirror() == OnMessage(old(Mirror()), msg, decode).after
      ensures client.sent == old(client.sent) + OnMessage(old(Mirror()), msg, decode).sent
    {
      match msg
      case Ui(m) => UiHandler(client, m, decode);
      case Dataset(m) => DatasetHandler(client, m);
      case Router(m) => RouterHandler(client, m);
      case Error(_) =>
    }

    method DatasetHandler(client: ClientChannel, msg: DatasetMessage)
      modifies this, client`sent
      ensures Mirror() == OnDataset(old(Mirror()), msg).after
      ensures client.sent == old(client.sent) + OnDataset(old(Mirror()), msg).sent
    {
      if msg.Dataset? {
        var path, data := msg.path, msg.entries;
        if path == RecpPath {
          recps := data;
        } else if path == MessagesPath {
          msgs := data;
          if |msgs| > HistoryLimit {
            client.Send(Message.Dataset(DeleteElement(MessagesPath, 0)));
          }
        }
      }
    }

    /** Turns text typed into the two entry fields into commands; never
        changes the mirrors. */
    method UiHandler(client: ClientChannel, msg: UiMessage, decode: string -> Option<Relation>)
      modifies client`sent
      ensures Mirror() == old(Mirror())
      ensures client.sent == old(client.sent) + OnUi(old(Mirror()), msg, decode).sent
    {
      match msg
      case Input(elementId, _, change) =>
        if elementId == AddRecpId {
          if change.Text? {
            client.Send(Message.Dataset(Append(RecpPath, String(change.text))));
          }
        } else if elementId == SendMsgId {
          if change.Text? {
            var rs := CollectRecipients(recps, decode);
            client.Send(Message.Router(SendEvent(TestEvent, rs, String(change.text))));
          }
        } else {
          return;
        }
      case _ =>
    }

    /** Relays incoming `test_event` payloads into the messages collection;
        never changes the mirrors. */
    method RouterHandler(client: ClientChannel, msg: RouterMessage)
      modifies client`sent
      ensures Mirror() == old(Mirror())
      ensures client.sent == old(client.sent) + OnRouter(old(Mirror()), msg).sent
    {
      match msg
      case Event(name, _, data) =>
        if name == TestEvent {
          client.Send(Message.Dataset(Append(MessagesPath, data)));
        }
      case _ =>
    }
  }

  /** The program: start-up, then receive and handle until the channel is
      closed or the connection is denied. */
  method RunRelay(client: ClientChannel, page: UiPage, decode: string -> Option<Relation>) returns (state: State)
    requires client.Valid()
    modifies client`sent, client`pos
    ensures fresh(state) && client.Valid()
    ensures state.Mirror() == Serve(Empty, old(client.Pending()), decode).after
    ensures client.sent == old(client.sent) + SessionLog(page, old(client.Pending()), decode)
    ensures client.pos == old(client.pos) + Consumed(old(client.Pending()))
  {
    ghost var start := client.pos;
    ghost var total := Serve(Empty, client.Pending(), decode);
    state := new State.Init(client, page);
    ghost var before := client.sent;
    while true
      invariant client.Valid() && start <= client.pos
      invariant Consumed(client.incoming[start..]) == client.pos - start + Consumed(client.Pending())
      invariant Serve(state.Mirror(), client.Pending(), decode).after == total.after
      invariant client.sent + Serve(state.Mirror(), client.Pending(), decode).sent == before + total.sent
      decreases |client.incoming| - client.pos
    {
      ghost var pending := client.Pending();
      var response := client.Recv();
      match response
      case Some(Message(msg)) =>
        assert pending[1..] == client.Pending();
        state.MsgHandler(client, msg, decode);
      case Some(Denied(_)) =>
        break;
      case Some(OtherResponse(_)) =>
        assert pending[1..] == client.Pending();
      case None =>
        break;
    }
    assert before + total.sent == old(client.sent) + (StartupCommands(page) + total.sent);
  }
}
