/** What the relay does with one inbound message: the state of its two local
    mirrors afterwards and the commands it sends, as values. The imperative
    handlers of `TestRouter.State` are proved to agree with these functions. */
module Relay {
  import opened Wire

  const RecpPath: DatasetPath := Private(["Recp"])
  const MessagesPath: DatasetPath := Private(["Messages"])
  const TestEvent: string := "test_event"
  const AddRecpId: string := "Add Recp"
  const SendMsgId: string := "Send Msg"
  /** Above this many entries a `Messages` snapshot triggers one eviction. */
  const HistoryLimit: nat := 10

  /** The relay's session state: local copies of the two collections. */
  datatype Mirrors = Mirrors(recps: seq<DatasetData>, msgs: seq<DatasetData>)

  /** The state after handling something, and the commands sent meanwhile, in order. */
  datatype Reaction = Reaction(after: Mirrors, sent: seq<Message>)

  const Empty: Mirrors := Mirrors([], [])

  function Quiet(s: Mirrors): Reaction { Reaction(s, []) }

  /** The five commands sent at start-up, in order: both collections and the
      event are subscribed to before the page is sent, and the page comes last. */
  function StartupCommands(page: UiPage): (cs: seq<Message>)
    ensures |cs| == 5 && cs[|cs| - 1] == Message.Ui(SetPage(page))
    ensures Message.Dataset(DatasetMessage.Subscribe(RecpPath)) in cs[..4]
    ensures Message.Dataset(DatasetMessage.Subscribe(MessagesPath)) in cs[..4]
    ensures Message.Router(RouterMessage.Subscribe(TestEvent)) in cs[..4]
  {
    var cs := [ Message.Router(SetIdentityProperty("name", "Test Router")),
                Message.Dataset(DatasetMessage.Subscribe(RecpPath)),
                Message.Dataset(DatasetMessage.Subscribe(MessagesPath)),
                Message.Router(RouterMessage.Subscribe(TestEvent)),
                Message.Ui(SetPage(page)) ];
    assert cs[..4] == [cs[0], cs[1], cs[2], cs[3]];
    cs
  }

  // ----- recipients of a routed message -----

  /** The peer reference an entry stands for, if it is text the decoder accepts. */
  function Target(entry: DatasetData, decode: string -> Option<Relation>): Option<Relation>
  {
    match entry
    case String(t) => decode(t)
    case NonString(_) => None
  }

  predicate Accepts(entry: DatasetData, decode: string -> Option<Relation>)
  {
    Target(entry, decode).Some?
  }

  /** The recipient list built from the recipients mirror: the decoded text
      entries, in order, skipping the rest. */
  function Recipients(entries: seq<DatasetData>, decode: string -> Option<Relation>): (rs: seq<Relation>)
    ensures |rs| <= |entries|
  {
    if entries == [] then []
    else
      var last := entries[|entries| - 1];
      var front := Recipients(entries[..|entries| - 1], decode);
      match Target(last, decode)
      case Some(r) => front + [r]
      case None => front
  }

  /** Number of entries the decoder accepts, counted independently of `Recipients`. */
  function AcceptedCount(entries: seq<DatasetData>, decode: string -> Option<Relation>): nat
  {
    if entries == [] then 0
    else (if Accepts(entries[0], decode) then 1 else 0) + AcceptedCount(entries[1..], decode)
  }

  // ----- one inbound message -----

  /** Only a snapshot of a mirrored path replaces that mirror, and the only
      command ever sent is the eviction, when the new history overflows. */
  function OnDataset(s: Mirrors, m: DatasetMessage): (r: Reaction)
    ensures r.after.recps == s.recps || (m.Dataset? && m.path == RecpPath)
    ensures r.after.msgs == s.msgs || (m.Dataset? && m.path == MessagesPath)
    ensures r.sent == [] ||
            (r.sent == [Message.Dataset(DeleteElement(MessagesPath, 0))] && |r.after.msgs| > HistoryLimit)
  {
    match m
    case Dataset(path, entries) =>
      if path == RecpPath then Quiet(s.(recps := entries))
      else if path == MessagesPath then
        Reaction(s.(msgs := entries),
                 if |entries| > HistoryLimit then [Message.Dataset(DeleteElement(MessagesPath, 0))] else [])
      else Quiet(s)
    case _ => Quiet(s)
  }

  /** UI input never changes the mirrors, and only text input sends anything. */
  function OnUi(s: Mirrors, m: UiMessage, decode: string -> Option<Relation>): (r: Reaction)
    ensures r.after == s && |r.sent| <= 1
    ensures r.sent != [] ==> m.Input? && m.change.Text?
  {
    match m
    case Input(id, _, change) =>
      if id == AddRecpId then
        if change.Text? then Reaction(s, [Message.Dataset(Append(RecpPath, String(change.text)))])
        else Quiet(s)
      else if id == SendMsgId then
        if change.Text? then
          Reaction(s, [Message.Router(SendEvent(TestEvent, Recipients(s.recps, decode), String(change.text)))])
        else Quiet(s)
      else Quiet(s)
    case _ => Quiet(s)
  }

  /** Router messages never change the mirrors; the only command sent is an
      append of an incoming event's payload to `Messages`. */
  function OnRouter(s: Mirrors, m: RouterMessage): (r: Reaction)
    ensures r.after == s
    ensures r.sent == [] || (m.Event? && r.sent == [Message.Dataset(Append(MessagesPath, m.data))])
  {
    match m
    case Event(name, _, data) =>
      if name == TestEvent then Reaction(s, [Message.Dataset(Append(MessagesPath, data))])
      else Quiet(s)
    case _ => Quiet(s)
  }

  /** No message leads to more than one command, and only a snapshot
      changes the state. */
  function OnMessage(s: Mirrors, m: Message, decode: string -> Option<Relation>): (r: Reaction)
    ensures |r.sent| <= 1
    ensures r.after != s ==> m.Dataset? && m.dataset.Dataset?
  {
    match m
    case Ui(u) => OnUi(s, u, decode)
    case Dataset(d) => OnDataset(s, d)
    case Router(r) => OnRouter(s, r)
    case Error(_) => Quiet(s)
  }

  // ----- properties of one message -----

  lemma RecpSnapshotReplaces(s: Mirrors, entries: seq<DatasetData>, decode: string -> Option<Relation>)
    ensures OnMessage(s, Message.Dataset(DatasetMessage.Dataset(RecpPath, entries)), decode)
            == Reaction(Mirrors(entries, s.msgs), [])
  {
  }

  lemma MessagesSnapshotReplaces(s: Mirrors, entries: seq<DatasetData>, decode: string -> Option<Relation>)
    ensures var r := OnMessage(s, Message.Dataset(DatasetMessage.Dataset(MessagesPath, entries)), decode);
            r.after == Mirrors(s.recps, entries) &&
            (|entries| > HistoryLimit ==> r.sent == [Message.Dataset(DeleteElement(MessagesPath, 0))]) &&
            (|entries| <= HistoryLimit ==> r.sent == [])
  {
  }

  /** Any dataset message other than a snapshot of one of the two mirrored
      collections changes nothing and sends nothing. */
  lemma OtherDatasetIgnored(s: Mirrors, m: DatasetMessage, decode: string -> Option<Relation>)
    requires !(m.Dataset? && (m.path == RecpPath || m.path == MessagesPath))
    ensures OnMessage(s, Message.Dataset(m), decode) == Quiet(s)
  {
  }

  lemma AddRecpAppends(s: Mirrors, ids: seq<nat>, change: UiInput, decode: string -> Option<Relation>)
    ensures var r := OnMessage(s, Message.Ui(Input(AddRecpId, ids, change)), decode);
            r.after == s &&
            r.sent == (if change.Text? then [Message.Dataset(Append(RecpPath, String(change.text)))] else [])
  {
  }

  lemma SendMsgRoutes(s: Mirrors, ids: seq<nat>, change: UiInput, decode: string -> Option<Relation>)
    ensures var r := OnMessage(s, Message.Ui(Input(SendMsgId, ids, change)), decode);
            r.after == s &&
            (change.Text? ==>
               r.sent == [Message.Router(SendEvent(TestEvent, Recipients(s.recps, decode), String(change.text)))] &&
               |Recipients(s.recps, decode)| == AcceptedCount(s.recps, decode) <= |s.recps|) &&
            (!change.Text? ==> r.sent == [])
  {
    RecipientsCountsAccepted(s.recps, decode);
  }

  lemma RouterEventRelayed(s: Mirrors, name: string, sender: Relation, data: DatasetData, decode: string -> Option<Relation>)
    ensures var r := OnMessage(s, Message.Router(Event(name, sender, data)), decode);
            r.after == s &&
            r.sent == (if name == TestEvent then [Message.Dataset(Append(MessagesPath, data))] else [])
  {
  }

  /** The messages the relay acts on. Every other message leaves the state
      alone and sends nothing. */
  predicate Actionable(m: Message)
  {
    match m
    case Dataset(d) => d.Dataset? && (d.path == RecpPath || d.path == MessagesPath)
    case Ui(u) => u.Input? && (u.elementId == AddRecpId || u.elementId == SendMsgId) && u.change.Text?
    case Router(r) => r.Event? && r.name == TestEvent
    case Error(_) => false
  }

  lemma IgnoredMessageIsQuiet(s: Mirrors, m: Message, decode: string -> Option<Relation>)
    ensures !Actionable(m) ==> OnMessage(s, m, decode) == Quiet(s)
    ensures Actionable(m) && !m.Dataset? ==> OnMessage(s, m, decode).after == s && |OnMessage(s, m, decode).sent| == 1
  {
  }

  // ----- properties of the recipient list -----

  lemma {:induction false} RecipientsConcat(a: seq<DatasetData>, b: seq<DatasetData>, decode: string -> Option<Relation>)
    ensures Recipients(a + b, decode) == Recipients(a, decode) + Recipients(b, decode)
    decreases |b|
  {
    if b == [] {
      assert a + b == a;
    } else {
      var b' := b[..|b| - 1];
      assert (a + b)[..|a + b| - 1] == a + b';
      assert (a + b)[|a + b| - 1] == b[|b| - 1];
      RecipientsConcat(a, b', decode);
    }
  }

  /** The recipient list has one reference per accepted entry. */
  lemma {:induction false} RecipientsCountsAccepted(entries: seq<DatasetData>, decode: string -> Option<Relation>)
    ensures |Recipients(entries, decode)| == AcceptedCount(entries, decode)
    decreases |entries|
  {
    if entries != [] {
      assert entries == [entries[0]] + entries[1..];
      RecipientsConcat([entries[0]], entries[1..], decode);
      RecipientsCountsAccepted(entries[1..], decode);
      assert [entries[0]][..0] == [];
    }
  }

  /** A reference is in the recipient list exactly when some entry decodes to it. */
  lemma {:induction false} RecipientsMembership(entries: seq<DatasetData>, decode: string -> Option<Relation>, r: Relation)
    ensures r in Recipients(entries, decode) <==>
            exists i :: 0 <= i < |entries| && Target(entries[i], decode) == Some(r)
    decreases |entries|
  {
    if entries != [] {
      var n := |entries| - 1;
      var front := entries[..n];
      RecipientsMembership(front, decode, r);
      if exists i :: 0 <= i < |entries| && Target(entries[i], decode) == Some(r) {
        var i :| 0 <= i < |entries| && Target(entries[i], decode) == Some(r);
        if i < n {
          assert front[i] == entries[i];
        }
      }
      if exists i :: 0 <= i < |front| && Target(front[i], decode) == Some(r) {
        var i :| 0 <= i < |front| && Target(front[i], decode) == Some(r);
        assert entries[i] == front[i];
      }
    }
  }

  /** When every entry decodes, the list keeps all of them, position by position. */
  lemma {:induction false} RecipientsAllAccepted(entries: seq<DatasetData>, decode: string -> Option<Relation>)
    requires forall i :: 0 <= i < |entries| ==> Accepts(entries[i], decode)
    ensures |Recipients(entries, decode)| == |entries|
    ensures forall i :: 0 <= i < |entries| ==> Some(Recipients(entries, decode)[i]) == Target(entries[i], decode)
    decreases |entries|
  {
    if entries != [] {
      var n := |entries| - 1;
      var front := entries[..n];
      assert forall i :: 0 <= i < |front| ==> front[i] == entries[i];
      RecipientsAllAccepted(front, decode);
    }
  }

  /** An entry that is not text, or that does not decode, is skipped. */
  lemma RecipientsSkipRejected(a: seq<DatasetData>, x: DatasetData, b: seq<DatasetData>, decode: string -> Option<Relation>)
    requires !Accepts(x, decode)
    ensures Recipients(a + [x] + b, decode) == Recipients(a, decode) + Recipients(b, decode)
  {
    RecipientsConcat(a + [x], b, decode);
    assert (a + [x])[..|a + [x]| - 1] == a;
  }
}
