/** The relay over a whole stream of inbound traffic: folding `OnMessage`
    over a sequence of messages, the receive loop that feeds it, and the
    properties of a whole session. */
module Session {
  import opened Wire
  import opened Relay

  /** Handle each message in turn, collecting the commands in order. */
  function Run(s: Mirrors, ms: seq<Message>, decode: string -> Option<Relation>): (r: Reaction)
    ensures |r.sent| <= |ms|
    decreases |ms|
  {
    if ms == [] then Quiet(s)
    else
      var first := OnMessage(s, ms[0], decode);
      var rest := Run(first.after, ms[1..], decode);
      Reaction(rest.after, first.sent + rest.sent)
  }

  /** The receive loop: messages are handled, a denial or the end of the
      stream stops it, every other response is skipped. */
  function Serve(s: Mirrors, rs: seq<ClientResponse>, decode: string -> Option<Relation>): (r: Reaction)
    ensures |r.sent| <= |rs|
    decreases |rs|
  {
    if rs == [] then Quiet(s)
    else match rs[0]
      case Message(m) =>
        var first := OnMessage(s, m, decode);
        var rest := Serve(first.after, rs[1..], decode);
        Reaction(rest.after, first.sent + rest.sent)
      case Denied(_) => Quiet(s)
      case OtherResponse(_) => Serve(s, rs[1..], decode)
  }

  /** The messages the loop hands to the relay: those before the first denial. */
  function Delivered(rs: seq<ClientResponse>): (ms: seq<Message>)
    ensures |ms| <= |rs|
    decreases |rs|
  {
    if rs == [] then []
    else match rs[0]
      case Message(m) => [m] + Delivered(rs[1..])
      case Denied(_) => []
      case OtherResponse(_) => Delivered(rs[1..])
  }

  /** How many responses the loop receives before it stops: up to and
      including the first denial, or all of them when the channel closes. */
  function Consumed(rs: seq<ClientResponse>): (n: nat)
    ensures n <= |rs|
    ensures n < |rs| ==> n > 0 && rs[n - 1].Denied?
    ensures forall i :: 0 <= i < n - 1 ==> !rs[i].Denied?
    decreases |rs|
  {
    if rs == [] then 0
    else if rs[0].Denied? then 1
    else 1 + Consumed(rs[1..])
  }

  /** Everything the program sends: the start-up commands, then the loop's. */
  function SessionLog(page: UiPage, rs: seq<ClientResponse>, decode: string -> Option<Relation>): seq<Message>
  {
    StartupCommands(page) + Serve(Empty, rs, decode).sent
  }

  // ----- the loop is a run over the delivered messages -----

  lemma {:induction false} ServeIsRunOfDelivered(s: Mirrors, rs: seq<ClientResponse>, decode: string -> Option<Relation>)
    ensures Serve(s, rs, decode) == Run(s, Delivered(rs), decode)
    decreases |rs|
  {
    if rs != [] {
      match rs[0]
      case Message(m) =>
        ServeIsRunOfDelivered(OnMessage(s, m, decode).after, rs[1..], decode);
        assert ([m] + Delivered(rs[1..]))[1..] == Delivered(rs[1..]);
      case Denied(_) =>
      case OtherResponse(_) =>
        ServeIsRunOfDelivered(s, rs[1..], decode);
    }
  }

  /** Nothing after a denial is handled. */
  lemma {:induction false} DenialEndsSession(s: Mirrors, rs: seq<ClientResponse>, x: Opaque, tail: seq<ClientResponse>, decode: string -> Option<Relation>)
    ensures Serve(s, rs + [ClientResponse.Denied(x)] + tail, decode) == Serve(s, rs, decode)
    decreases |rs|
  {
    if rs == [] {
      assert rs + [ClientResponse.Denied(x)] + tail == [ClientResponse.Denied(x)] + tail;
    } else {
      assert (rs + [ClientResponse.Denied(x)] + tail)[0] == rs[0];
      assert (rs + [ClientResponse.Denied(x)] + tail)[1..] == rs[1..] + [ClientResponse.Denied(x)] + tail;
      match rs[0]
      case Message(m) =>
        DenialEndsSession(OnMessage(s, m, decode).after, rs[1..], x, tail, decode);
      case Denied(_) =>
      case OtherResponse(_) =>
        DenialEndsSession(s, rs[1..], x, tail, decode);
    }
  }

  // ----- runs compose -----

  lemma {:induction false} RunConcat(s: Mirrors, a: seq<Message>, b: seq<Message>, decode: string -> Option<Relation>)
    ensures var ra := Run(s, a, decode);
            var rb := Run(ra.after, b, decode);
            Run(s, a + b, decode) == Reaction(rb.after, ra.sent + rb.sent)
    decreases |a|
  {
    if a == [] {
      assert a + b == b;
    } else {
      assert (a + b)[0] == a[0];
      assert (a + b)[1..] == a[1..] + b;
      RunConcat(OnMessage(s, a[0], decode).after, a[1..], b, decode);
    }
  }

  // ----- the mirrors follow the snapshots -----

  /** The entries of the last snapshot for `path` among `ms`, or `current` if there is none. */
  function LastSnapshot(ms: seq<Message>, path: DatasetPath, current: seq<DatasetData>): seq<DatasetData>
    decreases |ms|
  {
    if ms == [] then current
    else
      var m := ms[0];
      var next := if m.Dataset? && m.dataset.Dataset? && m.dataset.path == path then m.dataset.entries else current;
      LastSnapshot(ms[1..], path, next)
  }

  /** Each mirror always equals the last snapshot received for its path: the
      relay never changes a collection locally in any other way. */
  lemma {:induction false} MirrorsFollowSnapshots(s: Mirrors, ms: seq<Message>, decode: string -> Option<Relation>)
    ensures Run(s, ms, decode).after == Mirrors(LastSnapshot(ms, RecpPath, s.recps), LastSnapshot(ms, MessagesPath, s.msgs))
    decreases |ms|
  {
    if ms != [] {
      MirrorsFollowSnapshots(OnMessage(s, ms[0], decode).after, ms[1..], decode);
    }
  }

  // ----- bounded history: one eviction per oversized snapshot -----

  function Evictions(cs: seq<Message>): nat
    decreases |cs|
  {
    if cs == [] then 0
    else (if cs[0] == Message.Dataset(DeleteElement(MessagesPath, 0)) then 1 else 0) + Evictions(cs[1..])
  }

  /** Number of `Messages` snapshots carrying more than `HistoryLimit` entries. */
  function Overflows(ms: seq<Message>): nat
    decreases |ms|
  {
    if ms == [] then 0
    else
      var m := ms[0];
      (if m.Dataset? && m.dataset.Dataset? && m.dataset.path == MessagesPath && |m.dataset.entries| > HistoryLimit
       then 1 else 0) + Overflows(ms[1..])
  }

  lemma {:induction false} EvictionsConcat(a: seq<Message>, b: seq<Message>)
    ensures Evictions(a + b) == Evictions(a) + Evictions(b)
    decreases |a|
  {
    if a != [] {
      assert (a + b)[0] == a[0];
      assert (a + b)[1..] == a[1..] + b;
      EvictionsConcat(a[1..], b);
    } else {
      assert a + b == b;
    }
  }

  lemma {:induction false} OverflowsConcat(a: seq<Message>, b: seq<Message>)
    ensures Overflows(a + b) == Overflows(a) + Overflows(b)
    decreases |a|
  {
    if a != [] {
      assert (a + b)[0] == a[0];
      assert (a + b)[1..] == a[1..] + b;
      OverflowsConcat(a[1..], b);
    } else {
      assert a + b == b;
    }
  }

  /** Exactly one delete-at-0 is sent per oversized `Messages` snapshot, and no other. */
  lemma {:induction false} EvictionPerOverflow(s: Mirrors, ms: seq<Message>, decode: string -> Option<Relation>)
    ensures Evictions(Run(s, ms, decode).sent) == Overflows(ms)
    decreases |ms|
  {
    if ms != [] {
      var first := OnMessage(s, ms[0], decode);
      EvictionPerOverflow(first.after, ms[1..], decode);
      EvictionsConcat(first.sent, Run(first.after, ms[1..], decode).sent);
      assert Evictions(first.sent) == Overflows([ms[0]]);
    }
  }

  /** Snapshots of `Messages` whose k-th carries k + 1 entries: only those from
      the eleventh on lead to an eviction. After the first k of them, the
      evictions sent number k - 10 when k > 10 and none otherwise. */
  lemma {:induction false} GrowingHistory(s: Mirrors, ms: seq<Message>, decode: string -> Option<Relation>)
    requires forall k :: 0 <= k < |ms| ==>
               ms[k].Dataset? && ms[k].dataset.Dataset? && ms[k].dataset.path == MessagesPath &&
               |ms[k].dataset.entries| == k + 1
    ensures forall k :: 0 <= k <= |ms| ==>
              Evictions(Run(s, ms[..k], decode).sent) == if k > HistoryLimit then k - HistoryLimit else 0
  {
    forall k | 0 <= k <= |ms|
      ensures Evictions(Run(s, ms[..k], decode).sent) == if k > HistoryLimit then k - HistoryLimit else 0
    {
      var prefix := ms[..k];
      assert forall j :: 0 <= j < |prefix| ==> prefix[j] == ms[j];
      EvictionPerOverflow(s, prefix, decode);
      GrowingOverflows(prefix);
    }
  }

  lemma {:induction false} GrowingOverflows(ms: seq<Message>)
    requires forall k :: 0 <= k < |ms| ==>
               ms[k].Dataset? && ms[k].dataset.Dataset? && ms[k].dataset.path == MessagesPath &&
               |ms[k].dataset.entries| == k + 1
    ensures Overflows(ms) == if |ms| > HistoryLimit then |ms| - HistoryLimit else 0
    decreases |ms|
  {
    if ms != [] {
      var n := |ms| - 1;
      assert ms == ms[..n] + [ms[n]];
      OverflowsConcat(ms[..n], [ms[n]]);
      GrowingOverflows(ms[..n]);
    }
  }

  // ----- what the loop sends -----

  /** The only commands a handler ever sends. */
  predicate RelayCommand(c: Message)
  {
    c == Message.Dataset(DeleteElement(MessagesPath, 0)) ||
    (c.Dataset? && c.dataset.Append? && (c.dataset.path == RecpPath || c.dataset.path == MessagesPath)) ||
    (c.Router? && c.router.SendEvent? && c.router.name == TestEvent)
  }

  /** At most one command per message, and each is one of the relay's commands. */
  lemma {:induction false} RunSendsRelayCommands(s: Mirrors, ms: seq<Message>, decode: string -> Option<Relation>)
    ensures |Run(s, ms, decode).sent| <= |ms|
    ensures forall i :: 0 <= i < |Run(s, ms, decode).sent| ==> RelayCommand(Run(s, ms, decode).sent[i])
    decreases |ms|
  {
    if ms != [] {
      var first := OnMessage(s, ms[0], decode);
      RunSendsRelayCommands(first.after, ms[1..], decode);
    }
  }

  /** A stream made only of messages the relay does not act on changes nothing and sends nothing. */
  lemma {:induction false} IgnoredStreamIsQuiet(s: Mirrors, ms: seq<Message>, decode: string -> Option<Relation>)
    requires forall i :: 0 <= i < |ms| ==> !Actionable(ms[i])
    ensures Run(s, ms, decode) == Quiet(s)
    decreases |ms|
  {
    if ms != [] {
      IgnoredMessageIsQuiet(s, ms[0], decode);
      IgnoredStreamIsQuiet(s, ms[1..], decode);
    }
  }

  /** The five start-up commands come first, whatever the channel delivers. */
  lemma StartupComesFirst(page: UiPage, rs: seq<ClientResponse>, decode: string -> Option<Relation>)
    ensures |SessionLog(page, rs, decode)| >= 5
    ensures SessionLog(page, rs, decode)[..5] == StartupCommands(page)
    ensures forall i :: 5 <= i < |SessionLog(page, rs, decode)| ==> RelayCommand(SessionLog(page, rs, decode)[i])
  {
    ServeIsRunOfDelivered(Empty, rs, decode);
    RunSendsRelayCommands(Empty, Delivered(rs), decode);
  }

  /** Adding a recipient and then receiving the snapshot that echoes it. */
  lemma AddThenSnapshot(s: Mirrors, ids: seq<nat>, t: string, decode: string -> Option<Relation>)
    ensures var add := Message.Ui(Input(AddRecpId, ids, Text(t)));
            var snap := Message.Dataset(DatasetMessage.Dataset(RecpPath, [String(t)]));
            Run(s, [add, snap], decode) ==
              Reaction(Mirrors([String(t)], s.msgs), [Message.Dataset(Append(RecpPath, String(t)))])
  {
    var add := Message.Ui(Input(AddRecpId, ids, Text(t)));
    var snap := Message.Dataset(DatasetMessage.Dataset(RecpPath, [String(t)]));
    var afterAdd := OnMessage(s, add, decode);
    assert afterAdd == Reaction(s, [Message.Dataset(Append(RecpPath, String(t)))]);
    assert [add, snap][1..] == [snap];
    assert Run(afterAdd.after, [snap], decode) == Reaction(Mirrors([String(t)], s.msgs), []);
  }
}
