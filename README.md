# spider_test_router relay, modelled in Dafny

The test router is one peer on a peer-to-peer routing network. It keeps
local mirrors of two private collections: `Recp` holds the recipients and
`Messages` holds the message history. It reacts to every inbound message
from its client channel by replacing a mirror, sending commands, or both.
It also relays `test_event` payloads typed into its UI or received from
other peers. This project models that state machine.

The model has five modules:

- `Wire` (`wire.dfy`) holds the message vocabulary of the client library: dataset, UI and router messages, `Message` and `ClientResponse`. It covers only the variants and fields the router looks at. Payloads the router never inspects are `Opaque` values.
- `Relay` (`relay.dfy`) says as functions what one inbound message does. `OnDataset`, `OnUi`, `OnRouter` and `OnMessage` return a `Reaction`: the mirrors afterwards and the commands sent, in order. `Recipients` is the recipient list of a routed message. `StartupCommands` is the start-up sequence. The lemmas state the per-message properties.
- `Session` (`session.dfy`) folds `OnMessage` over a stream (`Run`) and gives the receive loop as a function over client responses (`Serve`). Its lemmas cover whole sessions. Each mirror equals the last snapshot received for its path. There is one eviction per oversized `Messages` snapshot. Nothing after a denial is handled. The start-up commands come first.
- `Transport` (`transport.dfy`) is the client channel as a class. `Send` appends to the `sent` log. `Recv` returns the next of the `incoming` responses, or `None` once they are all delivered, which means the channel has closed.
- `TestRouter` (`test_router.dfy`) is the router's `State` class. It has the fields `recps` and `msgs`, the constructor `Init`, and the handler methods, which overwrite the fields and send on the channel. `CollectRecipients` is the loop that builds the recipient list. `RunRelay` is `main`: start-up, then the receive loop. Each method's `ensures` ties the new fields and the new `sent` log to the `Relay`/`Session` functions of the old state.

`Relation::peer_from_base_64` is foreign decoding. It is a parameter,
`decode: string -> Option<Relation>`, of every member that needs it. So
every property is proved for any decoder.

Two facts about the program shape the model:

- The program treats a denial like a closed channel. Both leave the loop, and `main` returns `Ok(())` (src/main.rs:31-37).
- A `Message::Error` is dropped and not logged (src/main.rs:140). Only the dataset handler prints (src/main.rs:145).

## Model

| member | source | states |
|---|---|---|
| `Relay.Recipients` | src/main.rs:193-200 | the recipient list is never longer than the recipients mirror |
| `Relay.RecpSnapshotReplaces` | src/main.rs:146-150 | a `Recp` snapshot makes `recps` equal to its entries exactly, leaves `msgs` alone and sends nothing |
| `Relay.MessagesSnapshotReplaces` | src/main.rs:151-160 | a `Messages` snapshot makes `msgs` equal to its entries and leaves `recps` alone; it sends exactly one delete-at-0 on `Messages` when it has more than 10 entries, and nothing otherwise |
| `Relay.OtherDatasetIgnored` | src/main.rs:146-162 | a dataset message that is not a snapshot, or a snapshot of any other path, changes neither mirror and sends nothing |
| `Relay.AddRecpAppends` | src/main.rs:178-188 | text input on "Add Recp" sends exactly one append of that text to `Recp`; other input there sends nothing; the state is unchanged either way |
| `Relay.SendMsgRoutes` | src/main.rs:189-209 | text input on "Send Msg" sends exactly one `test_event` carrying the text, addressed to the decoded recipients; that list has one entry per accepted entry of `recps`, so it is no longer than `recps`; other input sends nothing; the state is unchanged |
| `Relay.RouterEventRelayed` | src/main.rs:227-236 | an incoming `test_event` sends exactly one append of its payload to `Messages`, whoever sent it; other event names send nothing; the state never changes |
| `Relay.IgnoredMessageIsQuiet` | src/main.rs:135-252 | every message outside the five the router acts on changes nothing and sends nothing; each non-snapshot message it acts on sends exactly one command and changes nothing |
| `Relay.StartupCommands` | src/main.rs:47-126 | five commands; both collections and `test_event` are subscribed to before the page is sent, and the page comes last |
| `Relay.OnDataset` | src/main.rs:144-163 | only a snapshot of `Recp` replaces `recps` and only a snapshot of `Messages` replaces `msgs`; the only command ever sent is the delete-at-0 on `Messages`, and only when the new `msgs` has more than 10 entries |
| `Relay.OnUi` | src/main.rs:165-215 | UI messages never change the mirrors, send at most one command, and only text input sends anything |
| `Relay.OnRouter` | src/main.rs:217-252 | router messages never change the mirrors; the only command sent is an append of an incoming event's payload to `Messages` |
| `Relay.OnMessage` | src/main.rs:135-142 | no message leads to more than one command, and only a dataset snapshot changes the state |
| `Relay.RecipientsConcat` | src/main.rs:193-200 | the recipient list of two concatenated mirrors is the concatenation of their lists, so order is kept |
| `Relay.RecipientsCountsAccepted` | src/main.rs:193-200 | the recipient list's length is the number of entries that are text the decoder accepts, counted independently |
| `Relay.RecipientsMembership` | src/main.rs:194-198 | a reference is in the recipient list if and only if some entry of the mirror decodes to it |
| `Relay.RecipientsAllAccepted` | src/main.rs:194-198 | when every entry decodes, the list has one reference per entry, each the decoding of the entry at the same position |
| `Relay.RecipientsSkipRejected` | src/main.rs:195-196 | an entry that is not text or does not decode is skipped without affecting the rest |
| `Session.Run` | src/main.rs:26-35 | handling a stream of messages in order sends at most one command per message |
| `Session.Serve` | src/main.rs:26-35 | the receive loop sends at most one command per response received |
| `Session.Delivered` | src/main.rs:26-35 | the loop hands the router no more messages than it receives |
| `Session.Consumed` | src/main.rs:26-35 | the loop receives responses up to and including the first denial, or all of them when the channel closes |
| `Session.ServeIsRunOfDelivered` | src/main.rs:26-35 | the receive loop acts exactly as handling, in order, the messages before the first denial; other responses are skipped |
| `Session.DenialEndsSession` | src/main.rs:31 | nothing received after a denial is handled |
| `Session.RunConcat` | src/main.rs:26-35 | handling two streams one after the other is handling their concatenation: the final state carries over and the commands are concatenated |
| `Session.MirrorsFollowSnapshots` | src/main.rs:144-163 | after any stream, each mirror equals the last snapshot received for its path, or its old value if there was none |
| `Session.EvictionPerOverflow` | src/main.rs:151-160 | over any stream, the number of delete-at-0 commands equals the number of `Messages` snapshots with more than 10 entries |
| `Session.GrowingHistory` | src/main.rs:153-160 | for snapshots of `Messages` of lengths 1, 2, …, n, the first k of them send k - 10 evictions when k > 10 and none otherwise, so the first eviction comes with the eleventh |
| `Session.RunSendsRelayCommands` | src/main.rs:135-252 | a stream sends at most one command per message, and each is an append to `Recp` or `Messages`, the delete-at-0, or a `test_event` |
| `Session.IgnoredStreamIsQuiet` | src/main.rs:135-252 | a stream of messages the router does not act on leaves the state and the channel untouched |
| `Session.StartupComesFirst` | src/main.rs:24-35 | whatever the channel delivers, the first five commands of a session are the start-up sequence; every later one is a relay command |
| `Session.AddThenSnapshot` | src/main.rs:146-187 | adding a recipient "t" and then receiving the echoed snapshot `[t]` sends one append and leaves `recps == [t]` |
| `Transport.ClientChannel.Send` | src/main.rs:49 | sending appends the command to the outbound log |
| `Transport.ClientChannel.Recv` | src/main.rs:27 | a receive returns the next inbound response, or `None` once the channel is closed |
| `TestRouter.CollectRecipients` | src/main.rs:193-200 | the loop builds exactly `Recipients` of the mirror, one reference per accepted entry |
| `TestRouter.State.Init` | src/main.rs:46-133 | start-up sends, in order: identity property name = "Test Router", subscribe `Recp`, subscribe `Messages`, router subscribe `test_event`, set page; both mirrors start empty |
| `TestRouter.State.MsgHandler` | src/main.rs:135-142 | dispatches by category; the new mirrors and the appended commands are those of `OnMessage`; an error message does nothing |
| `TestRouter.State.DatasetHandler` | src/main.rs:144-163 | overwrites `recps` or `msgs` from a snapshot and sends the eviction, as `OnDataset` says |
| `TestRouter.State.UiHandler` | src/main.rs:165-215 | cannot change the mirrors; sends what `OnUi` says |
| `TestRouter.State.RouterHandler` | src/main.rs:217-252 | cannot change the mirrors; sends what `OnRouter` says |
| `TestRouter.RunRelay` | src/main.rs:24-35 | the whole program: the outbound log gains the start-up commands and then the commands of `Serve` over the pending responses; the final state is `Serve`'s; the loop consumes exactly `Consumed` responses |

## Left out

- The async runtime and the real client channel (src/main.rs:12-13). Sending is appending to a log, and receiving is reading the next element of a fixed sequence of responses.
- Client builder set-up, the fixed address, persistence in `client_state.dat` and keyfile loading (src/main.rs:14-23). These are I/O in the client library.
- Page construction with `UiPageManager`/`UiElement` and the `get_changes()` call (src/main.rs:70-125). The library's behaviour there is not visible. The page is an opaque `UiPage` passed to `Init`. Its contents are not modelled. `Init` is proved to send it fifth and last.
- The internals of `Relation::peer_from_base_64`. Decoding is a parameter, so every property holds for any decoder.
- Logging of dataset messages with `println!` (src/main.rs:145).
- Library types are cut down to the variants the router distinguishes. Other payloads are `Opaque`. Other dataset variants are `OtherDataset`, other client responses are `OtherResponse`, and non-text entries are `NonString`.
