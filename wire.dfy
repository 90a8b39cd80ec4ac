/** The message vocabulary the relay exchanges with its client channel.
    These types belong to the peer-to-peer client library; only the variants
    and fields the relay looks at are spelled out, and every payload the relay
    never inspects is an `Opaque` value. */
module Wire {

  datatype Option<+T> = None | Some(value: T)

  /** A payload the relay passes along or ignores without looking inside. */
  datatype Opaque = Opaque(tag: nat)

  /** Address of a synchronized collection; the relay only builds private ones. */
  datatype DatasetPath = Private(parts: seq<string>) | Public(parts: seq<string>)

  /** One entry of a collection. Only the text variant is ever produced by the
      relay; every other variant of the library is `NonString`. */
  datatype DatasetData = String(text: string) | NonString(Opaque)

  /** The role half of a peer reference. */
  datatype Role = Peer | Host

  /** A peer reference, the target of a routed event. */
  datatype Relation = Relation(identity: string, role: Role)

  /** The page the relay sends once at start-up, built by the UI library. */
  datatype UiPage = UiPage(Opaque)

  /** Payload of a text-entry (or other) UI input. */
  datatype UiInput = Click | Text(text: string)

  datatype DatasetMessage =
    | Subscribe(path: DatasetPath)
    | Append(path: DatasetPath, data: DatasetData)
    | DeleteElement(path: DatasetPath, id: nat)
    | Dataset(path: DatasetPath, entries: seq<DatasetData>)
    | OtherDataset(Opaque)

  datatype UiMessage =
    | Subscribe
    | Pages(Opaque)
    | GetPage(Opaque)
    | Page(Opaque)
    | UpdateElementsFor(Opaque, Opaque)
    | InputFor(Opaque, Opaque, Opaque, Opaque)
    | SetPage(page: UiPage)
    | ClearPage
    | UpdateElements(Opaque)
    | Input(elementId: string, datasetIds: seq<nat>, change: UiInput)
    | Dataset(Opaque, Opaque)

  datatype RouterMessage =
    // authorization
    | Pending
    | ApprovalCode(Opaque)
    | Approved
    | Denied
    // routing
    | SendEvent(name: string, recipients: seq<Relation>, data: DatasetData)
    | Event(name: string, sender: Relation, data: DatasetData)
    | Subscribe(event: string)
    | Unsubscribe(event: string)
    // directory
    | SubscribeDir
    | UnsubscribeDir
    | AddIdentity(Opaque)
    | RemoveIdentity(Opaque)
    | SetIdentityProperty(key: string, value: string)
    // chord
    | SubscribeChord(Opaque)
    | UnsubscribeChord
    | ChordAddrs(Opaque)

  datatype Message =
    | Ui(ui: UiMessage)
    | Dataset(dataset: DatasetMessage)
    | Router(router: RouterMessage)
    | Error(Opaque)

  /** What one receive on the client channel yields when it yields something. */
  datatype ClientResponse =
    | Message(msg: Message)
    | Denied(Opaque)
    | OtherResponse(Opaque)
}
