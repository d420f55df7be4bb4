/** What the backend stores (server/backend/backend.go and the record types
    beside it). */
module Records {
  import opened Ids
  import opened Updates
  import opened Locations

  datatype DraftAction = ReplyAction | ReplyAllAction | ForwardAction | OtherAction

  datatype Content = Content(
    subject: string, sender: string, to: seq<string>, cc: seq<string>, bcc: seq<string>,
    body: string, mimeType: string, externalID: string)

  datatype Message = Message(
    addrID: Id, filing: Filing, attIDs: seq<Id>, parent: Id, action: DraftAction,
    content: Content, flags: set<Flag>, unread: bool)

  datatype Attachment = Attachment(dataID: Id, filename: string, contentID: string)

  datatype Address = Address(email: string, order: int, enabled: bool)

  datatype Account = Account(
    addresses: map<Id, Address>, labelIDs: seq<Id>, messageIDs: seq<Id>,
    updateIDs: seq<nat>, settings: Settings)

  /** unsafeBackend. `nextUuid` numbers the UUIDs still to be generated. */
  datatype State = State(
    accounts: map<Id, Account>,
    messages: map<Id, Message>, labels: map<Id, Label>,
    attachments: map<Id, Attachment>, attData: map<Id, string>,
    updates: map<nat, Update>, maxUpdatesPerEvent: int,
    enableDedup: bool, nextUuid: nat)

  const NEW_ACCOUNT := Account(map[], [], [], [], Settings(true, true))

  function NewBackend(enableDedup: bool): State {
    State(map[], map[], map[], map[], map[], map[], 0, enableDedup, 0)
  }

  function MessageKey(id: Id): Key { Key(MessageKind, id) }

  function LabelKey(id: Id): Key { Key(LabelKind, id) }

  function AddressKey(id: Id): Key { Key(AddressKind, id) }
}
