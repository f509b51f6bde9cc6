/**
 The records the chat manager receives and sends, the calls it makes into the
 Socket.IO and REST client libraries, and the notifications it raises.
 Payloads arrive here already decoded from JSON.
 */
module ChatData {

  datatype Option<T> = None | Some(value: T)

  /** The fields of a chat message record that the manager only hands on to its
      listeners or to the transport; the model never looks inside it. */
  type Payload = string

  /** A user as the REST service returns it (EntryUserData). */
  datatype EntryUserData = EntryUserData(userId: string, name: string, iconUrl: string)

  /** A group as it appears in the group and invitation tables (EntryGroupData). */
  datatype EntryGroupData = EntryGroupData(groupId: string, title: string, iconUrl: string)

  /** A member record of a group-user-list snapshot (EntryGroupUserData): its
      key `userId` and the rest of the record, which no handler inspects. */
  datatype EntryGroupUserData = EntryGroupUserData(userId: string, detail: Payload)

  /** The payload of a create-group or update-group event. */
  datatype GroupFields = GroupFields(groupId: string, title: string, iconUrl: string)

  /** One invocation of one of the manager's public events (onAddUser,
      onRemoveUser, onRecvLocal, ...), with the value it was invoked with. */
  datatype Notification =
    | AddedUser(user: EntryUserData)
    | RemovedUser(userId: string)
    | RecvLocal(message: Payload)
    | RecvGlobal(message: Payload)
    | RecvWhisper(message: Payload)
    | RecvGroup(message: Payload)
    | RecvCreateGroup(group: GroupFields)
    | RecvUpdateGroup(group: GroupFields)
    | RecvGroupInvitationList(groups: seq<EntryGroupData>)
    | RecvGroupUserList(groupId: string, members: seq<EntryGroupUserData>)
    | RecvGroupList(groups: seq<EntryGroupData>)
    | RecvGroupJoin(message: Payload)
    | RecvGroupLeave(message: Payload)

  /** The state of the `client` field: no Socket.IO client, or a client that is
      connected or disconnected. */
  datatype ClientState = NoClient | Connected | Disconnected

  /** A call the manager makes into the Socket.IO client library. `NewClient`
      creates a client bound to an address and registers a handler for each
      of `listens`. */
  datatype TransportCall =
    | NewClient(address: string, listens: seq<string>)
    | ConnectAsync
    | DisconnectAsync
    | EmitAsync(event: string, body: Option<Payload>)

  /** A form POST through the REST client library. */
  datatype RestRequest = RestPost(address: string, path: string, form: seq<(string, string)>, secret: string)

  /** What the REST client library reports for a request. */
  datatype RestResult<T> = Success(content: T) | NetworkError | HttpError(code: int)

  /** How an operation of the manager ends. `DuplicateKey` is the exception
      Dictionary.Add throws, `RestFailed` the early return on a REST error,
      `ConnectFailed` a failed connection handshake, and `NullClient` an emit
      on a client that was never created. */
  datatype Status = Ok | DuplicateKey(key: string) | RestFailed | ConnectFailed | NullClient

  /** The outbound events, one per Send method, with the payload each carries. */
  datatype OutboundEvent =
    | ValidateUser(data: Payload)
    | Local(data: Payload)
    | Global(data: Payload)
    | Whisper(data: Payload)
    | WhisperById(data: Payload)
    | Group(data: Payload)
    | GroupList
    | CreateGroup(data: Payload)
    | UpdateGroup(data: Payload)
    | GroupInvitationList
    | GroupUserList(data: Payload)
    | GroupInvite(data: Payload)
    | GroupInviteAccept(data: Payload)
    | GroupInviteDecline(data: Payload)
    | LeaveGroup(data: Payload)
    | KickUser(data: Payload)
  {
    /** The event name the Send method emits under. */
    function WireName(): string
    {
      match this
      case ValidateUser(_) => "validate-user"
      case Local(_) => "local"
      case Global(_) => "global"
      case Whisper(_) => "whisper"
      case WhisperById(_) => "whisper-by-id"
      case Group(_) => "group"
      case GroupList => "group-list"
      case CreateGroup(_) => "create-group"
      case UpdateGroup(_) => "update-group"
      case GroupInvitationList => "group-invitation-list"
      case GroupUserList(_) => "group-user-list"
      case GroupInvite(_) => "group-invite"
      case GroupInviteAccept(_) => "group-invite-accept"
      case GroupInviteDecline(_) => "group-invite-decline"
      case LeaveGroup(_) => "leave-group"
      case KickUser(_) => "kick-user"
    }

    /** The payload emitted with the event; group-list and
        group-invitation-list are emitted without one. */
    function Body(): Option<Payload>
    {
      if GroupList? || GroupInvitationList? then None else Some(data)
    }
  }

  /** The emit call identifies the Send method and its argument: two events
      emitted under the same name with the same body are the same event. So
      no two Send methods share an event name, and every event other than
      group-list and group-invitation-list carries its payload. */
  lemma EmitDeterminesEvent(e1: OutboundEvent, e2: OutboundEvent)
    requires e1.WireName() == e2.WireName()
    requires e1.Body() == e2.Body()
    ensures e1 == e2
  {
  }
}
