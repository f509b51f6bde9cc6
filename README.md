# SocketIOChatManager: local mirror state and connection guard

This project models the core of `SocketIOChatManager`, the Unity chat client
of simple-socketio-chat-unity-sdk. The manager holds one Socket.IO client. It
also keeps five in-memory dictionaries that mirror server state: `Users`,
`Groups`, `GroupInvitations`, `GroupUsers` and `GroupUserIds`. These are
refreshed by inbound events and by two REST calls.

- `ChatData.dfy` (module `ChatData`): the records the manager receives and
  sends. It also has the calls made into the Socket.IO and REST libraries, the
  notifications raised to listeners, and the outbound events with their wire
  names.
- `Tables.dfy` (module `Tables`): the specification of "clear a dictionary,
  then `Add` the list's entries in order". `Table` is the resulting map.
  `KeysOf` is the key list in order. `FirstRepeat` is the position in a key
  list where `Dictionary.Add` meets a key that is already present and throws.
- `ChatSession.dfy` (module `ChatSession`): class `ChatManager`. Its `map`
  fields are the five dictionaries. `client` is the client field. Three logs
  record what the manager did towards the outside: listener invocations, calls
  into the Socket.IO library and REST requests. There is one method per
  handler and per public operation. Each method's ``modifies this`field``
  frame names exactly the fields it may change, so a method states "no other
  table changes" through its frame. The module also holds the replay model of
  create-group/update-group events and its lemmas.

The snapshot handlers run the source's `foreach` loop. They are proved
against `Table(list[..k])`, where `k` is `FirstRepeat` of the list's keys.
On a repeated key, the method returns `DuplicateKey` and leaves the table
cleared and partly refilled, as the thrown exception does in the source. On
distinct keys, `k` is the whole list, and `RefillOfDistinct` says the table
maps each listed key to its own entry. `Table`'s contract says it holds no
other key.

Points where the code's behaviour may be unexpected, and which the model follows:

- A group-user-list snapshot clears the whole `GroupUsers` table, not only the
  member details of that one group. Other groups' `GroupUserIds` entries
  survive.
- `Disconnect` always drops the client, including a client that exists but is
  not connected. It calls the library's disconnect only for a connected
  client.
- A failed handshake leaves the new client assigned and disconnected. It is
  not dropped. `Connect` has already cleared the three mirrors at that point.
- With auto-connect off, a send fails only when there is no client at all
  (a null dereference). A client that exists but is disconnected still gets
  the emit call.
- There is no "connecting" state. The client field is null, connected or
  disconnected.
- `Connect` clears `Users`, `Groups` and `GroupInvitations`. It never touches
  `GroupUsers` or `GroupUserIds`.

## Model

| member | source | states |
|---|---|---|
| `ChatSession.ChatManager.constructor` | Scripts/SocketIOChatManager.cs:23-44 | service address `http://localhost:8215`, secret `secret`, auto-connect on, all five dictionaries empty, no client |
| `ChatSession.ChatManager.Disconnect` | Scripts/SocketIOChatManager.cs:93-101 | the client is always null afterwards; the library's disconnect is called exactly when the old client was connected; a second call finds no client and changes nothing (idempotent); no dictionary changes |
| `ChatSession.InboundEventsDistinct` | Scripts/SocketIOChatManager.cs:72-82 | the new client registers a handler for eleven inbound event names, each name exactly once |
| `ChatSession.ChatManager.ConnectionLost` | Scripts/SocketIOChatManager.cs:248 | the library itself marks a connected client disconnected when the link drops; the client stays assigned, no table changes, and the next send with auto-connect on reconnects |
| `ChatSession.ChatManager.Connect` | Scripts/SocketIOChatManager.cs:63-91 | disconnects any connected client first; then creates exactly one new client listening for the eleven inbound events and runs the handshake; `Users`, `Groups`, `GroupInvitations` are empty afterwards; `GroupUsers` and `GroupUserIds` are untouched; the client ends connected iff the handshake succeeds |
| `ChatSession.ChatManager.AddUser` | Scripts/SocketIOChatManager.cs:103-115 | posts the userId/name/iconUrl form to `/add-user` with the secret; on a network or HTTP error `Users` and the notifications are unchanged; on success the returned record is stored under its own userId, every other user is kept, and exactly one onAddUser notification carries that record |
| `ChatSession.ChatManager.RemoveUser` | Scripts/SocketIOChatManager.cs:117-127 | posts the userId to `/remove-user`; on error `Users` is unchanged and nothing is notified; on success exactly that userId is removed (a no-op if absent), all other users are kept, and exactly one onRemoveUser(userId) is raised |
| `ChatSession.ChatManager.OnLocal` | Scripts/SocketIOChatManager.cs:129-135 | pass-through: one onRecvLocal notification with the message; no table changes |
| `ChatSession.ChatManager.OnGlobal` | Scripts/SocketIOChatManager.cs:137-143 | pass-through: one onRecvGlobal notification; no table changes |
| `ChatSession.ChatManager.OnWhisper` | Scripts/SocketIOChatManager.cs:145-151 | pass-through: one onRecvWhisper notification; no table changes |
| `ChatSession.ChatManager.OnGroup` | Scripts/SocketIOChatManager.cs:153-159 | pass-through: one onRecvGroup notification; no table changes |
| `ChatSession.ChatManager.OnCreateGroup` | Scripts/SocketIOChatManager.cs:161-173 | `Groups[groupId]` becomes the payload's groupId, title and iconUrl; every other group id keeps its presence and entry; no other table changes; one onRecvCreateGroup notification |
| `ChatSession.ChatManager.OnUpdateGroup` | Scripts/SocketIOChatManager.cs:175-187 | the same upsert as create-group, with one onRecvUpdateGroup notification |
| `ChatSession.ReplayAppend` | Scripts/SocketIOChatManager.cs:161-187 | `ReplayGroupEvents` is the group table after a series of create-group and update-group events; replaying one series and then another equals replaying them back to back, so successive handler calls, each replaying its own event, replay the whole series |
| `ChatSession.ReplayIsOverride` | Scripts/SocketIOChatManager.cs:165-170 | replaying create/update events over a group table equals overriding the prior table with the table the events alone build |
| `ChatSession.ReplayLastWriteWins` | Scripts/SocketIOChatManager.cs:179-184 | after any series of create/update events, an id maps to the entry written by its last event |
| `ChatSession.ReplayKeepsUntouched` | Scripts/SocketIOChatManager.cs:165-170 | an id that no event names keeps its prior entry, or stays absent |
| `ChatSession.ChatManager.OnGroupInvitationList` | Scripts/SocketIOChatManager.cs:189-200 | the invitation table is replaced by the table of the list up to the first repeated groupId, whatever it held before; with distinct ids the result is Ok and one notification follows; on a repeat the result is `DuplicateKey(id)`, the table is left partly refilled, and nothing is notified |
| `ChatSession.ChatManager.OnGroupUserList` | Scripts/SocketIOChatManager.cs:202-215 | `GroupUsers` is wholly replaced by the table of the list up to the first repeated userId; `GroupUserIds[groupId]` becomes those userIds in list order; every other group's member-id list is untouched; on a repeat the result is `DuplicateKey(id)` with both tables partly refilled, and nothing is notified |
| `ChatSession.ChatManager.OnGroupList` | Scripts/SocketIOChatManager.cs:217-228 | the group table is replaced by the table of the list up to the first repeated groupId, whatever it held before; the result is Ok, followed by one notification, exactly when the ids are distinct |
| `ChatSession.ChatManager.OnGroupJoin` | Scripts/SocketIOChatManager.cs:230-236 | pass-through: one onRecvGroupJoin notification; no table changes |
| `ChatSession.ChatManager.OnGroupLeave` | Scripts/SocketIOChatManager.cs:238-244 | pass-through: one onRecvGroupLeave notification; no table changes |
| `ChatSession.ChatManager.Send` | Scripts/SocketIOChatManager.cs:246-372 | with auto-connect on and the client null or disconnected: exactly one connect sequence runs, so the three mirrors are empty, then the event is emitted under its wire name only if the handshake succeeded; otherwise: no mirror changes, and the emit happens unless there is no client, which is the `NullClient` error with nothing emitted |
| `ChatSession.NeedsConnectIffNotConnected` | Scripts/SocketIOChatManager.cs:248-249 | the guard in front of every emit holds exactly when auto-connect is on and there is no connected client; it never holds while the client is connected |
| `ChatData.EmitDeterminesEvent` | Scripts/SocketIOChatManager.cs:250-370 | the event name (`WireName`) and body (`Body`) of an emit determine the Send method and its argument: no two of the sixteen methods share a name, and every method except group-list and group-invitation-list emits its payload |
| `Tables.Table` | Scripts/SocketIOChatManager.cs:193-197 | the refilled dictionary holds a key exactly when some entry of the list has it |
| `Tables.FirstRepeat` | Scripts/SocketIOChatManager.cs:222-225 | the position where `Add` throws: the keys before it are distinct, the key at it already occurs before it, and it is the end of the list exactly when all keys are distinct |
| `Tables.FirstRepeatUnique` | Scripts/SocketIOChatManager.cs:194-197 | a refill that stops at the first key already present stops at `FirstRepeat` |
| `Tables.TableLastWriteWins` | Scripts/SocketIOChatManager.cs:165-170 | an entry that no later entry overwrites is what the table holds for its key |
| `Tables.TableOfDistinct` | Scripts/SocketIOChatManager.cs:208-211 | with distinct keys, the refilled table maps each listed key to its own entry |
| `Tables.RefillOfDistinct` | Scripts/SocketIOChatManager.cs:221-225 | a snapshot with distinct keys is added to the end without an exception, and the table then maps each listed key to its own entry, whatever it held before |

## Left out

- The Socket.IO library (creating the client, `ConnectAsync`, `DisconnectAsync`, `EmitAsync`, registering handlers) is modelled only as the calls recorded in `transport`. The handshake outcome is a parameter. What the library does with an emit on a disconnected client is not modelled.
- A failed handshake is modelled as the exception `ConnectAsync` throws. It ends `Connect` and the `Send` that called it, before the emit. A `ConnectAsync` that returns without a connection is not modelled.
- The REST client (`RestClient.Post`, `GetUrl`) is modelled as the request recorded in `requests` (address, path, form, secret) and a `RestResult` parameter. How `GetUrl` joins the address and the path is not modelled.
- JSON decoding (`GetValue<T>`) is left out. Handlers take already-decoded payloads. The fields of chat message records and of `EntryGroupUserData` beyond `userId` are one uninterpreted `Payload`. The record type definitions are not part of this model.
- C# events are modelled as an appended notification log. Whether any listener is attached (the null checks before `Invoke`) is not modelled, because it does not change the manager's state.
- `UniTask.SwitchToMainThread` and all async scheduling are left out. The model is single-threaded: each handler runs to completion.
- An exception thrown inside an `async void` handler is modelled as the handler's `DuplicateKey` result. Where it is then reported is not modelled.
- The Unity lifecycle and the singleton (`Awake`, `OnDestroy`, `DontDestroyOnLoad`, `Destroy`) are left out. The accept-all SSL callback and `Debug.Log` are also left out, as global configuration and logging.
- The sixteen `Send*` methods are modelled as one `Send` over the `OutboundEvent` datatype. Their bodies differ only in the event name and payload, which `WireName` and `Body` give.
