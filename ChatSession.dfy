/**
 SocketIOChatManager: a Socket.IO chat client that mirrors the server's users,
 groups, group invitations and group members in local dictionaries, refreshes
 them from inbound events and two REST calls, and emits outbound events,
 reconnecting first when so configured.
 */
module ChatSession {
  import opened ChatData
  import opened Tables

  /** The key of a group in the group and invitation tables. */
  function GroupKey(g: EntryGroupData): string { g.groupId }

  /** The key of a member record in the group-member table. */
  function UserKey(u: EntryGroupUserData): string { u.userId }

  /** The inbound events Connect registers a handler for, in order. */
  const InboundEvents: seq<string> := [
    "local", "global", "whisper", "group", "create-group", "update-group",
    "group-invitation-list", "group-user-list", "group-list", "group-join", "group-leave"
  ]

  /** Connect registers each inbound event exactly once, eleven in all. */
  lemma InboundEventsDistinct()
    ensures |InboundEvents| == 11
    ensures Distinct(InboundEvents)
  {
  }

  /** The guard every Send method checks before emitting. */
  predicate NeedsConnect(autoConnectWhenSend: bool, client: ClientState)
  {
    autoConnectWhenSend && (client == NoClient || client == Disconnected)
  }

  /** A send reconnects exactly when auto-connect is on and there is no
      connected client; in particular never after a successful handshake. */
  lemma NeedsConnectIffNotConnected(autoConnectWhenSend: bool, client: ClientState)
    ensures NeedsConnect(autoConnectWhenSend, client) <==> autoConnectWhenSend && client != Connected
    ensures !NeedsConnect(autoConnectWhenSend, Connected)
  {
  }

  /** The group entry a create-group or update-group event writes. */
  function ToEntry(g: GroupFields): EntryGroupData
  {
    EntryGroupData(g.groupId, g.title, g.iconUrl)
  }

  /** The group table after applying a series of create-group and
      update-group events, oldest first, to `groups`. */
  function ReplayGroupEvents(groups: map<string, EntryGroupData>, events: seq<GroupFields>): map<string, EntryGroupData>
    decreases |events|
  {
    if events == [] then groups
    else
      var last := events[|events| - 1];
      ReplayGroupEvents(groups, events[..|events| - 1])[last.groupId := ToEntry(last)]
  }

  /** Replaying one series of events and then another is replaying the two
      series back to back; so successive create-group and update-group
      handlers, each a replay of its one event, replay the whole series. */
  lemma {:induction false} ReplayAppend(groups: map<string, EntryGroupData>, first: seq<GroupFields>, rest: seq<GroupFields>)
    ensures ReplayGroupEvents(ReplayGroupEvents(groups, first), rest) == ReplayGroupEvents(groups, first + rest)
    decreases |rest|
  {
    if rest != [] {
      var n := |rest| - 1;
      ReplayAppend(groups, first, rest[..n]);
      assert (first + rest)[..|first + rest| - 1] == first + rest[..n];
    } else {
      assert first + rest == first;
    }
  }

  /** The entries the events write, in order. */
  function GroupEntries(events: seq<GroupFields>): seq<EntryGroupData>
  {
    seq(|events|, i requires 0 <= i < |events| => ToEntry(events[i]))
  }

  /** Replaying the events equals overriding the prior table with the table
      the events alone would build. */
  lemma {:induction false} ReplayIsOverride(groups: map<string, EntryGroupData>, events: seq<GroupFields>)
    ensures ReplayGroupEvents(groups, events) == groups + Table(GroupEntries(events), GroupKey)
    decreases |events|
  {
    if events != [] {
      var n := |events| - 1;
      var e := ToEntry(events[n]);
      var es := GroupEntries(events);
      var prior := Table(GroupEntries(events[..n]), GroupKey);
      ReplayIsOverride(groups, events[..n]);
      assert es[..n] == GroupEntries(events[..n]);
      assert Table(es, GroupKey) == prior[e.groupId := e];
      OverrideUpdate(groups, prior, e.groupId, e);
    }
  }

  /** A second write to a key replaces the first. */
  lemma UpdateTwice<K, V>(m: map<K, V>, k: K, v: V, w: V)
    ensures m[k := v][k := w] == m[k := w]
  {
  }

  /** Overriding with an updated map is updating the override. */
  lemma OverrideUpdate<V>(m: map<string, V>, t: map<string, V>, k: string, v: V)
    ensures m + t[k := v] == (m + t)[k := v]
  {
  }

  /** Last write wins: the entry written by the latest event for an id is what
      the table holds for that id. */
  lemma {:induction false} ReplayLastWriteWins(groups: map<string, EntryGroupData>, events: seq<GroupFields>, i: nat)
    requires i < |events|
    requires forall j :: i < j < |events| ==> events[j].groupId != events[i].groupId
    ensures events[i].groupId in ReplayGroupEvents(groups, events)
    ensures ReplayGroupEvents(groups, events)[events[i].groupId] == ToEntry(events[i])
  {
    ReplayIsOverride(groups, events);
    var es := GroupEntries(events);
    forall j | i < j < |es|
      ensures GroupKey(es[j]) != GroupKey(es[i])
    {
    }
    TableLastWriteWins(es, GroupKey, i);
  }

  /** An id that no event names keeps its prior entry, or stays absent. */
  lemma {:induction false} ReplayKeepsUntouched(groups: map<string, EntryGroupData>, events: seq<GroupFields>, id: string)
    requires forall j :: 0 <= j < |events| ==> events[j].groupId != id
    ensures id in ReplayGroupEvents(groups, events) <==> id in groups
    ensures id in groups ==> ReplayGroupEvents(groups, events)[id] == groups[id]
  {
    ReplayIsOverride(groups, events);
    var es := GroupEntries(events);
    assert id !in KeysOf(es, GroupKey);
  }

  class ChatManager {
    // configuration
    var serviceAddress: string
    var serviceSecretKey: string
    var autoConnectWhenSend: bool

    // the local mirrors of server state
    var users: map<string, EntryUserData>
    var groups: map<string, EntryGroupData>
    var groupInvitations: map<string, EntryGroupData>
    var groupUsers: map<string, EntryGroupUserData>
    var groupUserIds: map<string, seq<string>>

    // the Socket.IO client
    var client: ClientState

    // what the manager has done towards the outside, in order
    var notifications: seq<Notification>
    var transport: seq<TransportCall>
    var requests: seq<RestRequest>

    constructor ()
      ensures serviceAddress == "http://localhost:8215"
      ensures serviceSecretKey == "secret"
      ensures autoConnectWhenSend
      ensures users == map[] && groups == map[] && groupInvitations == map[]
      ensures groupUsers == map[] && groupUserIds == map[]
      ensures client == NoClient
      ensures notifications == [] && transport == [] && requests == []
    {
      serviceAddress := "http://localhost:8215";
      serviceSecretKey := "secret";
      autoConnectWhenSend := true;
      users, groups, groupInvitations := map[], map[], map[];
      groupUsers, groupUserIds := map[], map[];
      client := NoClient;
      notifications, transport, requests := [], [], [];
    }

    /** The library marks a connected client disconnected when the server or
        the network drops the link; the manager makes no call and the client
        object stays assigned, so the next send's guard reconnects. */
    method ConnectionLost()
      modifies this`client
      ensures client == (if old(client) == Connected then Disconnected else old(client))
      ensures old(client) == Connected ==> (NeedsConnect(autoConnectWhenSend, client) <==> autoConnectWhenSend)
    {
      if client == Connected {
        client := Disconnected;
      }
    }

    /** Drops the client, first disconnecting it if it is connected. A second
        call finds no client and changes nothing. */
    method Disconnect()
      modifies this`client, this`transport
      ensures client == NoClient
      ensures transport == old(transport) + (if old(client) == Connected then [DisconnectAsync] else [])
    {
      if client == Connected {
        transport := transport + [DisconnectAsync];
      }
      client := NoClient;
    }

    /** Disconnects, creates a fresh client listening for every inbound event,
        empties the user, group and invitation mirrors (the member mirrors are
        kept), and runs the handshake, whose outcome is `handshakeOk`. */
    method Connect(handshakeOk: bool) returns (r: Status)
      modifies this`client, this`transport, this`users, this`groups, this`groupInvitations
      ensures users == map[] && groups == map[] && groupInvitations == map[]
      ensures transport == old(transport)
        + (if old(client) == Connected then [DisconnectAsync] else [])
        + [NewClient(serviceAddress, InboundEvents), ConnectAsync]
      ensures client == (if handshakeOk then Connected else Disconnected)
      ensures r == (if handshakeOk then Ok else ConnectFailed)
    {
      Disconnect();
      transport := transport + [NewClient(serviceAddress, InboundEvents)];
      client := Disconnected;
      users, groups, groupInvitations := map[], map[], map[];
      transport := transport + [ConnectAsync];
      if handshakeOk {
        client := Connected;
        r := Ok;
      } else {
        r := ConnectFailed;
      }
    }

    /** POSTs the new user to /add-user; on success stores the returned record
        under its own userId and raises onAddUser with it. */
    method AddUser(userId: string, name: string, iconUrl: string, response: RestResult<EntryUserData>) returns (r: Status)
      modifies this`requests, this`users, this`notifications
      ensures requests == old(requests)
        + [RestPost(serviceAddress, "/add-user", [("userId", userId), ("name", name), ("iconUrl", iconUrl)], serviceSecretKey)]
      ensures response.Success? ==>
        && r == Ok
        && users == old(users)[response.content.userId := response.content]
        && notifications == old(notifications) + [AddedUser(response.content)]
      ensures !response.Success? ==>
        r == RestFailed && users == old(users) && notifications == old(notifications)
    {
      requests := requests
        + [RestPost(serviceAddress, "/add-user", [("userId", userId), ("name", name), ("iconUrl", iconUrl)], serviceSecretKey)];
      if !response.Success? {
        return RestFailed;
      }
      users := users[response.content.userId := response.content];
      notifications := notifications + [AddedUser(response.content)];
      r := Ok;
    }

    /** POSTs the userId to /remove-user; on success drops that user, if
        present, and raises onRemoveUser with the id. */
    method RemoveUser(userId: string, response: RestResult<()>) returns (r: Status)
      modifies this`requests, this`users, this`notifications
      ensures requests == old(requests) + [RestPost(serviceAddress, "/remove-user", [("userId", userId)], serviceSecretKey)]
      ensures response.Success? ==>
        && r == Ok
        && users == old(users) - {userId}
        && notifications == old(notifications) + [RemovedUser(userId)]
      ensures !response.Success? ==>
        r == RestFailed && users == old(users) && notifications == old(notifications)
    {
      requests := requests + [RestPost(serviceAddress, "/remove-user", [("userId", userId)], serviceSecretKey)];
      if !response.Success? {
        return RestFailed;
      }
      users := users - {userId};
      notifications := notifications + [RemovedUser(userId)];
      r := Ok;
    }

    method OnLocal(message: Payload)
      modifies this`notifications
      ensures notifications == old(notifications) + [RecvLocal(message)]
    {
      notifications := notifications + [RecvLocal(message)];
    }

    method OnGlobal(message: Payload)
      modifies this`notifications
      ensures notifications == old(notifications) + [RecvGlobal(message)]
    {
      notifications := notifications + [RecvGlobal(message)];
    }

    method OnWhisper(message: Payload)
      modifies this`notifications
      ensures notifications == old(notifications) + [RecvWhisper(message)]
    {
      notifications := notifications + [RecvWhisper(message)];
    }

    method OnGroup(message: Payload)
      modifies this`notifications
      ensures notifications == old(notifications) + [RecvGroup(message)]
    {
      notifications := notifications + [RecvGroup(message)];
    }

    /** Upserts the group; no other group and no other table changes. */
    method OnCreateGroup(data: GroupFields)
      modifies this`groups, this`notifications
      ensures groups == ReplayGroupEvents(old(groups), [data])
      ensures data.groupId in groups && groups[data.groupId] == ToEntry(data)
      ensures forall id :: id != data.groupId ==> (id in groups <==> id in old(groups))
      ensures forall id :: id != data.groupId && id in old(groups) ==> groups[id] == old(groups)[id]
      ensures notifications == old(notifications) + [RecvCreateGroup(data)]
    {
      groups := groups[data.groupId := ToEntry(data)];
      notifications := notifications + [RecvCreateGroup(data)];
    }

    /** The same upsert as OnCreateGroup, raising onRecvUpdateGroup. */
    method OnUpdateGroup(data: GroupFields)
      modifies this`groups, this`notifications
      ensures groups == ReplayGroupEvents(old(groups), [data])
      ensures data.groupId in groups && groups[data.groupId] == ToEntry(data)
      ensures forall id :: id != data.groupId ==> (id in groups <==> id in old(groups))
      ensures forall id :: id != data.groupId && id in old(groups) ==> groups[id] == old(groups)[id]
      ensures notifications == old(notifications) + [RecvUpdateGroup(data)]
    {
      groups := groups[data.groupId := ToEntry(data)];
      notifications := notifications + [RecvUpdateGroup(data)];
    }

    /** Clears the invitation table and adds the list's entries one by one.
        A repeated groupId stops the refill with the entries before it in the
        table, and the listeners are not called. */
    method OnGroupInvitationList(list: seq<EntryGroupData>) returns (r: Status)
      modifies this`groupInvitations, this`notifications
      ensures var k := FirstRepeat(KeysOf(list, GroupKey));
        && groupInvitations == Table(list[..k], GroupKey)
        && r == (if k == |list| then Ok else DuplicateKey(list[k].groupId))
      ensures notifications == old(notifications) + (if r == Ok then [RecvGroupInvitationList(list)] else [])
    {
      ghost var ids := KeysOf(list, GroupKey);
      KeysOfAt(list, GroupKey);
      groupInvitations := map[];
      var i := 0;
      while i < |list| && list[i].groupId !in groupInvitations
        invariant i <= |list|
        invariant Distinct(ids[..i])
        invariant groupInvitations == Table(list[..i], GroupKey)
        invariant notifications == old(notifications)
      {
        var entry := list[i];
        KeysOfPrefix(list, GroupKey, i);
        DistinctSnoc(ids, i);
        TableStep(list, GroupKey, i);
        groupInvitations := groupInvitations[entry.groupId := entry];
        i := i + 1;
      }
      KeysOfPrefix(list, GroupKey, i);
      FirstRepeatUnique(ids, i);
      if i < |list| {
        return DuplicateKey(list[i].groupId);
      }
      assert list[..i] == list;
      notifications := notifications + [RecvGroupInvitationList(list)];
      r := Ok;
    }

    /** Clears the whole member table, not only this group's members, resets
        this group's member-id list, and adds the list's entries one by one.
        Other groups' member-id lists are kept. A repeated userId stops the
        refill with the entries before it in both tables. */
    method OnGroupUserList(groupId: string, list: seq<EntryGroupUserData>) returns (r: Status)
      modifies this`groupUsers, this`groupUserIds, this`notifications
      ensures var ids := KeysOf(list, UserKey);
        var k := FirstRepeat(ids);
        && groupUsers == Table(list[..k], UserKey)
        && groupUserIds == old(groupUserIds)[groupId := ids[..k]]
        && r == (if k == |list| then Ok else DuplicateKey(list[k].userId))
      ensures notifications == old(notifications) + (if r == Ok then [RecvGroupUserList(groupId, list)] else [])
    {
      ghost var ids := KeysOf(list, UserKey);
      KeysOfAt(list, UserKey);
      groupUsers := map[];
      groupUserIds := groupUserIds[groupId := []];
      var i := 0;
      while i < |list| && list[i].userId !in groupUsers
        invariant i <= |list|
        invariant Distinct(ids[..i])
        invariant groupUsers == Table(list[..i], UserKey)
        invariant groupId in groupUserIds && groupUserIds[groupId] == ids[..i]
        invariant groupUserIds == old(groupUserIds)[groupId := groupUserIds[groupId]]
        invariant notifications == old(notifications)
      {
        var entry := list[i];
        KeysOfPrefix(list, UserKey, i);
        DistinctSnoc(ids, i);
        TableStep(list, UserKey, i);
        groupUsers := groupUsers[entry.userId := entry];
        UpdateTwice(old(groupUserIds), groupId, groupUserIds[groupId], groupUserIds[groupId] + [entry.userId]);
        assert ids[..i + 1] == ids[..i] + [entry.userId];
        groupUserIds := groupUserIds[groupId := groupUserIds[groupId] + [entry.userId]];
        i := i + 1;
      }
      KeysOfPrefix(list, UserKey, i);
      FirstRepeatUnique(ids, i);
      if i < |list| {
        return DuplicateKey(list[i].userId);
      }
      assert list[..i] == list;
      notifications := notifications + [RecvGroupUserList(groupId, list)];
      r := Ok;
    }

    /** Clears the group table and adds the list's entries one by one, as
        OnGroupInvitationList does for the invitation table. */
    method OnGroupList(list: seq<EntryGroupData>) returns (r: Status)
      modifies this`groups, this`notifications
      ensures var k := FirstRepeat(KeysOf(list, GroupKey));
        && groups == Table(list[..k], GroupKey)
        && r == (if k == |list| then Ok else DuplicateKey(list[k].groupId))
      ensures notifications == old(notifications) + (if r == Ok then [RecvGroupList(list)] else [])
    {
      ghost var ids := KeysOf(list, GroupKey);
      KeysOfAt(list, GroupKey);
      groups := map[];
      var i := 0;
      while i < |list| && list[i].groupId !in groups
        invariant i <= |list|
        invariant Distinct(ids[..i])
        invariant groups == Table(list[..i], GroupKey)
        invariant notifications == old(notifications)
      {
        var entry := list[i];
        KeysOfPrefix(list, GroupKey, i);
        DistinctSnoc(ids, i);
        TableStep(list, GroupKey, i);
        groups := groups[entry.groupId := entry];
        i := i + 1;
      }
      KeysOfPrefix(list, GroupKey, i);
      FirstRepeatUnique(ids, i);
      if i < |list| {
        return DuplicateKey(list[i].groupId);
      }
      assert list[..i] == list;
      notifications := notifications + [RecvGroupList(list)];
      r := Ok;
    }

    method OnGroupJoin(message: Payload)
      modifies this`notifications
      ensures notifications == old(notifications) + [RecvGroupJoin(message)]
    {
      notifications := notifications + [RecvGroupJoin(message)];
    }

    method OnGroupLeave(message: Payload)
      modifies this`notifications
      ensures notifications == old(notifications) + [RecvGroupLeave(message)]
    {
      notifications := notifications + [RecvGroupLeave(message)];
    }

    /** Every Send method: reconnect first when auto-connect is on and there is
        no connected client, then emit the event. A failed handshake ends the
        send before the emit; with no client at all the emit fails. */
    method Send(ev: OutboundEvent, handshakeOk: bool) returns (r: Status)
      modifies this`client, this`transport, this`users, this`groups, this`groupInvitations
      ensures NeedsConnect(autoConnectWhenSend, old(client)) ==>
        && users == map[] && groups == map[] && groupInvitations == map[]
        && client == (if handshakeOk then Connected else Disconnected)
        && transport == old(transport) + [NewClient(serviceAddress, InboundEvents), ConnectAsync]
                        + (if handshakeOk then [EmitAsync(ev.WireName(), ev.Body())] else [])
        && r == (if handshakeOk then Ok else ConnectFailed)
      ensures !NeedsConnect(autoConnectWhenSend, old(client)) ==>
        && users == old(users) && groups == old(groups) && groupInvitations == old(groupInvitations)
        && client == old(client)
        && (old(client) == NoClient ==> r == NullClient && transport == old(transport))
        && (old(client) != NoClient ==> r == Ok && transport == old(transport) + [EmitAsync(ev.WireName(), ev.Body())])
    {
      if NeedsConnect(autoConnectWhenSend, client) {
        r := Connect(handshakeOk);
        if r != Ok {
          return;
        }
      }
      if client == NoClient {
        return NullClient;
      }
      transport := transport + [EmitAsync(ev.WireName(), ev.Body())];
      r := Ok;
    }
  }
}
