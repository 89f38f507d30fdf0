/** Realtime channels: what a join promises and what a subscription checks. */
module Channels {
  import opened Base
  import opened Text
  import opened VoiceTypes
  import opened VoiceState
  import opened VoiceRuns
  import VoiceLaws
  import opened RoomLaws
  import Do = VoiceCommands

  /** Whether the user may subscribe to the channel. A room channel names the room between its first two colons. */
  function AuthorizeChannel(s: State, userId: string, channel: string): Result<(), Error> {
    if HasPrefix(channel, "user:") then
      if channel != "user:" + userId then Err(PermissionDenied) else Ok(())
    else if HasPrefix(channel, "room:") then
      var parts := Split(channel, ':');
      if |parts| < 2 then Err(InvalidArgument)
      else if parts[1] !in s.rooms then Err(RoomNotFound)
      else
        var role := Do.RoleOf(s, s.rooms[parts[1]], userId);
        if |parts| == 3 && parts[2] == "admins" && !RoleCanModerate(role) then Err(PermissionDenied) else Ok(())
    else if HasPrefix(channel, "listener_session:") then Ok(())
    else Err(PermissionDenied)
  }

  /** A subscription token is refused to a blank user and for a blank channel before the channel is looked at. */
  function SubscriptionToken(s: State, userId: string, channel: string): Result<(), Error> {
    if TrimSpace(userId) == "" || TrimSpace(channel) == "" then Err(InvalidArgument)
    else AuthorizeChannel(s, userId, channel)
  }

  lemma SplitRoomChannel(roomId: string)
    requires ':' !in roomId
    ensures Split("room:" + roomId, ':') == ["room", roomId]
  {
    hide Split;
    SplitAtFirst("room", roomId, ':');
    SplitOfPiece(roomId, ':');
    assert "room:" + roomId == "room" + [':'] + roomId;
  }

  lemma NotAUserChannel(rest: string)
    ensures !HasPrefix("room:" + rest, "user:") && HasPrefix("room:" + rest, "room:")
  {
    assert ("room:" + rest)[0] == 'r';
  }

  /** A channel named after a user is open to that user and refused to everyone else. */
  lemma UserChannelIsPrivate(s: State, userId: string, other: string)
    ensures AuthorizeChannel(s, userId, "user:" + other) == if other == userId then Ok(()) else Err(PermissionDenied)
  {
    assert ("user:" + other)[5..] == other && ("user:" + userId)[5..] == userId;
  }

  /** The pieces of a topic are three, and the third is "admins", for the admin channel alone. */
  lemma SplitRoomTopic(roomId: string, rest: string)
    requires ':' !in roomId
    ensures var parts := Split("room:" + roomId + ":" + rest, ':');
            && |parts| >= 3 && parts[1] == roomId
            && (|parts| == 3 && parts[2] == "admins" <==> rest == "admins")
  {
    hide Split;
    SplitAtFirst("room", roomId + [':'] + rest, ':');
    SplitAtFirst(roomId, rest, ':');
    assert "room:" + roomId + ":" + rest == "room" + [':'] + (roomId + [':'] + rest);
    JoinOfSplit(rest, ':');
    SplitOfPiece("admins", ':');
  }

  /** Every colon-free room id with anything, or nothing, behind a second colon. */
  lemma RoomTopicAuthorized(s: State, userId: string, roomId: string, rest: string)
    requires Keyed(s) && ':' !in roomId
    ensures AuthorizeChannel(s, userId, "room:" + roomId)
         == if roomId in s.rooms then Ok(()) else Err(RoomNotFound)
    ensures AuthorizeChannel(s, userId, "room:" + roomId + ":" + rest)
         == if roomId !in s.rooms then Err(RoomNotFound)
            else if rest == "admins" && !CanModerate(s, roomId, userId) then Err(PermissionDenied)
            else Ok(())
  {
    hide Split, Do.RoleOf;
    SplitRoomChannel(roomId);
    SplitRoomTopic(roomId, rest);
    NotAUserChannel(roomId);
    NotAUserChannel(roomId + ":" + rest);
    assert "room:" + roomId + ":" + rest == "room:" + (roomId + ":" + rest);
    if roomId in s.rooms {
      ModeratesByLists(s, roomId, userId);
    }
  }

  /** A room channel is authorised whenever the room exists; its admin channel, for whoever may moderate it. */
  lemma RoomChannelAuthorized(s: State, roomId: string, userId: string)
    requires Keyed(s) && roomId in s.rooms && ':' !in roomId
    ensures AuthorizeChannel(s, userId, "room:" + roomId).Ok?
    ensures AuthorizeChannel(s, userId, "room:" + roomId + ":admins").Ok? <==> CanModerate(s, roomId, userId)
  {
    hide AuthorizeChannel;
    RoomTopicAuthorized(s, userId, roomId, "admins");
    assert "room:" + roomId + ":" + "admins" == "room:" + roomId + ":admins";
  }

  lemma ModeratesByLists(s: State, roomId: string, userId: string)
    requires Keyed(s) && roomId in s.rooms
    ensures RoleCanModerate(Do.RoleOf(s, s.rooms[roomId], userId)) <==> CanModerate(s, roomId, userId)
  {
  }

  /** Who may subscribe to what, without the way channel names are taken apart. */
  ghost predicate OpenTo(s: State, userId: string, channel: string) {
    || channel == "user:" + userId
    || (exists id :: channel == "listener_session:" + id)
    || (exists roomId :: roomId in s.rooms && channel == "room:" + roomId)
    || (exists roomId, rest ::
          && roomId in s.rooms && channel == "room:" + roomId + ":" + rest
          && (rest == "admins" ==> CanModerate(s, roomId, userId)))
  }

  lemma OpenIsAuthorized(s: State, userId: string, channel: string)
    requires Keyed(s) && forall roomId :: roomId in s.rooms ==> ':' !in roomId
    requires OpenTo(s, userId, channel)
    ensures AuthorizeChannel(s, userId, channel) == Ok(())
  {
    hide Split, CanModerate, Do.RoleOf, Keyed;
    UserChannelIsPrivate(s, userId, userId);
    if id :| channel == "listener_session:" + id {
      assert channel[0] == 'l' && HasPrefix(channel, "listener_session:");
      assert "user:"[0] == 'u' && "room:"[0] == 'r';
    } else if roomId :| roomId in s.rooms && channel == "room:" + roomId {
      RoomTopicAuthorized(s, userId, roomId, "");
    } else if roomId, rest :| && roomId in s.rooms && channel == "room:" + roomId + ":" + rest
                              && (rest == "admins" ==> CanModerate(s, roomId, userId)) {
      RoomTopicAuthorized(s, userId, roomId, rest);
    }
  }

  /** The text up to the first colon, and what is behind it if there is one. */
  lemma {:induction false} FirstColon(body: string) returns (roomId: string, rest: string)
    ensures ':' !in roomId && (body == roomId || body == roomId + ":" + rest)
  {
    if body == "" || body[0] == ':' {
      roomId, rest := "", if body == "" then "" else body[1..];
    } else {
      roomId, rest := FirstColon(body[1..]);
      roomId := [body[0]] + roomId;
    }
  }

  lemma AuthorizedIsOpen(s: State, userId: string, channel: string)
    requires Keyed(s) && AuthorizeChannel(s, userId, channel).Ok?
    ensures OpenTo(s, userId, channel)
  {
    hide Split, CanModerate, Do.RoleOf, Keyed;
    if HasPrefix(channel, "room:") {
      var roomId, rest := FirstColon(channel[5..]);
      assert channel == "room:" + channel[5..];
      assert channel == "room:" + roomId || channel == "room:" + roomId + ":" + rest;
      RoomTopicAuthorized(s, userId, roomId, rest);
    } else if HasPrefix(channel, "listener_session:") {
      assert channel == "listener_session:" + channel[17..];
    }
  }

  /** The channel is a room's, and no such room is stored. */
  ghost predicate NamesMissingRoom(s: State, channel: string) {
    exists roomId, rest :: && ':' !in roomId && roomId !in s.rooms
                           && (channel == "room:" + roomId || channel == "room:" + roomId + ":" + rest)
  }

  lemma RefusalOf(s: State, userId: string, channel: string)
    requires Keyed(s) && AuthorizeChannel(s, userId, channel).Err?
    ensures AuthorizeChannel(s, userId, channel).error
         == if NamesMissingRoom(s, channel) then RoomNotFound else PermissionDenied
  {
    hide Split, CanModerate, Do.RoleOf, Keyed, AuthorizeChannel;
    if roomId, rest :| && ':' !in roomId && roomId !in s.rooms
                       && (channel == "room:" + roomId || channel == "room:" + roomId + ":" + rest) {
      RoomTopicAuthorized(s, userId, roomId, rest);
    } else if HasPrefix(channel, "room:") {
      var roomId, rest := FirstColon(channel[5..]);
      assert channel == "room:" + channel[5..];
      assert channel == "room:" + roomId || channel == "room:" + roomId + ":" + rest;
      RoomTopicAuthorized(s, userId, roomId, rest);
    } else {
      OtherRefusal(s, userId, channel);
    }
  }

  lemma OtherRefusal(s: State, userId: string, channel: string)
    requires AuthorizeChannel(s, userId, channel).Err? && !HasPrefix(channel, "room:")
    ensures AuthorizeChannel(s, userId, channel).error == PermissionDenied
  {
    hide Split, Do.RoleOf;
  }

  /**
   The authorisation rule for every user and every channel name, over the colon-free room ids the service makes:
   who may subscribe, and whether the others hear that the room is missing or that they may not.
   */
  lemma AuthorizedIff(s: State, userId: string, channel: string)
    requires Keyed(s) && forall roomId :: roomId in s.rooms ==> ':' !in roomId
    ensures AuthorizeChannel(s, userId, channel)
         == if OpenTo(s, userId, channel) then Ok(())
            else Err(if NamesMissingRoom(s, channel) then RoomNotFound else PermissionDenied)
  {
    hide AuthorizeChannel, OpenTo, Keyed, NamesMissingRoom;
    if OpenTo(s, userId, channel) {
      OpenIsAuthorized(s, userId, channel);
    } else if AuthorizeChannel(s, userId, channel).Ok? {
      AuthorizedIsOpen(s, userId, channel);
    } else {
      RefusalOf(s, userId, channel);
    }
  }

  function Rank(role: Role): nat {
    match role
    case Listener => 0
    case Speaker => 1
    case _ => 2
  }

  /** A user's role in a room never falls, and does not change at all once it can moderate. */
  lemma RoleOnlyRises(cfg: ServiceConfig, ss: seq<State>, cmds: seq<Command>, times: seq<Time>, i: nat, j: nat,
                      roomId: string, userId: string)
    requires Run(cfg, ss, cmds, times) && i <= j < |ss| && roomId in ss[i].rooms
    ensures roomId in ss[j].rooms
    ensures var before := Do.RoleOf(ss[i], ss[i].rooms[roomId], userId);
            var after := Do.RoleOf(ss[j], ss[j].rooms[roomId], userId);
            Rank(before) <= Rank(after) && (RoleCanModerate(before) ==> after == before)
  {
    hide Run, VoiceLaws.Staged;
    RoomLifecycle(cfg, ss, cmds, times, i, j, roomId);
    var room := ss[i].rooms[roomId];
    if id :| id in RequestsOf(ss[i].requests, room.id, userId, RequestApproved) {
      DecidedForever(cfg, ss, cmds, times, i, j, id);
      assert id in RequestsOf(ss[j].requests, room.id, userId, RequestApproved);
    }
  }

  /** The user joins the room, as whatever they are or as a speaker, and the answer lists the channel. */
  predicate Promised(s: State, roomId: string, userId: string, id: string, now: Time, channel: string) {
    || (&& Do.JoinRoom(s, roomId, userId, id, now).1.Ok?
        && channel in Do.JoinRoom(s, roomId, userId, id, now).1.value.channels)
    || (&& Do.CreateSpeakerSession(s, roomId, userId, id, now).1.Ok?
        && channel in Do.CreateSpeakerSession(s, roomId, userId, id, now).1.value.channels)
  }

  /** The channel promise: every channel a join lists is authorised for that user then and in every later state. */
  lemma JoinChannelsStayOpen(cfg: ServiceConfig, ss: seq<State>, cmds: seq<Command>, times: seq<Time>, i: nat, j: nat,
                             roomId: string, userId: string, id: string, now: Time, channel: string)
    requires Run(cfg, ss, cmds, times) && i <= j < |ss|
    requires Promised(ss[i], roomId, userId, id, now, channel)
    ensures AuthorizeChannel(ss[j], userId, channel).Ok?
  {
    hide Run, AuthorizeChannel, Sound;
    VoiceLaws.AlwaysKeyed(cfg, ss, cmds, times, i);
    var role := Do.RoleOf(ss[i], ss[i].rooms[roomId], userId);
    ChannelStaysOpen(cfg, ss, cmds, times, i, j, roomId, userId, role, channel);
  }

  lemma ChannelStaysOpen(cfg: ServiceConfig, ss: seq<State>, cmds: seq<Command>, times: seq<Time>, i: nat, j: nat,
                         roomId: string, userId: string, role: Role, channel: string)
    requires Run(cfg, ss, cmds, times) && i <= j < |ss| && roomId in ss[i].rooms
    requires role == Do.RoleOf(ss[i], ss[i].rooms[roomId], userId)
    requires channel in Do.ChannelsFor(roomId, userId, role)
    ensures AuthorizeChannel(ss[j], userId, channel).Ok?
  {
    hide Run, AuthorizeChannel, Do.RoleOf;
    VoiceLaws.AlwaysKeyed(cfg, ss, cmds, times, j);
    RoomLifecycle(cfg, ss, cmds, times, i, j, roomId);
    RoomChannelAuthorized(ss[j], roomId, userId);
    UserChannelIsPrivate(ss[j], userId, userId);
    if RoleCanModerate(role) {
      ModeratorByList(ss[i], roomId, userId);
      AuthorityLasts(cfg, ss, cmds, times, i, j, roomId, userId);
    }
  }

  lemma ModeratorByList(s: State, roomId: string, userId: string)
    requires roomId in s.rooms && RoleCanModerate(Do.RoleOf(s, s.rooms[roomId], userId))
    ensures CanModerate(s, roomId, userId)
  {
  }

  lemma TrimKeepsFirst(s: string)
    requires s != "" && !IsSpace(s[0])
    ensures TrimSpace(s) != ""
  {
    TrimRightKeepsFirst(s);
  }

  lemma {:induction false} TrimRightKeepsFirst(s: string)
    requires s != "" && !IsSpace(s[0])
    ensures TrimRight(s) != ""
  {
    if |s| > 1 {
      TrimRightKeepsFirst(s[..|s| - 1]);
    }
  }

  /** Subscription tokens keep the promise for exactly the users whose id is not blank; a join does not check that. */
  lemma JoinChannelsSubscribeIff(cfg: ServiceConfig, ss: seq<State>, cmds: seq<Command>, times: seq<Time>, i: nat, j: nat,
                                 roomId: string, userId: string, id: string, now: Time, channel: string)
    requires Run(cfg, ss, cmds, times) && i <= j < |ss|
    requires Promised(ss[i], roomId, userId, id, now, channel)
    ensures SubscriptionToken(ss[j], userId, channel).Ok? <==> TrimSpace(userId) != ""
  {
    hide Run, AuthorizeChannel, TrimSpace, Do.RoleOf;
    JoinChannelsStayOpen(cfg, ss, cmds, times, i, j, roomId, userId, id, now, channel);
    TrimKeepsFirst(channel);
  }
}
