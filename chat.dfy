/** `hooks/useChat.tsx`: the chat hook's state (messages, users typing, users in the
    room) and the socket events that update it. The updaters are pure list
    transforms; the hook applies them to its state and records what it emits. */
module Chat {
  import opened Options
  import opened Text
  import opened Seqs

  /** The `meta` a message carries (any JSON value); its contents are not inspected. */
  datatype Meta = Meta(json: string)

  /** `sendMessage`'s default `meta`, the empty object. */
  const EmptyMeta: Meta := Meta("{}")

  datatype ChatMessage = ChatMessage(text: string, user: Option<string>, meta: Option<Meta>, createdAt: Option<string>)

  datatype TypingUser = TypingUser(id: string, name: Option<string>)

  /** A member of the room as the server reports it; its contents are not inspected. */
  datatype RoomUser = RoomUser(description: string)

  /** What the hook does on its socket: the events it emits, and closing it. */
  datatype Emit =
    | JoinRoom(roomId: string)
    | LeaveRoom(roomId: string)
    | SendMessage(room: Option<string>, text: string, meta: Meta, recipientId: Option<string>)
    | Typing(room: Option<string>, isTyping: bool)
    | GetRoomUsers(room: Option<string>)
    | DisconnectSocket

  predicate UniqueIds(users: seq<TypingUser>) {
    forall i, j :: 0 <= i < j < |users| ==> users[i].id != users[j].id
  }

  predicate HasId(users: seq<TypingUser>, id: string) {
    exists i :: 0 <= i < |users| && users[i].id == id
  }

  /** `prev.find(u => u.id === id)`: the first user with that id. */
  function FindById(users: seq<TypingUser>, id: string): (r: Option<TypingUser>)
    ensures r.None? <==> !HasId(users, id)
    ensures r.Some? ==> r.value in users && r.value.id == id
  {
    if users == [] then None
    else if users[0].id == id then Some(users[0])
    else
      var r := FindById(users[1..], id);
      assert HasId(users, id) && users[0].id != id ==> HasId(users[1..], id) by {
        if HasId(users, id) && users[0].id != id {
          var i :| 0 <= i < |users| && users[i].id == id;
          assert users[1..][i - 1] == users[i];
        }
      }
      assert HasId(users[1..], id) ==> HasId(users, id) by {
        if HasId(users[1..], id) {
          var i :| 0 <= i < |users[1..]| && users[1..][i].id == id;
          assert users[i + 1] == users[1..][i];
        }
      }
      r
  }

  function WithoutId(users: seq<TypingUser>, id: string): seq<TypingUser> {
    Filter(users, (u: TypingUser) => u.id != id)
  }

  /** The `typing` updater: a user who starts typing is appended unless a user with
      the same id is already listed; one who stops is removed under every entry with
      that id, and the others keep their order. */
  function OnTyping(prev: seq<TypingUser>, user: TypingUser, isTyping: bool): (r: seq<TypingUser>)
    ensures isTyping ==> HasId(r, user.id) && |prev| <= |r| <= |prev| + 1 && r[..|prev|] == prev
    ensures isTyping ==> (r == prev <==> HasId(prev, user.id))
    ensures !isTyping ==> !HasId(r, user.id)
    ensures isTyping && !HasId(prev, user.id) ==> r == prev + [user]
    ensures !isTyping ==> forall u :: u in r <==> u in prev && u.id != user.id
    ensures !isTyping ==> IsSubsequence(r, prev)
  {
    if isTyping then
      if FindById(prev, user.id).None? then
        assert (prev + [user])[|prev|] == user;
        prev + [user]
      else prev
    else
      var r := WithoutId(prev, user.id);
      assert forall i :: 0 <= i < |r| ==> r[i] in r;
      FilterIsSubsequence(prev, (u: TypingUser) => u.id != user.id);
      r
  }

  /** Typing users never repeat an id. */
  lemma OnTypingKeepsIdsUnique(prev: seq<TypingUser>, user: TypingUser, isTyping: bool)
    requires UniqueIds(prev)
    ensures UniqueIds(OnTyping(prev, user, isTyping))
  {
    var r := OnTyping(prev, user, isTyping);
    if !isTyping {
      SubsequenceKeepsUniqueIds(r, prev);
    }
  }

  lemma {:induction false} SubsequenceKeepsUniqueIds(r: seq<TypingUser>, s: seq<TypingUser>)
    requires UniqueIds(s) && IsSubsequence(r, s)
    ensures UniqueIds(r)
    decreases |s|
  {
    if r != [] {
      assert s != [];
      assert UniqueIds(s[1..]) by {
        forall i, j | 0 <= i < j < |s[1..]| ensures s[1..][i].id != s[1..][j].id {
          assert s[1..][i] == s[i + 1] && s[1..][j] == s[j + 1];
        }
      }
      if r[0] == s[0] && IsSubsequence(r[1..], s[1..]) {
        SubsequenceKeepsUniqueIds(r[1..], s[1..]);
        SubsequenceMembers(r[1..], s[1..]);
        forall j | 0 < j < |r| ensures r[0].id != r[j].id {
          assert r[j] == r[1..][j - 1];
          assert r[j] in s[1..];
          var k :| 0 <= k < |s[1..]| && s[1..][k] == r[j];
          assert s[k + 1] == r[j];
        }
        forall i, j | 0 <= i < j < |r| ensures r[i].id != r[j].id {
          if i > 0 {
            assert r[i] == r[1..][i - 1] && r[j] == r[1..][j - 1];
          }
        }
      } else {
        SubsequenceKeepsUniqueIds(r, s[1..]);
      }
    }
  }

  lemma {:induction false} SubsequenceMembers<T>(r: seq<T>, s: seq<T>)
    requires IsSubsequence(r, s)
    ensures forall x :: x in r ==> x in s
    decreases |s|
  {
    if r != [] {
      if r[0] == s[0] && IsSubsequence(r[1..], s[1..]) {
        SubsequenceMembers(r[1..], s[1..]);
        assert forall x :: x in r ==> x == r[0] || x in r[1..];
      } else {
        SubsequenceMembers(r, s[1..]);
      }
    }
  }

  /** A user who starts and then stops typing leaves the list as stopping alone
      would: the entry added for them is the one removed. */
  lemma StartThenStopTyping(prev: seq<TypingUser>, user: TypingUser)
    ensures OnTyping(OnTyping(prev, user, true), user, false) == OnTyping(prev, user, false)
  {
    var keep := (u: TypingUser) => u.id != user.id;
    if !HasId(prev, user.id) {
      FilterAppend(prev, [user], keep);
      assert Filter([user], keep) == [];
    }
  }

  /** The `receiveMessage` updater: the message goes at the end; earlier messages are
      unchanged. */
  function OnReceive(prev: seq<ChatMessage>, msg: ChatMessage): (r: seq<ChatMessage>)
    ensures |r| == |prev| + 1 && r[..|prev|] == prev && r[|prev|] == msg
  {
    prev + [msg]
  }

  /** The `roomHistory` updater (and the REST history fetch): the history replaces the
      list, and a missing history empties it. */
  function OnRoomHistory(hist: Option<seq<ChatMessage>>): (r: seq<ChatMessage>)
    ensures hist.None? ==> r == []
    ensures hist.Some? ==> r == hist.value
  {
    hist.GetOr([])
  }

  /** The body of the REST history reply: its `messages` list, if any, and whatever
      else the server put in it, which is not inspected. */
  datatype HistoryReply = HistoryReply(messages: Option<seq<ChatMessage>>, rest: string)

  /** Outcome of the REST history request. */
  datatype FetchOutcome = Fetched(data: HistoryReply) | FetchFailed

  /** The hook after its effect has created the socket and registered the handlers. */
  class ChatSession {
    const roomId: Option<string>
    var connected: bool
    var messages: seq<ChatMessage>
    var typingUsers: seq<TypingUser>
    var usersInRoom: seq<RoomUser>
    /** What has been done on the socket, oldest first. */
    var emitted: seq<Emit>

    ghost predicate Valid()
      reads this
    {
      UniqueIds(typingUsers)
    }

    constructor (roomId: Option<string>)
      ensures Valid()
      ensures this.roomId == roomId && !connected
      ensures messages == [] && typingUsers == [] && usersInRoom == [] && emitted == []
    {
      this.roomId := roomId;
      connected := false;
      messages, typingUsers, usersInRoom, emitted := [], [], [], [];
    }

    /** `connect`: joins the room when a non-empty room id was given. */
    method OnConnect()
      modifies this
      ensures connected
      ensures emitted == old(emitted) + (if roomId.Some? && roomId.value != "" then [JoinRoom(roomId.value)] else [])
      ensures messages == old(messages) && typingUsers == old(typingUsers) && usersInRoom == old(usersInRoom)
    {
      connected := true;
      if roomId.Some? && roomId.value != "" {
        emitted := emitted + [JoinRoom(roomId.value)];
      }
    }

    /** The effect's cleanup: leaves the room when a non-empty room id was given,
        then disconnects the socket. The handlers are removed before the socket
        disconnects, so the `disconnect` handler does not run and `connected` keeps
        its value. */
    method Cleanup()
      modifies this
      ensures emitted == old(emitted) + (if roomId.Some? && roomId.value != "" then [LeaveRoom(roomId.value)] else []) + [DisconnectSocket]
      ensures messages == old(messages) && typingUsers == old(typingUsers) && usersInRoom == old(usersInRoom)
      ensures connected == old(connected)
    {
      if roomId.Some? && roomId.value != "" {
        emitted := emitted + [LeaveRoom(roomId.value)];
      }
      emitted := emitted + [DisconnectSocket];
    }

    method OnDisconnect()
      modifies this
      ensures !connected
      ensures messages == old(messages) && typingUsers == old(typingUsers)
      ensures usersInRoom == old(usersInRoom) && emitted == old(emitted)
    {
      connected := false;
    }

    method Receive(msg: ChatMessage)
      modifies this
      ensures messages == OnReceive(old(messages), msg)
      ensures typingUsers == old(typingUsers) && usersInRoom == old(usersInRoom)
      ensures connected == old(connected) && emitted == old(emitted)
    {
      messages := OnReceive(messages, msg);
    }

    method RoomHistory(hist: Option<seq<ChatMessage>>)
      modifies this
      ensures messages == OnRoomHistory(hist)
      ensures typingUsers == old(typingUsers) && usersInRoom == old(usersInRoom)
      ensures connected == old(connected) && emitted == old(emitted)
    {
      messages := OnRoomHistory(hist);
    }

    method TypingEvent(user: TypingUser, isTyping: bool)
      requires Valid()
      modifies this
      ensures Valid()
      ensures typingUsers == OnTyping(old(typingUsers), user, isTyping)
      ensures messages == old(messages) && usersInRoom == old(usersInRoom)
      ensures connected == old(connected) && emitted == old(emitted)
    {
      OnTypingKeepsIdsUnique(typingUsers, user, isTyping);
      typingUsers := OnTyping(typingUsers, user, isTyping);
    }

    /** `sendMessage`: blank text emits nothing; otherwise the room, the untrimmed
        text, the meta (`EmptyMeta` when the caller gives none) and the recipient go
        out. */
    method SendText(text: string, meta: Meta, recipientId: Option<string>)
      modifies this
      ensures IsBlank(text) ==> emitted == old(emitted)
      ensures !IsBlank(text) ==> emitted == old(emitted) + [SendMessage(roomId, text, meta, recipientId)]
      ensures messages == old(messages) && typingUsers == old(typingUsers)
      ensures usersInRoom == old(usersInRoom) && connected == old(connected)
    {
      if IsBlank(text) {
        return;
      }
      emitted := emitted + [SendMessage(roomId, text, meta, recipientId)];
    }

    method SendTyping(isTyping: bool)
      modifies this
      ensures emitted == old(emitted) + [Typing(roomId, isTyping)]
      ensures messages == old(messages) && typingUsers == old(typingUsers)
      ensures usersInRoom == old(usersInRoom) && connected == old(connected)
    {
      emitted := emitted + [Typing(roomId, isTyping)];
    }

    /** `fetchHistoryREST` once the request settles: a reply replaces the messages
        (an absent list empties them) and is returned whole; a failure changes
        nothing and returns null. */
    method FetchHistoryFinished(outcome: FetchOutcome) returns (returned: Option<HistoryReply>)
      modifies this
      ensures outcome.Fetched? ==> messages == OnRoomHistory(outcome.data.messages) && returned == Some(outcome.data)
      ensures outcome.FetchFailed? ==> messages == old(messages) && returned.None?
      ensures typingUsers == old(typingUsers) && usersInRoom == old(usersInRoom)
      ensures connected == old(connected) && emitted == old(emitted)
    {
      if outcome.Fetched? {
        messages := OnRoomHistory(outcome.data.messages);
        returned := Some(outcome.data);
      } else {
        returned := None;
      }
    }

    /** `getRoomUsers`: the request, then the acknowledgement `res?.users || []`
        which becomes `usersInRoom` and the promise's value. */
    method RequestRoomUsers()
      modifies this
      ensures emitted == old(emitted) + [GetRoomUsers(roomId)]
      ensures messages == old(messages) && typingUsers == old(typingUsers)
      ensures usersInRoom == old(usersInRoom) && connected == old(connected)
    {
      emitted := emitted + [GetRoomUsers(roomId)];
    }

    method RoomUsersReply(users: Option<seq<RoomUser>>) returns (resolved: seq<RoomUser>)
      modifies this
      ensures usersInRoom == resolved
      ensures users.None? ==> resolved == []
      ensures users.Some? ==> resolved == users.value
      ensures messages == old(messages) && typingUsers == old(typingUsers)
      ensures connected == old(connected) && emitted == old(emitted)
    {
      resolved := users.GetOr([]);
      usersInRoom := resolved;
    }
  }
}
