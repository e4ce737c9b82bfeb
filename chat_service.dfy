/** The chat state store: one `ChatState` record that every operation replaces with a
    new one built from the old (src/app/chat.service.ts). */
module Chat {
  import opened Wrappers
  import opened JsText
  import opened Clock

  datatype User = User(
    id: int,
    name: string,
    organization: Option<string>,
    avatar: Option<string>,
    isVerified: bool,
    unreadCount: Option<int>,
    initials: string)

  datatype Message = Message(id: int, userId: int, content: string, timestamp: string, isRead: bool)

  datatype ChatState = ChatState(
    users: seq<User>,
    directUsers: seq<User>,
    activeConversation: Option<User>,
    messages: seq<Message>,
    hasJoinedChat: bool)

  /** A user of one of the lists, with the fields the demo data fills in. */
  function ListedUser(id: int, name: string, organization: Option<string>, isVerified: bool,
                      unreadCount: Option<int>, initials: string): User
  {
    User(id, name, organization, None, isVerified, unreadCount, initials)
  }

  /** The demo state the store starts from. */
  function InitialState(): ChatState {
    ChatState(
      [ ListedUser(1, "Carlos", Some("Canohealth"), false, Some(3), "C"),
        ListedUser(2, "Abel", Some("CCMC"), false, Some(1), "A"),
        ListedUser(3, "Shikha", Some("CareMax"), false, Some(2), "S"),
        ListedUser(4, "Deepika", Some("Conviva"), false, Some(1), "D") ],
      [ ListedUser(5, "Jeremy Firow", None, false, None, "JF"),
        ListedUser(6, "Maria June", None, true, Some(2), "MJ"),
        ListedUser(7, "Emil Anders", None, false, None, "EA"),
        ListedUser(8, "Markus Gavrilov", None, false, None, "MG") ],
      Some(ListedUser(4, "Deepika Sharma", Some("PCP, Conviva"), true, None, "DS")),
      [ Message(1, 4, "Irure dolor in reprehenderit in voluptate velit esse cillum dolore eu fugiat nulla pariatur. Excepteur sint occaecat cupidatat non proident.", "12:49 PM", true) ],
      false)
  }

  /** `Array.prototype.findIndex` with `u => u.id === id`: the first position holding
      that id, or -1 when there is none. */
  function FindIndex(users: seq<User>, id: int): (k: int)
    ensures -1 <= k < |users|
    ensures k >= 0 ==> users[k].id == id
    ensures forall j :: 0 <= j < |users| && (k == -1 || j < k) ==> users[j].id != id
    decreases |users|
  {
    if users == [] then -1
    else if users[0].id == id then 0
    else
      var k := FindIndex(users[1..], id);
      if k == -1 then -1 else k + 1
  }

  /** The list with the unread counter of the first user with this id set to 0:
      same length, every other entry as it was. */
  function ClearUnread(users: seq<User>, id: int): (r: seq<User>)
    ensures |r| == |users|
    ensures forall j :: 0 <= j < |users| && j != FindIndex(users, id) ==> r[j] == users[j]
    ensures FindIndex(users, id) != -1 ==>
      var k := FindIndex(users, id); r[k] == users[k].(unreadCount := Some(0))
  {
    var k := FindIndex(users, id);
    if k == -1 then users else users[k := users[k].(unreadCount := Some(0))]
  }

  /** Clearing keeps every id in place, so the same entry is found again, now at 0;
      and clearing twice is clearing once. */
  lemma ClearUnreadFound(users: seq<User>, id: int)
    ensures var r := ClearUnread(users, id);
      && (forall j :: 0 <= j < |users| ==> r[j].id == users[j].id)
      && FindIndex(r, id) == FindIndex(users, id)
      && (FindIndex(r, id) != -1 ==> r[FindIndex(r, id)].unreadCount == Some(0))
      && ClearUnread(r, id) == r
  {
    var r := ClearUnread(users, id);
    assert forall j :: 0 <= j < |users| ==> r[j].id == users[j].id;
    FindIndexSameIds(users, r, id);
  }

  /** `FindIndex` only looks at the ids. */
  lemma {:induction false} FindIndexSameIds(a: seq<User>, b: seq<User>, id: int)
    requires |a| == |b|
    requires forall j :: 0 <= j < |a| ==> a[j].id == b[j].id
    ensures FindIndex(a, id) == FindIndex(b, id)
    decreases |a|
  {
    if a != [] && a[0].id != id {
      FindIndexSameIds(a[1..], b[1..], id);
    }
  }

  const PlaceholderContent := "This is a previous message from this conversation."

  /** The demo history shown for a conversation that was not already open. */
  function Placeholder(userId: int): Message {
    Message(1, userId, PlaceholderContent, "12:30 PM", true)
  }

  predicate IsActive(s: ChatState, userId: int) {
    s.activeConversation.Some? && s.activeConversation.value.id == userId
  }

  /** `getMessagesForUser`: the current log when that user's conversation is already
      open, otherwise the one placeholder message. */
  function MessagesForUser(s: ChatState, userId: int): (r: seq<Message>)
    ensures IsActive(s, userId) ==> r == s.messages
    ensures !IsActive(s, userId) ==> |r| == 1 && r[0].id == 1 && r[0].userId == userId && r[0].isRead
    ensures SequentialIds(s.messages) ==> SequentialIds(r)
  {
    if IsActive(s, userId) then s.messages else [Placeholder(userId)]
  }

  /** `setActiveConversation(user)`. */
  function Select(s: ChatState, u: User): (r: ChatState)
    ensures r.activeConversation == Some(u) && !r.hasJoinedChat
    ensures r.users == ClearUnread(s.users, u.id)
    ensures r.directUsers == ClearUnread(s.directUsers, u.id)
    ensures IsActive(s, u.id) ==> r.messages == s.messages
    ensures !IsActive(s, u.id) ==> r.messages == [Message(1, u.id, PlaceholderContent, "12:30 PM", true)]
  {
    s.(activeConversation := Some(u),
       messages := MessagesForUser(s, u.id),
       hasJoinedChat := false,
       users := ClearUnread(s.users, u.id),
       directUsers := ClearUnread(s.directUsers, u.id))
  }

  /** Selecting the same conversation again changes nothing further. */
  lemma SelectIdempotent(s: ChatState, u: User)
    ensures Select(Select(s, u), u) == Select(s, u)
  {
    ClearUnreadFound(s.users, u.id);
    ClearUnreadFound(s.directUsers, u.id);
  }

  /** Switching to `u` leaves the counter of every user with another id (for instance
      the previously active one) as it was, in both lists. */
  lemma SelectKeepsOtherCounters(s: ChatState, u: User, j: int)
    requires 0 <= j < |s.users| && s.users[j].id != u.id
    ensures Select(s, u).users[j] == s.users[j]
  {
  }

  /** `joinChat()`: only the joined flag changes. */
  function Join(s: ChatState): (r: ChatState)
    ensures r.hasJoinedChat
    ensures r.(hasJoinedChat := s.hasJoinedChat) == s
  {
    s.(hasJoinedChat := true)
  }

  /** `sendMessage(content, currentUserId)` at the given time of day: nothing on blank
      content, otherwise exactly one unread message appended after the old log. */
  function Send(s: ChatState, content: string, senderId: int, h: Hour, m: Minute): (r: ChatState)
    ensures IsBlank(content) ==> r == s
    ensures !IsBlank(content) ==>
      && r.(messages := s.messages) == s
      && |r.messages| == |s.messages| + 1
      && r.messages[..|s.messages|] == s.messages
      && r.messages[|s.messages|] == Message(|s.messages| + 1, senderId, content, FormatTime(h, m), false)
  {
    if IsBlank(content) then s
    else s.(messages := s.messages + [Message(|s.messages| + 1, senderId, content, FormatTime(h, m), false)])
  }

  /** Message ids follow positions: the i-th message has id i + 1. */
  predicate SequentialIds(messages: seq<Message>) {
    forall i :: 0 <= i < |messages| ==> messages[i].id == i + 1
  }

  /** Every operation keeps the ids sequential, since `sendMessage` numbers a new
      message by the log's length and a fresh history starts at id 1. */
  lemma OperationsKeepSequentialIds(s: ChatState, u: User, content: string, senderId: int, h: Hour, m: Minute)
    requires SequentialIds(s.messages)
    ensures SequentialIds(Select(s, u).messages)
    ensures SequentialIds(Join(s).messages)
    ensures SequentialIds(Send(s, content, senderId, h, m).messages)
  {
  }

  /** The service object: it owns the current state and replaces it on every operation. */
  class ChatService {
    var state: ChatState

    ghost predicate Valid()
      reads this
    {
      SequentialIds(state.messages)
    }

    constructor()
      ensures state == InitialState() && Valid()
    {
      state := InitialState();
    }

    function GetCurrentState(): ChatState
      reads this
    {
      state
    }

    method SetActiveConversation(user: User)
      requires Valid()
      modifies this
      ensures Valid()
      ensures state == Select(old(state), user)
    {
      var current := GetCurrentState();
      var updatedUsers := ClearUnread(current.users, user.id);
      var updatedDirectUsers := ClearUnread(current.directUsers, user.id);
      var messages := MessagesForUser(current, user.id);
      state := current.(activeConversation := Some(user), messages := messages,
                        hasJoinedChat := false, users := updatedUsers,
                        directUsers := updatedDirectUsers);
    }

    method JoinChat()
      requires Valid()
      modifies this
      ensures Valid()
      ensures state == Join(old(state))
    {
      state := state.(hasJoinedChat := true);
    }

    /** `hours` and `minutes` stand for the clock reading `new Date()` would give. */
    method SendMessage(content: string, currentUserId: int, hours: Hour, minutes: Minute)
      requires Valid()
      modifies this
      ensures Valid()
      ensures state == Send(old(state), content, currentUserId, hours, minutes)
    {
      if IsBlank(content) {
        return;
      }
      var current := GetCurrentState();
      var newMessage := Message(|current.messages| + 1, currentUserId, content, FormatTime(hours, minutes), false);
      state := current.(messages := current.messages + [newMessage]);
    }
  }
}
