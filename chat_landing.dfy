/** The chat landing component: a view that keeps its own user lists and message list
    and updates them in place (src/app/chat-landing/chat-landing.component.ts). Its local
    `User` and `Message` interfaces are the chat service's, so the same datatypes are used. */
module ChatLanding {
  import opened Wrappers
  import opened JsText
  import opened Clock
  import opened Chat

  /** Widths below this many pixels count as a mobile layout. */
  const MobileBreakpoint := 768

  /** The signed-in user the component renders messages for. */
  function CurrentUser(): User {
    User(1, "PCP", None, Some("assets/images/avatar-doctor.png"), false, None, "PCP")
  }

  class ChatLandingComponent {
    var searchQuery: string
    var currentMessage: string
    var hasJoinedChat: bool
    var windowWidth: int
    var isMobile: bool
    const currentUser: User := CurrentUser()
    var users: seq<User>
    var directUsers: seq<User>
    var activeConversation: User
    var messages: seq<Message>

    /** Message ids follow positions, as `sendMessage` numbers by the list's length. */
    ghost predicate Valid()
      reads this
    {
      SequentialIds(messages)
    }

    /** `innerWidth` is the window width when the component is created. */
    constructor(innerWidth: int)
      ensures Valid()
      ensures currentMessage == "" && searchQuery == "" && !hasJoinedChat && !isMobile
      ensures windowWidth == innerWidth && currentUser == CurrentUser()
      ensures users == InitialState().users && directUsers == InitialState().directUsers
      ensures activeConversation == InitialState().activeConversation.value
      ensures messages == InitialState().messages
    {
      var init := InitialState();
      searchQuery, currentMessage, hasJoinedChat := "", "", false;
      windowWidth, isMobile := innerWidth, false;
      users, directUsers := init.users, init.directUsers;
      activeConversation := init.activeConversation.value;
      messages := init.messages;
    }

    method NgOnInit()
      modifies this`isMobile
      ensures isMobile <==> windowWidth < MobileBreakpoint
    {
      CheckIfMobile();
    }

    method CheckIfMobile()
      modifies this`isMobile
      ensures isMobile <==> windowWidth < MobileBreakpoint
    {
      isMobile := windowWidth < MobileBreakpoint;
    }

    /** The window `resize` listener, given the new inner width. */
    method OnResize(innerWidth: int)
      modifies this`windowWidth, this`isMobile
      ensures windowWidth == innerWidth
      ensures isMobile <==> innerWidth < MobileBreakpoint
    {
      windowWidth := innerWidth;
      CheckIfMobile();
    }

    /** Only the open conversation changes: no message or unread counter is touched. */
    method SelectChat(user: User)
      modifies this`activeConversation
      ensures activeConversation == user
    {
      activeConversation := user;
    }

    /** `hours` and `minutes` stand for the clock reading `new Date()` would give. */
    method SendMessage(hours: Hour, minutes: Minute)
      requires Valid()
      modifies this`messages, this`currentMessage
      ensures Valid()
      ensures IsBlank(old(currentMessage)) ==> messages == old(messages) && currentMessage == old(currentMessage)
      ensures !IsBlank(old(currentMessage)) ==>
        && messages == old(messages) + [Message(|old(messages)| + 1, currentUser.id, old(currentMessage), FormatTime(hours, minutes), false)]
        && currentMessage == ""
        && IsUserMessage(messages[|messages| - 1].userId)
    {
      if Trim(currentMessage) == "" {
        return;
      }
      var newMessage := Message(|messages| + 1, currentUser.id, currentMessage, FormatTime(hours, minutes), false);
      messages := messages + [newMessage];
      currentMessage := "";
    }

    method JoinChat()
      modifies this`hasJoinedChat
      ensures hasJoinedChat
    {
      hasJoinedChat := true;
    }

    /** Messages written by the signed-in user, the one with id 1, are drawn on the
        user's side; every other sender's on the other side. */
    predicate IsUserMessage(userId: int): (b: bool)
      ensures b <==> userId == 1
    {
      userId == currentUser.id
    }
  }
}
