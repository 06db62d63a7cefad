/**
 * The two-party conversation of `useChat`: which realtime messages belong to the open
 * conversation, how they are appended, and the guards of `fetchMessages` and `sendMessage`.
 */
module Chat {
  import opened Wrappers

  datatype ChatMessage = ChatMessage(
    id: string,
    senderId: string,
    recipientId: string,
    content: string,
    read: bool,
    createdAt: string)

  /** The row `sendMessage` asks the platform to insert. */
  datatype Outgoing = Outgoing(senderId: string, recipientId: string, content: string)

  /** The hook's state: the conversation and its loading flag (initially `true`). */
  datatype State = State(messages: seq<ChatMessage>, loading: bool)

  const Initial := State([], true)

  /**
   * `!user || !recipientId` is false: a user is signed in and a recipient is chosen. The
   * recipient is a string, so the empty string counts as no recipient.
   */
  predicate Ready(user: Option<string>, recipient: Option<string>): (b: bool)
    ensures b ==> user != None && recipient != None
    ensures recipient == Some("") ==> !b
    ensures user != None && recipient != None && recipient.value != "" ==> b
  {
    user != None && recipient != None && recipient.value != ""
  }

  /** The message goes from the user to the recipient or from the recipient to the user. */
  predicate InConversation(msg: ChatMessage, userId: string, recipientId: string): (b: bool)
    ensures b ==> msg.senderId in {userId, recipientId} && msg.recipientId in {userId, recipientId}
    ensures b && userId != recipientId ==> msg.senderId != msg.recipientId
    ensures msg.senderId != userId && msg.senderId != recipientId ==> !b
    ensures msg.senderId == userId && msg.recipientId == recipientId ==> b
    ensures msg.senderId == recipientId && msg.recipientId == userId ==> b
  {
    (msg.senderId == userId && msg.recipientId == recipientId) ||
    (msg.senderId == recipientId && msg.recipientId == userId)
  }

  /** The realtime INSERT callback: `[...prev, msg]` for a message of this conversation. */
  function Incoming(prev: seq<ChatMessage>, userId: string, recipientId: string, msg: ChatMessage): (r: seq<ChatMessage>)
    ensures InConversation(msg, userId, recipientId) ==> |r| == |prev| + 1 && r[..|prev|] == prev && r[|prev|] == msg
    ensures !InConversation(msg, userId, recipientId) ==> r == prev
  {
    if InConversation(msg, userId, recipientId) then prev + [msg] else prev
  }

  /**
   * `fetchMessages`: without user or recipient nothing changes; otherwise the fetched rows
   * (`None` for an error or no data) replace the messages, and loading ends.
   */
  function FetchMessages(st: State, user: Option<string>, recipient: Option<string>,
                         fetched: Option<seq<ChatMessage>>): (r: State)
    ensures !Ready(user, recipient) ==> r == st
    ensures Ready(user, recipient) ==> !r.loading
    ensures Ready(user, recipient) && fetched != None ==> r.messages == fetched.value
    ensures Ready(user, recipient) && fetched == None ==> r.messages == st.messages
  {
    if !Ready(user, recipient) then st
    else State(if fetched == None then st.messages else fetched.value, false)
  }

  /** `sendMessage(content)`: the insert it issues, or `None` when it returns early. */
  function SendMessage(user: Option<string>, recipient: Option<string>, content: string): (r: Option<Outgoing>)
    ensures r == None <==> !Ready(user, recipient)
    ensures r != None ==> r.value.senderId == user.value && r.value.recipientId == recipient.value
                          && r.value.content == content
  {
    if !Ready(user, recipient) then None
    else Some(Outgoing(user.value, recipient.value, content))
  }

  /**
   * Without a user or a recipient the hook never fetches, so it stays in its initial state,
   * still loading and with no messages.
   */
  lemma NotReadyStaysLoading(user: Option<string>, recipient: Option<string>, fetched: Option<seq<ChatMessage>>)
    requires !Ready(user, recipient)
    ensures FetchMessages(Initial, user, recipient, fetched) == State([], true)
  {
  }

  /** Membership does not depend on which of the two parties sent the message. */
  lemma InConversationSymmetric(msg: ChatMessage, userId: string, recipientId: string)
    ensures InConversation(msg, userId, recipientId)
        <==> InConversation(msg.(senderId := msg.recipientId, recipientId := msg.senderId), userId, recipientId)
    ensures InConversation(msg, userId, recipientId) <==> InConversation(msg, recipientId, userId)
  {
  }

  /** A message the user sends comes back through the realtime channel into the same conversation. */
  lemma SentMessageIsAccepted(user: Option<string>, recipient: Option<string>, content: string,
                              prev: seq<ChatMessage>, echo: ChatMessage)
    requires SendMessage(user, recipient, content) != None
    requires echo.senderId == SendMessage(user, recipient, content).value.senderId
    requires echo.recipientId == SendMessage(user, recipient, content).value.recipientId
    ensures Incoming(prev, user.value, recipient.value, echo) == prev + [echo]
  {
  }

  /** Messages of other conversations never enter the list, however many arrive. */
  lemma {:induction false} ForeignMessagesIgnored(prev: seq<ChatMessage>, userId: string, recipientId: string,
                                                  arrivals: seq<ChatMessage>)
    requires forall k :: 0 <= k < |arrivals| ==> !InConversation(arrivals[k], userId, recipientId)
    ensures IncomingAll(prev, userId, recipientId, arrivals) == prev
  {
    if arrivals != [] {
      ForeignMessagesIgnored(prev, userId, recipientId, arrivals[..|arrivals| - 1]);
    }
  }

  /** The list after a run of realtime arrivals, in the order they arrive. */
  function IncomingAll(prev: seq<ChatMessage>, userId: string, recipientId: string,
                       arrivals: seq<ChatMessage>): seq<ChatMessage>
  {
    if arrivals == [] then prev
    else Incoming(IncomingAll(prev, userId, recipientId, arrivals[..|arrivals| - 1]),
                  userId, recipientId, arrivals[|arrivals| - 1])
  }

  /** A run of arrivals only ever extends the list: earlier messages keep their positions. */
  lemma {:induction false} IncomingAllExtends(prev: seq<ChatMessage>, userId: string, recipientId: string,
                                              arrivals: seq<ChatMessage>)
    ensures |prev| <= |IncomingAll(prev, userId, recipientId, arrivals)|
    ensures IncomingAll(prev, userId, recipientId, arrivals)[..|prev|] == prev
  {
    if arrivals != [] {
      IncomingAllExtends(prev, userId, recipientId, arrivals[..|arrivals| - 1]);
    }
  }
}
