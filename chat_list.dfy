/**
 * The chat list of the React front end: each state transition builds a new list of
 * chats from the old one (`chats.map(...)`, `[...chats, newChat]`,
 * `[...chat.messages, msg]`) and hands it to a state setter.
 *
 * The clock (`Date.now()`, `new Date().toISOString()`) and the network are inputs:
 * new chat ids and timestamps are parameters, and what the `/chat` request produced
 * is a `FetchOutcome`.
 */
module ChatList {
  import opened Wrappers
  import JsText

  const NewChatTitle: string := "New Chat"
  /** Titles keep at most this many characters of the first message ... */
  const TitleLimit: nat := 30
  /** ... followed by this marker when the message was longer. */
  const Ellipsis: string := "..."
  const ErrorReplyText: string := "Sorry, there was an error processing your request."

  datatype Role = User | Assistant

  /** A chat message; `None` is a property that is not present (`isError` is either
      present and true, or absent). */
  datatype Message = Message(
    role: Role,
    content: Option<string>,
    isFailover: Option<bool>,
    isError: bool,
    timestamp: Option<string>)

  datatype Chat = Chat(id: int, messages: seq<Message>, title: string)

  /** The component's state: `chats`, `activeChat`, `input` and `loading`. */
  datatype AppState = AppState(chats: seq<Chat>, activeChat: int, input: string, loading: bool)

  /** What `fetch` and `response.json()` produced: the body's `response` and
      `isFailover` properties, or an exception from either call. */
  datatype FetchOutcome = Parsed(response: Option<string>, isFailover: Option<bool>) | Threw

  /** A request in flight: the chat that was active when it was sent, and the text sent. */
  datatype Pending = Pending(target: int, message: string)

  /** The state after the synchronous part of a submit, and the request it sent, if any. */
  datatype Submitted = Submitted(state: AppState, request: Option<Pending>)

  /** The state the component starts in. */
  const InitialState: AppState := AppState([Chat(1, [], NewChatTitle)], 1, "", false)

  /** `createNewChat`: one empty chat named "New Chat" is added at the end and made active. */
  function CreateNewChat(s: AppState, id: int): (r: AppState)
    ensures |r.chats| == |s.chats| + 1
    ensures r.chats[..|s.chats|] == s.chats
    ensures r.chats[|s.chats|] == Chat(id, [], NewChatTitle)
    ensures r.activeChat == id && r.input == s.input && r.loading == s.loading
  {
    s.(chats := s.chats + [Chat(id, [], NewChatTitle)], activeChat := id)
  }

  /** The title made from a first message: the message itself when it is short enough,
      otherwise its first 30 characters and "...". */
  function TruncateTitle(firstMessage: string): (t: string)
    ensures |t| <= TitleLimit + |Ellipsis|
    ensures |firstMessage| <= TitleLimit ==> t == firstMessage
    ensures |firstMessage| > TitleLimit ==>
      |t| == TitleLimit + |Ellipsis| && t[..TitleLimit] == firstMessage[..TitleLimit] && t[TitleLimit..] == Ellipsis
  {
    if |firstMessage| > TitleLimit then firstMessage[..TitleLimit] + Ellipsis else firstMessage
  }

  /** `updateChatTitle`: every chat with the given id gets the truncated title; the order,
      the ids, the messages and every other chat stay as they were. */
  function UpdateChatTitle(chats: seq<Chat>, chatId: int, firstMessage: string): (r: seq<Chat>)
    ensures |r| == |chats|
    ensures forall i :: 0 <= i < |chats| ==> r[i].id == chats[i].id && r[i].messages == chats[i].messages
    ensures forall i :: 0 <= i < |chats| && chats[i].id == chatId ==> r[i].title == TruncateTitle(firstMessage)
    ensures forall i :: 0 <= i < |chats| && chats[i].id != chatId ==> r[i] == chats[i]
  {
    seq(|chats|, i requires 0 <= i < |chats| =>
      if chats[i].id == chatId then chats[i].(title := TruncateTitle(firstMessage)) else chats[i])
  }

  /** Appends a message to every chat with the given id; the order, the ids, the titles
      and every other chat stay as they were. */
  function AppendMessage(chats: seq<Chat>, chatId: int, m: Message): (r: seq<Chat>)
    ensures |r| == |chats|
    ensures forall i :: 0 <= i < |chats| ==> r[i].id == chats[i].id && r[i].title == chats[i].title
    ensures forall i :: 0 <= i < |chats| && chats[i].id == chatId ==> r[i].messages == chats[i].messages + [m]
    ensures forall i :: 0 <= i < |chats| && chats[i].id != chatId ==> r[i] == chats[i]
  {
    seq(|chats|, i requires 0 <= i < |chats| =>
      if chats[i].id == chatId then chats[i].(messages := chats[i].messages + [m]) else chats[i])
  }

  /** `chats.find(chat => chat.id === id)`, as a position: the first chat with that id. */
  function FindChat(chats: seq<Chat>, id: int): (r: Option<nat>)
    ensures r.Some? ==> r.value < |chats| && chats[r.value].id == id
    ensures r.Some? ==> forall j :: 0 <= j < r.value ==> chats[j].id != id
    ensures r.None? ==> forall j :: 0 <= j < |chats| ==> chats[j].id != id
  {
    if chats == [] then None
    else if chats[0].id == id then Some(0)
    else match FindChat(chats[1..], id)
      case None => None
      case Some(k) => Some(k + 1)
  }

  /** `activeMessages`: the messages of the first chat whose id is the active one, or
      none when no chat has that id. */
  function ActiveMessages(s: AppState): (ms: seq<Message>)
    ensures forall i ::
      (0 <= i < |s.chats| && s.chats[i].id == s.activeChat && forall j :: 0 <= j < i ==> s.chats[j].id != s.activeChat)
      ==> ms == s.chats[i].messages
    ensures (forall i :: 0 <= i < |s.chats| ==> s.chats[i].id != s.activeChat) ==> ms == []
  {
    match FindChat(s.chats, s.activeChat)
    case Some(i) => s.chats[i].messages
    case None => []
  }

  /** The message `handleSubmit` adds for what the user typed: the text as typed, with
      its timestamp, and neither error nor failover flag. */
  function UserMessage(input: string, timestamp: string): (m: Message)
    ensures m.role == User && m.content == Some(input) && m.timestamp == Some(timestamp)
    ensures !m.isError && m.isFailover.None?
  {
    Message(User, Some(input), None, false, Some(timestamp))
  }

  /** The one assistant message added when the request settles: the body's `response`
      and `isFailover` as they are (absent on a 429 or 500 body), or the fixed error
      message when fetching or parsing threw. */
  function ReplyMessage(outcome: FetchOutcome, timestamp: string): (m: Message)
    ensures m.role == Assistant
    ensures outcome.Parsed? ==>
      m.content == outcome.response && m.isFailover == outcome.isFailover && !m.isError && m.timestamp == Some(timestamp)
    ensures outcome.Threw? ==>
      m.content == Some(ErrorReplyText) && m.isError && m.isFailover.None? && m.timestamp.None?
  {
    match outcome
    case Parsed(response, isFailover) => Message(Assistant, response, isFailover, false, Some(timestamp))
    case Threw => Message(Assistant, Some(ErrorReplyText), None, true, None)
  }

  /** The positions, from `from` on, of the chats that have the given id and no messages. */
  ghost function EmptyMatches(chats: seq<Chat>, from: nat, active: int): set<nat>
  {
    set i: nat | from <= i < |chats| && chats[i].id == active && chats[i].messages == []
  }

  /** The `updateChatTitle` writes queued while `chats.map` runs in `handleSubmit`, from
      position `from` on: one for each chat with the active id whose message list was
      empty, that is, which is about to receive its first message. */
  function TitleWrites(chats: seq<Chat>, from: nat, active: int, input: string): (w: seq<seq<Chat>>)
    ensures |w| == |EmptyMatches(chats, from, active)|
    ensures forall k :: 0 <= k < |w| ==> w[k] == UpdateChatTitle(chats, active, input)
    ensures w != [] <==> exists i :: from <= i < |chats| && chats[i].id == active && chats[i].messages == []
    decreases |chats| - from
  {
    if from >= |chats| then
      assert EmptyMatches(chats, from, active) == {};
      []
    else
      var here := chats[from].id == active && chats[from].messages == [];
      var rest := TitleWrites(chats, from + 1, active, input);
      EmptyMatchesStep(chats, from, active);
      (if here then [UpdateChatTitle(chats, active, input)] else []) + rest
  }

  /** Peeling off position `from`: it is a match or not, and the later matches do not include it. */
  lemma EmptyMatchesStep(chats: seq<Chat>, from: nat, active: int)
    requires from < |chats|
    ensures var here := chats[from].id == active && chats[from].messages == [];
      EmptyMatches(chats, from, active) == (if here then {from} else {}) + EmptyMatches(chats, from + 1, active)
    ensures from !in EmptyMatches(chats, from + 1, active)
  {
  }

  /** Every value handed to `setChats` during the synchronous part of `handleSubmit`, in
      order: the title writes, then `updatedChats`. All of them are built from the same
      old list. */
  function SubmitWrites(chats: seq<Chat>, active: int, input: string, user: Message): (w: seq<seq<Chat>>)
    ensures |w| >= 1 && w[|w| - 1] == AppendMessage(chats, active, user)
    ensures forall k :: 0 <= k < |w| - 1 ==> w[k] == UpdateChatTitle(chats, active, input)
    ensures |w| >= 2 <==> exists i :: 0 <= i < |chats| && chats[i].id == active && chats[i].messages == []
  {
    TitleWrites(chats, 0, active, input) + [AppendMessage(chats, active, user)]
  }

  /** React's rule for plain values handed to a setter before the next render: the last
      one is rendered and every earlier one is lost; with none, the list stays. */
  function Settle(current: seq<Chat>, writes: seq<seq<Chat>>): (r: seq<Chat>)
    ensures writes == [] ==> r == current
    ensures writes != [] ==> r in writes && r == writes[|writes| - 1]
  {
    if writes == [] then current else writes[|writes| - 1]
  }

  /** The synchronous part of `handleSubmit`. Input that is only white space changes
      nothing and sends nothing. Otherwise the user message is appended to the active
      chat, the input is cleared, loading starts, and the text is sent for the chat that
      is active now. */
  function BeginSubmit(s: AppState, timestamp: string): (r: Submitted)
    ensures JsText.IsBlank(s.input) ==> r == Submitted(s, None)
    ensures !JsText.IsBlank(s.input) ==>
      && r.request == Some(Pending(s.activeChat, s.input))
      && r.state.activeChat == s.activeChat && r.state.input == "" && r.state.loading
      && r.state.chats == AppendMessage(s.chats, s.activeChat, UserMessage(s.input, timestamp))
  {
    JsText.TrimEmptyIffBlank(s.input);
    if JsText.Trim(s.input) == "" then Submitted(s, None)
    else
      var writes := SubmitWrites(s.chats, s.activeChat, s.input, UserMessage(s.input, timestamp));
      Submitted(s.(chats := Settle(s.chats, writes), input := "", loading := true),
                Some(Pending(s.activeChat, s.input)))
  }

  /** The functional `setChats` update once the request has settled, applied to the chats
      as they are by then, and the `finally` that stops loading. The message goes to the
      chat that was active at submit time, whichever chat is active now. */
  function FinishSubmit(s: AppState, request: Pending, outcome: FetchOutcome, timestamp: string): (r: AppState)
    ensures r.activeChat == s.activeChat && r.input == s.input && !r.loading
    ensures |r.chats| == |s.chats|
    ensures forall i :: 0 <= i < |s.chats| ==>
      r.chats[i].messages == s.chats[i].messages + (if s.chats[i].id == request.target then [ReplyMessage(outcome, timestamp)] else [])
    ensures forall i :: 0 <= i < |s.chats| ==> r.chats[i].id == s.chats[i].id && r.chats[i].title == s.chats[i].title
  {
    s.(chats := AppendMessage(s.chats, request.target, ReplyMessage(outcome, timestamp)), loading := false)
  }

  /** When the active chat is about to get its first message, `updateChatTitle` does queue
      a list in which that chat is renamed, but the later `setChats(updatedChats)` replaces
      it: after the submit every chat keeps its title. */
  lemma SubmitDiscardsTitleWrite(s: AppState, timestamp: string, i: nat)
    requires !JsText.IsBlank(s.input)
    requires i < |s.chats| && s.chats[i].id == s.activeChat && s.chats[i].messages == []
    ensures var w := SubmitWrites(s.chats, s.activeChat, s.input, UserMessage(s.input, timestamp));
      && |w| >= 2
      && UpdateChatTitle(s.chats, s.activeChat, s.input) in w[..|w| - 1]
      && w[|w| - 1] == BeginSubmit(s, timestamp).state.chats
    ensures forall j :: 0 <= j < |s.chats| ==> BeginSubmit(s, timestamp).state.chats[j].title == s.chats[j].title
  {
    var w := SubmitWrites(s.chats, s.activeChat, s.input, UserMessage(s.input, timestamp));
    assert w[0] in w[..|w| - 1];
  }

  /** Lists with the same ids in the same order have their first match at the same place. */
  lemma FindChatSameIds(a: seq<Chat>, b: seq<Chat>, id: int)
    requires |a| == |b|
    requires forall i :: 0 <= i < |a| ==> a[i].id == b[i].id
    ensures FindChat(a, id) == FindChat(b, id)
  {
  }

  /** A full exchange with nothing else happening in between: the chat that is shown
      gains exactly the user message and then the one reply, and nothing else. */
  lemma SubmitThenFinish(s: AppState, sentAt: string, outcome: FetchOutcome, repliedAt: string)
    requires !JsText.IsBlank(s.input)
    ensures var b := BeginSubmit(s, sentAt);
      && b.request.Some?
      && ActiveMessages(FinishSubmit(b.state, b.request.value, outcome, repliedAt)) ==
         if FindChat(s.chats, s.activeChat).Some?
         then ActiveMessages(s) + [UserMessage(s.input, sentAt), ReplyMessage(outcome, repliedAt)]
         else []
  {
    var b := BeginSubmit(s, sentAt);
    var f := FinishSubmit(b.state, b.request.value, outcome, repliedAt);
    FindChatSameIds(s.chats, b.state.chats, s.activeChat);
    FindChatSameIds(b.state.chats, f.chats, s.activeChat);
  }

  /** After `createNewChat` the shown messages are the new chat's (none), unless its id
      collides with an existing chat, which then wins because it comes first. */
  lemma CreateNewChatShows(s: AppState, id: int)
    ensures FindChat(s.chats, id).None? ==> ActiveMessages(CreateNewChat(s, id)) == []
    ensures FindChat(s.chats, id).Some? ==>
      ActiveMessages(CreateNewChat(s, id)) == s.chats[FindChat(s.chats, id).value].messages
  {
  }

  /** The component starts with one empty chat, "New Chat", which is shown. Its first
      message leaves it named "New Chat" and is the only message shown. */
  lemma InitialFirstSubmit(input: string, timestamp: string)
    requires !JsText.IsBlank(input)
    ensures ActiveMessages(InitialState) == []
    ensures var b := BeginSubmit(InitialState.(input := input), timestamp);
      && b.request == Some(Pending(1, input))
      && b.state.chats == [Chat(1, [UserMessage(input, timestamp)], NewChatTitle)]
      && ActiveMessages(b.state) == [UserMessage(input, timestamp)]
  {
    var s := InitialState.(input := input);
    var m := UserMessage(input, timestamp);
    var chats := BeginSubmit(s, timestamp).state.chats;
    assert chats == AppendMessage(s.chats, 1, m);
    assert chats[0] == Chat(1, [m], NewChatTitle);
    assert chats == [Chat(1, [m], NewChatTitle)];
  }
}
