/** The scripted chat widget (frontend/apps/chat/ChatWindow.tsx): an append-only
    transcript, the input box and the two "reply pending" flags. */
module Chat {
  import opened Wrappers
  import opened Text

  datatype Sender = User | Assistant

  /** A transcript entry. `stamp` is the `Date.now()` value the id is made from. */
  datatype Message = Message(stamp: int, content: string, sender: Sender)

  datatype ChatState = ChatState(messages: seq<Message>, input: string, thinking: bool, typing: bool)

  const Greeting: string :=
    "\U{1F44B} Hi! I'm Saugat's AI assistant, powered by advanced RAG technology and trained specifically on his portfolio data. I have deep knowledge about his projects, skills, experience, and achievements. What would you like to know?"

  /** The six canned replies. */
  const Responses: seq<string> := [
    "Based on Saugat's portfolio data, he has extensive experience in full-stack development with React, Next.js, and Node.js. His expertise particularly shines in AI/ML integration, having built several intelligent applications including RAG-powered systems like this one. He's passionate about creating innovative solutions that bridge traditional web development with cutting-edge AI technologies.",
    "From his project portfolio, Saugat has developed impressive applications including an AI-powered e-commerce platform with intelligent product recommendations, real-time chat applications with WebRTC integration, and comprehensive task management systems. His work demonstrates a strong focus on user experience and scalable architecture design.",
    "According to his technical profile, Saugat's expertise spans multiple domains: Frontend (React 95%, Next.js 90%, TypeScript 88%), Backend (Node.js 90%, Python 85%), Cloud & DevOps (AWS 80%, Vercel 90%), and AI/ML (OpenAI API 85%, LangChain 80%). He's also experienced with modern databases and has strong mobile development skills.",
    "Saugat is actively seeking new opportunities and collaborations. His professional background shows he's worked as a Senior Full Stack Developer at Tech Innovations Ltd., where he led AI-powered web application development and mentored junior developers. He's particularly interested in projects that push the boundaries of technology and involve AI integration.",
    "His specialization in AI integration is evident from his work with various AI APIs, machine learning models, and RAG implementations. Recent projects include intelligent chat systems, natural language processing applications, and computer vision solutions. He stays current with the latest AI developments and best practices.",
    "Saugat's development philosophy emphasizes creating user-centric applications with clean, maintainable code. He believes in continuous learning and has earned certifications from AWS, Meta, and freeCodeCamp. His approach combines technical excellence with practical problem-solving to deliver impactful solutions."
  ]

  /** The widget as mounted: the greeting alone, the input box pre-filled with the
      search query, nothing pending. */
  function InitialChat(initialMessage: string): (r: ChatState)
    ensures |r.messages| == 1 && r.messages[0].sender == Assistant && r.messages[0].content == Greeting
    ensures r.input == initialMessage && !r.thinking && !r.typing
  {
    ChatState([Message(1, Greeting, Assistant)], initialMessage, false, false)
  }

  /** `messageContent || inputValue`: the explicit argument unless it is absent or empty. */
  function ContentToSend(arg: Option<string>, input: string): (r: string)
    ensures arg.Some? && arg.value != "" ==> r == arg.value
    ensures arg.None? || arg.value == "" ==> r == input
  {
    if arg.Some? && arg.value != "" then arg.value else input
  }

  /** `handleSendMessage`, synchronous part: a blank content sends nothing; otherwise
      one user message with the untrimmed content is appended, the box is cleared
      and the reply starts "thinking". */
  function Send(st: ChatState, arg: Option<string>, now: int): (r: ChatState)
    ensures IsBlank(ContentToSend(arg, st.input)) ==> r == st
    ensures !IsBlank(ContentToSend(arg, st.input)) ==>
      && r.messages == st.messages + [Message(now, ContentToSend(arg, st.input), User)]
      && r.input == "" && r.thinking && r.typing == st.typing
  {
    var content := ContentToSend(arg, st.input);
    if Trim(content) == "" then st
    else ChatState(st.messages + [Message(now, content, User)], "", true, st.typing)
  }

  /** The 800 ms timer: thinking ends and typing starts. */
  function StartTyping(st: ChatState): (r: ChatState)
    ensures r.messages == st.messages && r.input == st.input
    ensures !r.thinking && r.typing
  {
    st.(thinking := false, typing := true)
  }

  /** `Math.floor(Math.random() * responses.length)` with the random draw written as
      the fraction `num / den` in [0, 1). */
  function ReplyIndex(num: nat, den: nat): (k: nat)
    requires num < den
    ensures k < |Responses|
    ensures k * den <= num * |Responses| < (k + 1) * den
  {
    var k := (num * 6) / den;
    DivBound(num, den, 6);
    k
  }

  /** `(num * n) / den` is the floor of `n * num / den`, which is below `n` for `num < den`. */
  lemma DivBound(num: nat, den: nat, n: nat)
    requires num < den
    ensures (num * n) / den < n || n == 0
    ensures ((num * n) / den) * den <= num * n < ((num * n) / den + 1) * den
  {
    var q := (num * n) / den;
    var r := (num * n) % den;
    assert num * n == q * den + r;
    if n > 0 {
      MulStrict(num, den, n);
      MulBelow(q, n, den);
    }
  }

  lemma MulStrict(a: nat, b: nat, n: nat)
    requires a < b && n > 0
    ensures a * n < b * n
  {
  }

  /** `q * d < n * d` forces `q < n`. */
  lemma MulBelow(q: nat, n: nat, d: nat)
    requires q * d < n * d
    ensures q < n
  {
    MulMono(n, q, d);
  }

  lemma MulMono(a: nat, b: nat, d: nat)
    ensures a <= b ==> a * d <= b * d
  {
  }

  /** The 2000 ms timer: one canned reply, stamped `now + 1`, is appended and typing ends. */
  function Reply(st: ChatState, num: nat, den: nat, now: int): (r: ChatState)
    requires num < den
    ensures |r.messages| == |st.messages| + 1 && st.messages <= r.messages
    ensures r.messages[|st.messages|].sender == Assistant
    ensures r.messages[|st.messages|].content in Responses
    ensures !r.typing && r.thinking == st.thinking && r.input == st.input
  {
    var k := ReplyIndex(num, den);
    ChatState(st.messages + [Message(now + 1, Responses[k], Assistant)], st.input, st.thinking, false)
  }

  /** The send button is enabled only with a non-blank input and no reply pending. */
  predicate CanSend(st: ChatState) {
    !IsBlank(st.input) && !st.typing && !st.thinking
  }

  /** The suggested questions are offered only before anything has been asked. */
  predicate ShowsSuggestions(st: ChatState) {
    |st.messages| == 1 && !st.thinking && !st.typing
  }

  /** `handleKeyPress`: Enter without Shift sends the input box; anything else does nothing. */
  function KeyPress(st: ChatState, key: string, shift: bool, now: int): (r: ChatState)
    ensures key != "Enter" || shift ==> r == st
    ensures key == "Enter" && !shift ==> r == Send(st, None, now)
  {
    if key == "Enter" && !shift then Send(st, None, now) else st
  }

  const SuggestedQuestions: seq<string> := [
    "What are Saugat's main technical skills?",
    "Tell me about his recent projects",
    "What's his experience with AI/ML?",
    "How can I contact Saugat?"
  ]

  /** The mount effect's 500 ms timer: a non-blank initial message is sent on its own. */
  function AutoSend(st: ChatState, initialMessage: string, now: int): (r: ChatState)
    ensures IsBlank(initialMessage) ==> r == st
    ensures !IsBlank(initialMessage) ==> r == Send(st, Some(initialMessage), now)
  {
    if initialMessage != "" && Trim(initialMessage) != "" then Send(st, Some(initialMessage), now) else st
  }

  /** A click on a suggested question: `setInputValue(q)` and `handleSendMessage(q)`. */
  function SuggestionClick(st: ChatState, q: string, now: int): ChatState {
    Send(st.(input := q), Some(q), now)
  }

  /** A send clears the box, so pressing Enter again right away sends nothing more. */
  lemma SecondEnterSendsNothing(st: ChatState, now: int, later: int)
    ensures var once := KeyPress(st, "Enter", false, now); KeyPress(once, "Enter", false, later) == once
  {
    var once := KeyPress(st, "Enter", false, now);
    if !IsBlank(st.input) {
      BlankIffAllWhitespace(once.input);
    }
  }

  /** A suggested question, offered on the fresh widget, is sent as written. */
  lemma SuggestionSendsQuestion(st: ChatState, k: nat, now: int)
    requires ShowsSuggestions(st) && k < |SuggestedQuestions|
    ensures var r := Step(st, Suggestion(k, now));
      && r.messages == st.messages + [Message(now, SuggestedQuestions[k], User)]
      && r.input == "" && r.thinking
  {
    var q := SuggestedQuestions[k];
    assert q[0] != ' ' && q[0] == q[..1][0];
    TrimStartHead(q);
  }

  /** A send that goes through disables the send button and hides the suggestions. */
  lemma SendClosesControls(st: ChatState, arg: Option<string>, now: int)
    requires !IsBlank(ContentToSend(arg, st.input))
    ensures !CanSend(Send(st, arg, now)) && !ShowsSuggestions(Send(st, arg, now))
    ensures |Send(st, arg, now).messages| == |st.messages| + 1
  {
  }

  /** Once a question is in the transcript the suggestions never come back, whatever
      happens afterwards. */
  lemma SuggestionsGoneAfterFirstQuestion(st: ChatState, es: seq<Event>)
    requires WellFormed(st.messages) && |st.messages| >= 2
    ensures !ShowsSuggestions(Run(st, es))
  {
    RunAppendsOnly(st, es);
  }

  /** Everything that can happen to the widget. */
  datatype Event =
    | Type(text: string)
    | Press(key: string, shift: bool, now: int)
    | SendButton(now: int)
    | Suggestion(index: nat, now: int)
    | InitialTimer(initialMessage: string, now: int)
    | ThinkingDone
    | ReplyArrives(num: nat, den: nat, now: int)

  function Step(st: ChatState, e: Event): ChatState {
    match e
    case Type(text) => st.(input := text)
    case Press(key, shift, now) => KeyPress(st, key, shift, now)
    case SendButton(now) => if CanSend(st) then Send(st, None, now) else st
    case Suggestion(k, now) =>
      if ShowsSuggestions(st) && k < |SuggestedQuestions| then SuggestionClick(st, SuggestedQuestions[k], now) else st
    case InitialTimer(initialMessage, now) => AutoSend(st, initialMessage, now)
    case ThinkingDone => StartTyping(st)
    case ReplyArrives(num, den, now) => if num < den then Reply(st, num, den, now) else st
  }

  function Run(st: ChatState, es: seq<Event>): ChatState
    decreases |es|
  {
    if |es| == 0 then st else Run(Step(st, es[0]), es[1..])
  }

  /** What every transcript the widget can show satisfies: the greeting first, every
      user message non-blank, every later assistant message a canned reply. */
  predicate WellFormed(msgs: seq<Message>) {
    && |msgs| >= 1 && msgs[0].sender == Assistant && msgs[0].content == Greeting
    && (forall i :: 1 <= i < |msgs| && msgs[i].sender == Assistant ==> msgs[i].content in Responses)
    && (forall i :: 0 <= i < |msgs| && msgs[i].sender == User ==> !IsBlank(msgs[i].content))
  }

  /** One event only appends to the transcript and keeps it well formed. */
  lemma StepAppendsOnly(st: ChatState, e: Event)
    requires WellFormed(st.messages)
    ensures st.messages <= Step(st, e).messages
    ensures WellFormed(Step(st, e).messages)
  {
    var r := Step(st, e);
    var n := |st.messages|;
    assert forall i :: 0 <= i < n ==> r.messages[i] == st.messages[i];
  }

  /** The transcript is append-only over any run: earlier messages are never removed
      or reordered, and it stays well formed. */
  lemma {:induction false} RunAppendsOnly(st: ChatState, es: seq<Event>)
    requires WellFormed(st.messages)
    ensures st.messages <= Run(st, es).messages
    ensures WellFormed(Run(st, es).messages)
    decreases |es|
  {
    if |es| > 0 {
      StepAppendsOnly(st, es[0]);
      RunAppendsOnly(Step(st, es[0]), es[1..]);
    }
  }

  /** From the mounted widget, every reachable transcript starts with the single greeting. */
  lemma ReachableTranscripts(initialMessage: string, es: seq<Event>)
    ensures WellFormed(Run(InitialChat(initialMessage), es).messages)
    ensures InitialChat(initialMessage).messages <= Run(InitialChat(initialMessage), es).messages
  {
    var st := InitialChat(initialMessage);
    assert WellFormed(st.messages);
    RunAppendsOnly(st, es);
  }

  /** The Enter key does not consult the pending flags: it sends even while a reply
      is being prepared, when the send button is disabled. */
  lemma EnterSendsWhileReplyPending(st: ChatState, now: int)
    requires st.thinking && !IsBlank(st.input)
    ensures !CanSend(st)
    ensures |KeyPress(st, "Enter", false, now).messages| == |st.messages| + 1
  {
  }
}
