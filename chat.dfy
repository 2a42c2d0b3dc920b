/** ChatComponent: a message history seeded with a greeting, a draft and a
    busy flag; sending appends the trimmed draft as a user message and starts
    a timer whose callback appends one canned reply. */
module Chat {
  import opened JsString

  datatype ChatMessage = ChatMessage(text: string, isUser: bool)

  const Greeting: string := "Hello! I'm here to help you explore the brain. What would you like to know?"

  const Responses: seq<string> := [
    "The brain is fascinating! Each region has specific functions that work together to create our thoughts, memories, and behaviors.",
    "Did you know the brain contains about 86 billion neurons? That's more connections than stars in our galaxy!",
    "The brain's surface is covered in folds called sulci and gyri, which increase its surface area for more processing power.",
    "The brain is incredibly plastic - it can rewire itself throughout our lives, especially when we learn new things.",
    "The brain uses about 20% of our body's energy despite being only 2% of our body weight!"
  ]

  /** The component's three pieces of state. */
  datatype ChatState = ChatState(draft: string, messages: seq<ChatMessage>, isLoading: bool)

  function Initial(): (s: ChatState)
    ensures |s.messages| == 1 && !s.messages[0].isUser && s.messages[0].text == Greeting
    ensures s.draft == "" && !s.isLoading
  {
    ChatState("", [ChatMessage(Greeting, false)], false)
  }

  /** The early return of the send handler: a blank draft, or a reply still
      pending. */
  predicate SendBlocked(s: ChatState)
    ensures SendBlocked(s) <==> AllWhitespace(s.draft) || s.isLoading
  {
    TrimEmptyIff(s.draft);
    Trim(s.draft) == "" || s.isLoading
  }

  /** The send button's `disabled` attribute, written separately in the view. */
  predicate SendButtonDisabled(s: ChatState)
    ensures SendButtonDisabled(s) <==> AllWhitespace(s.draft) || s.isLoading
  {
    TrimEmptyIff(s.draft);
    var trimmed := Trim(s.draft);
    trimmed == "" || s.isLoading
  }

  /** `onChange` of the input: the draft becomes the typed text. */
  function TypeStep(s: ChatState, text: string): (r: ChatState)
    ensures r.draft == text && r.messages == s.messages && r.isLoading == s.isLoading
  {
    s.(draft := text)
  }

  /** The synchronous part of the send handler. */
  function SendStep(s: ChatState): (r: ChatState)
    ensures SendBlocked(s) ==> r == s
    ensures !SendBlocked(s) ==>
      && |r.messages| == |s.messages| + 1
      && r.messages[..|s.messages|] == s.messages
      && r.messages[|s.messages|] == ChatMessage(Trim(s.draft), true)
      && r.draft == "" && r.isLoading
    ensures r.messages[..|s.messages|] == s.messages
  {
    if Trim(s.draft) == "" || s.isLoading then s
    else ChatState("", s.messages + [ChatMessage(Trim(s.draft), true)], true)
  }

  /** `Math.floor(Math.random() * responses.length)` for a random number in
      [0, 1): always a valid index into the responses. */
  function PickIndex(random: real): (i: int)
    requires 0.0 <= random < 1.0
    ensures 0 <= i < |Responses|
  {
    (random * (|Responses| as real)).Floor
  }

  /** The timer callback: one non-user message holding a canned response,
      and the busy flag lowered. */
  function ReplyStep(s: ChatState, random: real): (r: ChatState)
    requires 0.0 <= random < 1.0
    ensures |r.messages| == |s.messages| + 1
    ensures r.messages[..|s.messages|] == s.messages
    ensures !r.messages[|s.messages|].isUser && r.messages[|s.messages|].text in Responses
    ensures r.draft == s.draft && !r.isLoading
  {
    var response := Responses[PickIndex(random)];
    ChatState(s.draft, s.messages + [ChatMessage(response, false)], false)
  }

  /** The button is enabled exactly when pressing it sends. */
  lemma SendButtonMatchesGuard(s: ChatState)
    ensures !SendButtonDisabled(s) <==> SendStep(s) != s
    ensures !SendButtonDisabled(s) <==> |SendStep(s).messages| == |s.messages| + 1
  {
  }

  /** Whitespace around the draft never reaches the history. */
  lemma SentTextIsTrimmed(s: ChatState)
    requires !SendBlocked(s)
    ensures var m := SendStep(s).messages[|s.messages|];
      m.text != "" && Trim(m.text) == m.text
      && !IsWhitespace(m.text[0]) && !IsWhitespace(m.text[|m.text| - 1])
  {
  }

  /** A blank draft, however many spaces it holds, is never sent. */
  lemma BlankDraftIsIgnored(s: ChatState)
    requires AllWhitespace(s.draft)
    ensures SendStep(s) == s
  {
  }

  // ---------------------------------------------------------------------
  // Runs: the component together with its outstanding reply timers

  /** What can happen next: the user types, presses send (button or Enter),
      or an outstanding timer fires with the random number it draws. */
  datatype Event = Type(text: string) | Press | Fire(random: real)

  predicate ValidEvent(e: Event) {
    e.Fire? ==> 0.0 <= e.random < 1.0
  }

  /** The component's state and the number of reply timers started and not
      yet fired. */
  datatype Runtime = Runtime(chat: ChatState, timers: nat)

  function Start(): Runtime {
    Runtime(Initial(), 0)
  }

  /** One atomic step. A send that gets through starts a timer; a timer fires
      only while one is outstanding. */
  function Step(rt: Runtime, e: Event): (r: Runtime)
    requires ValidEvent(e)
    ensures |rt.chat.messages| <= |r.chat.messages| <= |rt.chat.messages| + 1
    ensures r.chat.messages[..|rt.chat.messages|] == rt.chat.messages
  {
    match e
    case Type(text) => rt.(chat := TypeStep(rt.chat, text))
    case Press =>
      if SendBlocked(rt.chat) then rt
      else Runtime(SendStep(rt.chat), rt.timers + 1)
    case Fire(random) =>
      if rt.timers == 0 then rt
      else Runtime(ReplyStep(rt.chat, random), rt.timers - 1)
  }

  function Run(rt: Runtime, events: seq<Event>): Runtime
    requires forall k :: 0 <= k < |events| ==> ValidEvent(events[k])
    decreases |events|
  {
    if events == [] then rt
    else Run(Step(rt, events[0]), events[1..])
  }

  /** After the greeting, user and non-user messages alternate, starting
      with a user one; and a reply is pending exactly when the last message
      is the user's, with exactly one timer outstanding then and none
      otherwise. */
  predicate Consistent(rt: Runtime) {
    var m := rt.chat.messages;
    && |m| >= 1 && m[0] == ChatMessage(Greeting, false)
    && (forall k :: 1 <= k < |m| ==> m[k].isUser == (k % 2 == 1))
    && (rt.chat.isLoading <==> |m| % 2 == 0)
    && rt.timers == (if rt.chat.isLoading then 1 else 0)
  }

  lemma StartConsistent()
    ensures Consistent(Start())
  {
  }

  lemma StepConsistent(rt: Runtime, e: Event)
    requires Consistent(rt) && ValidEvent(e)
    ensures Consistent(Step(rt, e))
  {
    match e
    case Type(text) =>
      assert Step(rt, e) == rt.(chat := rt.chat.(draft := text));
    case Press =>
      if !SendBlocked(rt.chat) {
        SendConsistent(rt);
      } else {
        assert Step(rt, e) == rt;
      }
    case Fire(random) =>
      if rt.timers != 0 {
        FireConsistent(rt, random);
      } else {
        assert Step(rt, e) == rt;
      }
  }

  /** A send that gets through appends a user message at an odd position
      and starts the only timer. */
  lemma SendConsistent(rt: Runtime)
    requires Consistent(rt) && !SendBlocked(rt.chat)
    ensures Consistent(Runtime(SendStep(rt.chat), rt.timers + 1))
  {
    var m := rt.chat.messages;
    var x := ChatMessage(Trim(rt.chat.draft), true);
    assert SendStep(rt.chat) == ChatState("", m + [x], true);
    AppendKeepsAlternation(m, x);
  }

  /** The outstanding timer appends a non-user message at an even position
      and is gone. */
  lemma FireConsistent(rt: Runtime, random: real)
    requires Consistent(rt) && rt.timers != 0 && 0.0 <= random < 1.0
    ensures Consistent(Runtime(ReplyStep(rt.chat, random), rt.timers - 1))
  {
    var m := rt.chat.messages;
    var x := ChatMessage(Responses[PickIndex(random)], false);
    assert ReplyStep(rt.chat, random) == ChatState(rt.chat.draft, m + [x], false);
    AppendKeepsAlternation(m, x);
  }

  /** Appending a message whose author is the one whose turn it is keeps the
      history alternating. */
  lemma AppendKeepsAlternation(m: seq<ChatMessage>, x: ChatMessage)
    requires forall k :: 1 <= k < |m| ==> m[k].isUser == (k % 2 == 1)
    requires x.isUser == (|m| % 2 == 1)
    ensures forall k :: 1 <= k < |m + [x]| ==> (m + [x])[k].isUser == (k % 2 == 1)
  {
    forall k | 1 <= k < |m + [x]| ensures (m + [x])[k].isUser == (k % 2 == 1) {
      if k < |m| {
        assert (m + [x])[k] == m[k];
      }
    }
  }

  /** Whatever the order of events, the run stays consistent: at most one
      reply is ever in flight, and the history alternates. */
  lemma {:induction false} RunConsistent(rt: Runtime, events: seq<Event>)
    requires Consistent(rt)
    requires forall k :: 0 <= k < |events| ==> ValidEvent(events[k])
    ensures Consistent(Run(rt, events))
    decreases |events|
  {
    if events != [] {
      StepConsistent(rt, events[0]);
      RunConsistent(Step(rt, events[0]), events[1..]);
    }
  }

  /** From the mounted component on, every run has at most one reply timer
      outstanding, and the history is the greeting followed by alternating
      user and non-user messages. */
  lemma RunFromStart(events: seq<Event>)
    requires forall k :: 0 <= k < |events| ==> ValidEvent(events[k])
    ensures var rt := Run(Start(), events);
      && rt.timers <= 1
      && |rt.chat.messages| >= 1 && rt.chat.messages[0] == ChatMessage(Greeting, false)
      && forall k :: 1 <= k < |rt.chat.messages| ==> rt.chat.messages[k].isUser == (k % 2 == 1)
  {
    StartConsistent();
    RunConsistent(Start(), events);
  }

  /** The history is append-only, and it grows by at most one message per
      event. */
  lemma {:induction false} RunAppendOnly(rt: Runtime, events: seq<Event>)
    requires forall k :: 0 <= k < |events| ==> ValidEvent(events[k])
    ensures var m := Run(rt, events).chat.messages;
      |rt.chat.messages| <= |m| <= |rt.chat.messages| + |events|
      && m[..|rt.chat.messages|] == rt.chat.messages
    decreases |events|
  {
    if events != [] {
      var next := Step(rt, events[0]);
      RunAppendOnly(next, events[1..]);
      var m := Run(rt, events).chat.messages;
      assert m[..|next.chat.messages|] == next.chat.messages;
      assert m[..|rt.chat.messages|] == next.chat.messages[..|rt.chat.messages|];
    }
  }

  /** Every reply in a history reached from the start is a canned response. */
  lemma {:induction false} RunRepliesAreCanned(rt: Runtime, events: seq<Event>)
    requires forall k :: 0 <= k < |rt.chat.messages| ==>
      rt.chat.messages[k].isUser || rt.chat.messages[k].text in Responses + [Greeting]
    requires forall k :: 0 <= k < |events| ==> ValidEvent(events[k])
    ensures var m := Run(rt, events).chat.messages;
      forall k :: 0 <= k < |m| ==> m[k].isUser || m[k].text in Responses + [Greeting]
    decreases |events|
  {
    if events != [] {
      var next := Step(rt, events[0]);
      var m := rt.chat.messages;
      var n := next.chat.messages;
      forall k | 0 <= k < |n| ensures n[k].isUser || n[k].text in Responses + [Greeting] {
        if k < |m| {
          assert n[k] == n[..|m|][k];
        }
      }
      RunRepliesAreCanned(next, events[1..]);
      assert Run(rt, events) == Run(next, events[1..]);
    }
  }

  // ---------------------------------------------------------------------
  // The component

  class ChatSession {
    var draft: string
    var messages: seq<ChatMessage>
    var isLoading: bool

    function State(): ChatState
      reads this
    {
      ChatState(draft, messages, isLoading)
    }

    constructor ()
      ensures State() == Initial()
    {
      draft := "";
      messages := [ChatMessage(Greeting, false)];
      isLoading := false;
    }

    /** The send button's `disabled` attribute. */
    function CanSend(): (enabled: bool)
      reads this
      ensures enabled <==> !SendButtonDisabled(State())
    {
      !(Trim(draft) == "" || isLoading)
    }

    method SetDraft(text: string)
      modifies this
      ensures State() == TypeStep(old(State()), text)
    {
      draft := text;
    }

    /** `handleSendMessage`; `scheduled` tells whether it started the reply
        timer. */
    method Send() returns (scheduled: bool)
      modifies this
      ensures scheduled <==> !SendBlocked(old(State()))
      ensures State() == SendStep(old(State()))
      ensures scheduled ==> messages == old(messages) + [ChatMessage(Trim(old(draft)), true)]
      ensures !scheduled ==> unchanged(this)
    {
      if Trim(draft) == "" || isLoading {
        return false;
      }
      var userMessage := Trim(draft);
      messages := messages + [ChatMessage(userMessage, true)];
      draft := "";
      isLoading := true;
      scheduled := true;
    }

    /** `handleKeyPress`: Enter without Shift sends. */
    method KeyPress(key: string, shiftKey: bool) returns (scheduled: bool)
      modifies this
      ensures key == "Enter" && !shiftKey ==> State() == SendStep(old(State()))
      ensures scheduled <==> key == "Enter" && !shiftKey && !SendBlocked(old(State()))
      ensures !(key == "Enter" && !shiftKey) ==> unchanged(this)
    {
      scheduled := false;
      if key == "Enter" && !shiftKey {
        scheduled := Send();
      }
    }

    /** The timer callback, for the random number it draws. */
    method Reply(random: real)
      requires 0.0 <= random < 1.0
      modifies this
      ensures State() == ReplyStep(old(State()), random)
      ensures messages == old(messages) + [ChatMessage(Responses[PickIndex(random)], false)]
    {
      var responses := Responses;
      var randomResponse := responses[(random * (|responses| as real)).Floor];
      messages := messages + [ChatMessage(randomResponse, false)];
      isLoading := false;
    }
  }
}
