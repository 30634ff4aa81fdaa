/** The chat page: a transcript that opens with the assistant's greeting; each
    accepted send appends the user's message and then exactly one reply (the
    API's answer, a fallback when the envelope fails, or an apology when the
    call throws). */
module Chatbot {
  import opened Types
  import Api

  // ---- String.prototype.trim -------------------------------------------------

  /** The characters `trim` removes: ECMAScript's WhiteSpace (tab, vertical
      tab, form feed, space, no-break space, byte-order mark and the Unicode
      space separators) and LineTerminator code points. */
  predicate IsWhiteSpace(c: char)
  {
    || c == '\U{0009}' || c == '\U{000B}' || c == '\U{000C}' || c == '\U{0020}' || c == '\U{00A0}'
    || c == '\U{FEFF}' || c == '\U{1680}' || ('\U{2000}' <= c <= '\U{200A}') || c == '\U{202F}'
    || c == '\U{205F}' || c == '\U{3000}'
    || c == '\U{000A}' || c == '\U{000D}' || c == '\U{2028}' || c == '\U{2029}'
  }

  /** Every character is white space (vacuously so for ""). */
  predicate Blank(s: string)
  {
    forall i :: 0 <= i < |s| ==> IsWhiteSpace(s[i])
  }

  function TrimStart(s: string): (r: string)
    ensures |r| <= |s| && r == s[|s| - |r|..]
    ensures |r| > 0 ==> !IsWhiteSpace(r[0])
  {
    if |s| > 0 && IsWhiteSpace(s[0]) then TrimStart(s[1..]) else s
  }

  function TrimEnd(s: string): (r: string)
    ensures |r| <= |s| && r == s[..|r|]
    ensures |r| > 0 ==> !IsWhiteSpace(r[|r| - 1])
  {
    if |s| > 0 && IsWhiteSpace(s[|s| - 1]) then TrimEnd(s[..|s| - 1]) else s
  }

  function Trim(s: string): string
  {
    TrimEnd(TrimStart(s))
  }

  lemma {:induction false} TrimStartEmptyIffBlank(s: string)
    ensures TrimStart(s) == "" <==> Blank(s)
    decreases |s|
  {
    if |s| > 0 && IsWhiteSpace(s[0]) {
      TrimStartEmptyIffBlank(s[1..]);
      assert Blank(s) <==> Blank(s[1..]) by {
        if Blank(s[1..]) {
          forall i | 0 <= i < |s| ensures IsWhiteSpace(s[i]) {
            if i > 0 { assert s[i] == s[1..][i - 1]; }
          }
        }
      }
    }
  }

  /** `!s.trim()` holds exactly for strings made only of white space. */
  lemma TrimEmptyIffBlank(s: string)
    ensures Trim(s) == "" <==> Blank(s)
  {
    TrimStartEmptyIffBlank(s);
    var t := TrimStart(s);
    if t != "" {
      assert TrimEnd(t) != "" by {
        if TrimEnd(t) == "" {
          TrimEndOfNonBlank(t);
        }
      }
    }
  }

  /** A string whose first character is not white space keeps it. */
  lemma {:induction false} TrimEndOfNonBlank(t: string)
    requires |t| > 0 && !IsWhiteSpace(t[0])
    ensures TrimEnd(t) != ""
    decreases |t|
  {
    if |t| > 1 && IsWhiteSpace(t[|t| - 1]) {
      TrimEndOfNonBlank(t[..|t| - 1]);
    }
  }

  // ---- the transcript --------------------------------------------------------

  datatype Message = Message(text: string, isUser: bool)

  datatype ChatState = ChatState(messages: seq<Message>, input: string, loading: bool)

  const GreetingText: string := "Hello! I'm your AI wellness companion. I'm here to help you with mental health support, mood insights, and general wellness advice. How are you feeling today?"
  const FallbackText: string := "I'm sorry, I'm having trouble connecting right now. Please try again later. In the meantime, remember that it's okay to have difficult days, and seeking support is a sign of strength."
  const ApologyText: string := "I apologize, but I'm experiencing technical difficulties. Please try again later. Remember, if you're in crisis, please contact a mental health professional or crisis hotline immediately."

  const InitialChat: ChatState := ChatState([Message(GreetingText, false)], "", false)

  /** The handler's guard: a non-blank input and no reply pending. */
  predicate CanSend(s: ChatState)
  {
    Trim(s.input) != "" && !s.loading
  }

  /** The send button's `disabled` flag. */
  function SendDisabled(s: ChatState): (disabled: bool)
    ensures disabled <==> s.loading || Blank(s.input)
  {
    TrimEmptyIffBlank(s.input);
    s.loading || Trim(s.input) == ""
  }

  /** The reply text for a settled call. */
  function BotText(settled: Settled<ChatReply>): (text: string)
    ensures Delivered(settled) ==> text == settled.response.data.value.response
    ensures settled.Resolved? && !Delivered(settled) ==> text == FallbackText
    ensures settled.Rejected? ==> text == ApologyText
  {
    match settled
    case Resolved(response) =>
      if response.success && response.data.Some? then response.data.value.response else FallbackText
    case Rejected => ApologyText
  }

  /** One press of send, from the guard to `finally`. The second component is
      the text handed to the API, if the send was accepted. */
  function HandleSendMessage(s: ChatState, settled: Settled<ChatReply>): (r: (ChatState, Option<string>))
    ensures !CanSend(s) ==> r == (s, None)
    ensures CanSend(s) ==>
      && r.1 == Some(s.input)
      && |r.0.messages| == |s.messages| + 2
      && r.0.messages[..|s.messages|] == s.messages
      && r.0.messages[|s.messages|] == Message(s.input, true)
      && r.0.messages[|s.messages| + 1] == Message(BotText(settled), false)
      && r.0.input == ""
      && !r.0.loading
  {
    if !CanSend(s) then (s, None)
    else
      var pending := s.(messages := s.messages + [Message(s.input, true)], input := "", loading := true);
      (pending.(messages := pending.messages + [Message(BotText(settled), false)], loading := false), Some(s.input))
  }

  /** The state while the reply is awaited: the user's message is already
      shown, the input is cleared and the spinner is on. */
  function PendingState(s: ChatState): (p: ChatState)
    requires CanSend(s)
    ensures p.messages == s.messages + [Message(s.input, true)] && p.input == "" && p.loading
    ensures !CanSend(p)
  {
    s.(messages := s.messages + [Message(s.input, true)], input := "", loading := true)
  }

  /** The transcript alternates: the greeting, then user and assistant
      messages in turn, always ending on an assistant message. */
  ghost predicate Alternating(msgs: seq<Message>)
  {
    |msgs| % 2 == 1 && forall i :: 0 <= i < |msgs| ==> (msgs[i].isUser <==> i % 2 == 1)
  }

  lemma InitialAlternates()
    ensures Alternating(InitialChat.messages)
  {
  }

  /** Each accepted send keeps the transcript alternating. */
  lemma SendKeepsAlternating(s: ChatState, settled: Settled<ChatReply>)
    requires Alternating(s.messages)
    ensures Alternating(HandleSendMessage(s, settled).0.messages)
  {
    var m := HandleSendMessage(s, settled).0.messages;
    if CanSend(s) {
      forall i | 0 <= i < |m| ensures m[i].isUser <==> i % 2 == 1 {
        if i < |s.messages| {
          assert m[i] == m[..|s.messages|][i];
        }
      }
    }
  }

  /** A session of typed inputs, each followed by a press of send that
      settles as given. */
  function Run(s: ChatState, steps: seq<(string, Settled<ChatReply>)>): ChatState
    decreases |steps|
  {
    if |steps| == 0 then s
    else Run(HandleSendMessage(s.(input := steps[0].0), steps[0].1).0, steps[1..])
  }

  /** The number of inputs in a session that are not blank. */
  function Accepted(steps: seq<(string, Settled<ChatReply>)>): nat
  {
    if |steps| == 0 then 0 else (if Blank(steps[0].0) then 0 else 1) + Accepted(steps[1..])
  }

  /** From the greeting, every non-blank input adds exactly one user message
      and one reply, blank inputs add nothing, and the transcript keeps
      alternating throughout. */
  lemma {:induction false} RunGrowsByTwo(s: ChatState, steps: seq<(string, Settled<ChatReply>)>)
    requires Alternating(s.messages) && !s.loading
    ensures Alternating(Run(s, steps).messages)
    ensures |Run(s, steps).messages| == |s.messages| + 2 * Accepted(steps)
    ensures !Run(s, steps).loading
    decreases |steps|
  {
    if |steps| > 0 {
      var typed := s.(input := steps[0].0);
      var next := HandleSendMessage(typed, steps[0].1).0;
      TrimEmptyIffBlank(steps[0].0);
      SendKeepsAlternating(typed, steps[0].1);
      RunGrowsByTwo(next, steps[1..]);
    }
  }

  /** In demo mode every accepted send is answered with one of the canned
      replies, whatever was typed. */
  lemma DemoReplyIsCanned(s: ChatState, random: real, outcome: Api.FetchOutcome<ChatReply>)
    requires CanSend(s)
    requires 0.0 <= random < 1.0
    ensures var r := HandleSendMessage(s, Resolved(Api.SendChatMessage(true, s.input, random, outcome))).0;
      r.messages[|r.messages| - 1].text in Api.CannedReplies
  {
  }
}
