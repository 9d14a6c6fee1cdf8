/** The AI coach page: the send guard and transcript append, the keyword
    rules that pick a canned reply, the bold/line-break rewrite used to
    display a message, and "New Conversation". */
module AICoach {
  import opened Wrappers
  import opened Text

  datatype Role = User | Assistant

  /** A chat message; the generated id and the timestamp are left out. */
  datatype Message = Message(role: Role, content: string)

  const Greeting: string :=
    "Hello! I'm your AI Risk Coach, powered by Lumina Intelligence. I can help you:\n\n"
    + "• **Analyze risks** - Understand patterns and trends in your risk data\n"
    + "• **Suggest mitigations** - Get AI-powered recommendations for risk treatment\n"
    + "• **Generate reports** - Create summaries and presentations\n"
    + "• **Answer questions** - Ask anything about risk management best practices\n\n"
    + "How can I help you today?"

  const InitialMessages: seq<Message> := [Message(Assistant, Greeting)]

  const SuggestedPrompts: seq<string> := [
    "What are my top 3 risks to focus on this week?",
    "Suggest mitigation strategies for supply chain risks",
    "Generate a risk summary for the board meeting",
    "Which risks have increased in severity this month?",
    "Help me assess a new technology risk",
    "What compliance gaps should I address?"
  ]

  /** The three canned answers: `default`, `risks` and `mitigation`. */
  datatype Reply = DefaultReply | RisksReply | MitigationReply

  const DefaultText: string :=
    "Based on your risk register, here's my analysis:\n\n**Key Observations:**\n"
    + "1. You have 3 high-priority risks that need immediate attention\n"
    + "2. The \"Cybersecurity Breach\" risk has the highest risk score (15)\n"
    + "3. 2 mitigation actions are overdue\n\n**Recommendations:**\n"
    + "• Schedule a review meeting for the cybersecurity risk with your IT team\n"
    + "• Update the supply chain risk assessment with recent vendor data\n"
    + "• Consider escalating the compliance gap to senior management\n\n"
    + "Would you like me to elaborate on any of these points?"

  const RisksText: string :=
    "Based on your current risk landscape, here are your **top 3 priority risks** this week:\n\n"
    + "1. **Cybersecurity Breach** (Score: 15 - Critical)\n   - Status: Actively mitigating\n"
    + "   - Action needed: Review penetration test results by Friday\n\n"
    + "2. **Supply Chain Disruption** (Score: 20 - High)\n   - Status: Being assessed\n"
    + "   - Action needed: Contact backup suppliers\n\n"
    + "3. **Market Share Erosion** (Score: 16 - High)\n   - Status: Under review\n"
    + "   - Action needed: Competitive analysis update\n\n"
    + "Should I draft a mitigation plan for any of these?"

  const MitigationText: string :=
    "Here are **AI-suggested mitigation strategies** for supply chain risks:\n\n"
    + "**Short-term (1-4 weeks):**\n"
    + "• Identify and qualify 2-3 backup suppliers for critical components\n"
    + "• Increase safety stock levels by 20% for high-risk items\n"
    + "• Establish direct communication channels with key suppliers\n\n"
    + "**Medium-term (1-3 months):**\n"
    + "• Implement supplier risk monitoring dashboard\n"
    + "• Negotiate flexible contract terms with key vendors\n"
    + "• Develop regional sourcing alternatives\n\n"
    + "**Long-term (3-12 months):**\n"
    + "• Diversify supplier base across geographic regions\n"
    + "• Invest in supply chain visibility technology\n"
    + "• Build strategic inventory reserves\n\n"
    + "Want me to create a detailed action plan for any of these strategies?"

  function ReplyText(r: Reply): string {
    match r
    case DefaultReply => DefaultText
    case RisksReply => RisksText
    case MitigationReply => MitigationText
  }

  predicate AsksForPriorities(lower: string) {
    Contains(lower, "top") || Contains(lower, "priority") || Contains(lower, "focus")
  }

  predicate AsksForMitigation(lower: string) {
    Contains(lower, "mitigation") || Contains(lower, "supply chain")
  }

  /** The reply rules on the lowercased prompt; the first rule that
      matches wins. */
  function ChooseReply(prompt: string): (r: Reply)
    ensures r == RisksReply <==> AsksForPriorities(Lower(prompt))
    ensures r == MitigationReply <==> !AsksForPriorities(Lower(prompt)) && AsksForMitigation(Lower(prompt))
    ensures r == DefaultReply <==> !AsksForPriorities(Lower(prompt)) && !AsksForMitigation(Lower(prompt))
  {
    var lower := Lower(prompt);
    if AsksForPriorities(lower) then RisksReply
    else if AsksForMitigation(lower) then MitigationReply
    else DefaultReply
  }

  lemma {:induction false} LowerIdempotent(s: string)
    ensures Lower(Lower(s)) == Lower(s)
  {
    var once := Lower(s);
    forall k | 0 <= k < |s| ensures Lower(once)[k] == once[k] {
      assert once[k] == LowerChar(s[k]);
    }
  }

  /** The rules ignore ASCII case. */
  lemma ChooseReplyIgnoresCase(prompt: string)
    ensures ChooseReply(Lower(prompt)) == ChooseReply(prompt)
    ensures ChooseReply(Upper(prompt)) == ChooseReply(prompt)
  {
    LowerIdempotent(prompt);
    LowerOfUpper(prompt);
  }

  lemma LowerOfUpper(s: string)
    ensures Lower(Upper(s)) == Lower(s)
  {
    var u := Upper(s);
    forall k | 0 <= k < |s| ensures Lower(u)[k] == Lower(s)[k] {
      assert u[k] == UpperChar(s[k]);
    }
  }

  /** The first suggested question asks for priorities. */
  lemma FirstPromptGetsRisks()
    ensures ChooseReply(SuggestedPrompts[0]) == RisksReply
  {
    var p := SuggestedPrompts[0];
    var lower := Lower(p);
    assert p[12] == 't' && p[13] == 'o' && p[14] == 'p';
    assert lower[12] == 't' && lower[13] == 'o' && lower[14] == 'p';
    assert lower[12..15] == "top";
    assert OccursAt(lower, "top", 12);
  }

  /** Enter sends; Shift+Enter inserts a line break instead. */
  predicate ShouldSend(key: string, shiftKey: bool) {
    key == "Enter" && !shiftKey
  }

  /** Input made only of what `trim` removes is blank, ideographic and
      other Unicode spaces included; input with a visible character is not. */
  lemma BlankInputs()
    ensures IsBlank("") && IsBlank(" \t\n") && IsBlank("\U{3000}") && IsBlank("\U{2003}\U{00A0}\U{1680}")
    ensures !IsBlank(" a ") && !IsBlank("\U{200B}")
  {
    assert " a "[1] == 'a';
    assert "\U{200B}"[0] == '\U{200B}';
  }

  /** A line terminator occurs in `s[from..to]`. */
  predicate BreakBetween(s: string, from: nat, to: nat) {
    exists t | from <= t < to && t < |s| :: IsLineTerminator(s[t])
  }

  /** The first index at or after `j` where `**` begins on the same line:
      the lazy `(.*?)` stops at the first closing `**` and cannot cross a
      line terminator. */
  function FindClose(s: string, j: nat): (r: Option<nat>)
    decreases |s| - j
    ensures r.Some? ==> j <= r.value && r.value + 2 <= |s| && s[r.value] == '*' && s[r.value + 1] == '*'
    ensures r.Some? ==> forall m :: j <= m < r.value ==> !IsLineTerminator(s[m]) && !(s[m] == '*' && s[m + 1] == '*')
    ensures r.None? ==> forall m :: j <= m && m + 1 < |s| && s[m] == '*' && s[m + 1] == '*' ==>
      BreakBetween(s, j, m)
  {
    if j + 2 > |s| then None
    else if s[j] == '*' && s[j + 1] == '*' then Some(j)
    else if IsLineTerminator(s[j]) then None
    else FindClose(s, j + 1)
  }

  // The global replace of each lazily matched `**x**` by
  // `<strong>x</strong>`, scanning left to right and resuming after each
  // match.
  function Bold(s: string): string
    decreases |s|
  {
    if |s| < 2 then s
    else if s[0] == '*' && s[1] == '*' then
      match FindClose(s, 2)
      case Some(k) => "<strong>" + s[2..k] + "</strong>" + Bold(s[k + 2..])
      case None => [s[0]] + Bold(s[1..])
    else [s[0]] + Bold(s[1..])
  }

  /** `.replace(/\n/g, '<br />')`. */
  function Breaks(s: string): string {
    if s == [] then ""
    else (if s[0] == '\n' then "<br />" else [s[0]]) + Breaks(s[1..])
  }

  /** The markup shown for a message. */
  function Render(s: string): string {
    Breaks(Bold(s))
  }

  predicate HasMarker(s: string) {
    exists i | 0 <= i < |s| - 1 :: s[i] == '*' && s[i + 1] == '*'
  }

  lemma {:induction false} BoldPlain(s: string)
    requires !HasMarker(s)
    ensures Bold(s) == s
  {
    if |s| >= 2 {
      assert !HasMarker(s[1..]) by {
        forall i | 0 <= i < |s[1..]| - 1 ensures !(s[1..][i] == '*' && s[1..][i + 1] == '*') {
          assert s[1..][i] == s[i + 1] && s[1..][i + 1] == s[i + 2];
        }
      }
      BoldPlain(s[1..]);
      assert !(s[0] == '*' && s[1] == '*');
    }
  }

  lemma {:induction false} BreaksPlain(s: string)
    requires '\n' !in s
    ensures Breaks(s) == s
  {
    if s != [] {
      BreaksPlain(s[1..]);
    }
  }

  /** Text with no `**` and no newline is displayed unchanged. */
  lemma RenderPlain(s: string)
    requires !HasMarker(s) && '\n' !in s
    ensures Render(s) == s
  {
    BoldPlain(s);
    BreaksPlain(s);
  }

  /** The displayed markup never contains a raw newline. */
  lemma {:induction false} BreaksRemovesNewlines(s: string)
    ensures '\n' !in Breaks(s)
  {
    if s != [] {
      BreaksRemovesNewlines(s[1..]);
    }
  }

  /** Replacing every newline is splitting on newlines and joining with
      `<br />`. */
  lemma {:induction false} BreaksIsSplitJoin(s: string)
    ensures Breaks(s) == Join(Split(s, '\n'), "<br />")
  {
    if s != [] {
      var rest := Split(s[1..], '\n');
      BreaksIsSplitJoin(s[1..]);
      if s[0] == '\n' {
        assert ([[]] + rest)[1..] == rest;
        if |rest| == 1 {
          assert Join([[]] + rest, "<br />") == [] + "<br />" + rest[0];
        }
      } else {
        var parts := [[s[0]] + rest[0]] + rest[1..];
        if |rest| > 1 {
          assert parts[1..] == rest[1..];
          assert Join(rest, "<br />") == rest[0] + "<br />" + Join(rest[1..], "<br />");
        }
      }
    }
  }

  /** A marked span without stars or line breaks becomes one bold element. */
  lemma BoldSpan(x: string)
    requires forall k :: 0 <= k < |x| ==> x[k] != '*' && !IsLineTerminator(x[k])
    ensures Bold("**" + x + "**") == "<strong>" + x + "</strong>"
  {
    var s := "**" + x + "**";
    FindCloseSpan(s, x, 2);
    assert s[2..|x| + 2] == x;
    assert s[|x| + 4..] == [];
  }

  lemma {:induction false} FindCloseSpan(s: string, x: string, j: nat)
    requires s == "**" + x + "**" && 2 <= j <= |x| + 2
    requires forall k :: 0 <= k < |x| ==> x[k] != '*' && !IsLineTerminator(x[k])
    ensures FindClose(s, j) == Some(|x| + 2)
    decreases |x| + 2 - j
  {
    if j < |x| + 2 {
      assert s[j] == x[j - 2];
      FindCloseSpan(s, x, j + 1);
    }
  }

  /** The page state: the transcript, the text box and the typing flag. */
  class Coach {
    var messages: seq<Message>
    var input: string
    var isTyping: bool

    constructor ()
      ensures messages == InitialMessages && input == "" && !isTyping
    {
      messages := InitialMessages;
      input := "";
      isTyping := false;
    }

    method SetInput(text: string)
      modifies this
      ensures input == text && messages == old(messages) && isTyping == old(isTyping)
    {
      input := text;
    }

    /** Clicking a suggested question copies it into the text box. */
    method UsePrompt(k: nat)
      requires k < |SuggestedPrompts|
      modifies this
      ensures input == SuggestedPrompts[k] && messages == old(messages) && isTyping == old(isTyping)
    {
      input := SuggestedPrompts[k];
    }

    /** The synchronous part of `handleSend`. A blank input changes
        nothing; otherwise the user's message is appended, the box is
        cleared and the typing indicator shows. `prompt` is the text the
        pending reply will answer. */
    method Send() returns (prompt: Option<string>)
      modifies this
      ensures IsBlank(old(input)) ==>
        prompt == None && messages == old(messages) && input == old(input) && isTyping == old(isTyping)
      ensures !IsBlank(old(input)) ==>
        && prompt == Some(old(input))
        && messages == old(messages) + [Message(User, old(input))]
        && input == "" && isTyping
    {
      if IsBlank(input) {
        return None;
      }
      prompt := Some(input);
      messages := messages + [Message(User, input)];
      input := "";
      isTyping := true;
    }

    /** The timer callback: append the reply chosen for the captured
        prompt and hide the typing indicator. */
    method DeliverReply(prompt: string)
      modifies this
      ensures messages == old(messages) + [Message(Assistant, ReplyText(ChooseReply(prompt)))]
      ensures !isTyping && input == old(input)
    {
      messages := messages + [Message(Assistant, ReplyText(ChooseReply(prompt)))];
      isTyping := false;
    }

    /** A send and its reply as one step: a non-blank prompt grows the
        transcript by exactly the user's message and the chosen reply. */
    method HandleSend()
      modifies this
      ensures IsBlank(old(input)) ==>
        messages == old(messages) && input == old(input) && isTyping == old(isTyping)
      ensures !IsBlank(old(input)) ==>
        && messages == old(messages) + [Message(User, old(input)), Message(Assistant, ReplyText(ChooseReply(old(input))))]
        && |messages| == |old(messages)| + 2
        && input == "" && !isTyping
    {
      var prompt := Send();
      if prompt.Some? {
        DeliverReply(prompt.value);
      }
    }

    /** "New Conversation" restores the greeting; the text box is kept. */
    method NewConversation()
      modifies this
      ensures messages == InitialMessages && input == old(input) && isTyping == old(isTyping)
    {
      messages := InitialMessages;
    }
  }
}
