/**
 * The chat widget's session (`AIAssistant`): a transcript that opens with one
 * greeting from the bot, the text box's contents, and the `isTyping` flag that
 * is raised while a `callGemini` call is outstanding.
 *
 * `handleSend` is modelled twice: as the two halves either side of its
 * `await` (`BeginSend` and `FinishSend`, between which the user may keep
 * typing or press send again), and as one atomic step (`HandleSend`) that runs
 * the request client on given attempt outcomes.
 */
module Chat {
  import opened Wrappers
  import opened Text
  import opened Accounts
  import Gemini

  /** Who wrote a message: the `type` field, `'user'` or `'bot'`. */
  datatype Speaker = FromUser | FromBot

  /** One message of the transcript (the wall-clock `id` is not modelled). */
  datatype Message = Message(speaker: Speaker, text: string)

  /** The widget's state: `messages`, `input` and `isTyping`. */
  datatype Session = Session(messages: seq<Message>, input: string, isTyping: bool)

  /** The greeting's name: `user?.name || 'there'`. */
  function DisplayName(user: Option<User>): (r: string)
    ensures r != ""
    ensures user.Some? && user.value.name.Some? && user.value.name.value != "" ==> r == user.value.name.value
    ensures !(user.Some? && user.value.name.Some? && user.value.name.value != "") ==> r == "there"
  {
    if user.Some? && user.value.name.Some? && user.value.name.value != "" then user.value.name.value else "there"
  }

  /** The bot's opening message: "Hi ", the display name, then a fixed invitation ending in the sparkles emoji. */
  function Greeting(user: Option<User>): (g: string)
    ensures |g| > 3 + |DisplayName(user)|
    ensures g[..3] == "Hi " && g[3..3 + |DisplayName(user)|] == DisplayName(user)
    ensures g[|g| - 1] == '\U{2728}'
  {
    "Hi " + DisplayName(user) + "! I'm your InternMatch AI. How can I help with your career today? \U{2728}"
  }

  /** The role the instruction names: `user?.role || 'guest'`. */
  function RoleLabel(user: Option<User>): (r: string)
    ensures r != ""
    ensures user.Some? && RoleName(user.value.role) != "" ==> r == RoleName(user.value.role)
    ensures user.None? || user.value.role == Other("") ==> r == "guest"
  {
    if user.Some? && RoleName(user.value.role) != "" then RoleName(user.value.role) else "guest"
  }

  /** `${user?.name}` in a template: a missing user or name prints as `undefined`. */
  function NameField(user: Option<User>): (r: string)
    ensures user.Some? && user.value.name.Some? ==> r == user.value.name.value
    ensures user.None? || user.value.name.None? ==> r == "undefined"
  {
    if user.Some? && user.value.name.Some? then user.value.name.value else "undefined"
  }

  /** The fixed guidance that follows the role and name in the instruction. */
  const Guidance: string :=
    "         For students: Focus on interview prep, resume tips, and job fit. \n"
    + "         For companies: Focus on candidate analytics, hiring funnels, and JD optimization.\n"
    + "         For faculty: Focus on student progress, research opportunities, and academic mentorship.\n"
    + "         For admins: Focus on governance, fairness checks, and system health.\n"
    + "         Keep answers concise, professional, and encouraging. Use emojis."

  /** The system instruction sent with every question, built from the role and the name. */
  function Instruction(user: Option<User>): (r: string)
    ensures r != ""
  {
    "You are the InternMatch AI Expert for a user with role: " + RoleLabel(user)
    + ". User name: " + NameField(user) + ". \n" + Guidance
  }

  /** The chat never sends a question without its instruction: the field is always present in the body. */
  lemma InstructionAlwaysSent(prompt: string, user: Option<User>)
    ensures Gemini.BuildPayload(prompt, Instruction(user)).systemInstruction.Some?
    ensures Gemini.InstructionOf(Gemini.BuildPayload(prompt, Instruction(user))) == Instruction(user)
  {
    Gemini.PayloadRoundTrip(prompt, Instruction(user));
  }

  /** Messages alternate, the bot's at even positions and the user's at odd ones. */
  predicate Alternates(m: seq<Message>) {
    forall i :: 0 <= i < |m| ==> (m[i].speaker == FromBot <==> i % 2 == 0)
  }

  /** Every user message has something in it besides white space. */
  predicate UserTextNonBlank(m: seq<Message>) {
    forall i :: 0 <= i < |m| && m[i].speaker == FromUser ==> !IsBlank(m[i].text)
  }

  /**
   * The session invariant: the transcript starts with the bot, alternates, holds
   * no blank user message, and `isTyping` is raised exactly when the last
   * message is an unanswered user message.
   */
  predicate Valid(s: Session) {
    && |s.messages| >= 1
    && Alternates(s.messages)
    && UserTextNonBlank(s.messages)
    && (s.isTyping <==> |s.messages| % 2 == 0)
  }

  /**
   * Appending the message whose turn it is (a bot message after an odd-length
   * transcript, a non-blank user message after an even-length one) keeps the
   * transcript alternating and free of blank user messages.
   */
  lemma AppendKeepsShape(m: seq<Message>, msg: Message)
    ensures && Alternates(m) && UserTextNonBlank(m)
            && (msg.speaker == FromBot <==> |m| % 2 == 0)
            && (msg.speaker == FromUser ==> !IsBlank(msg.text))
            ==> Alternates(m + [msg]) && UserTextNonBlank(m + [msg])
  {
    if && Alternates(m) && UserTextNonBlank(m)
       && (msg.speaker == FromBot <==> |m| % 2 == 0)
       && (msg.speaker == FromUser ==> !IsBlank(msg.text))
    {
      var m' := m + [msg];
      forall i | 0 <= i < |m'|
        ensures (m'[i].speaker == FromBot <==> i % 2 == 0)
        ensures m'[i].speaker == FromUser ==> !IsBlank(m'[i].text)
      {
        if i < |m| { assert m'[i] == m[i]; }
      }
    }
  }

  /** The widget as it mounts: the greeting alone, an empty text box, nothing in flight. */
  function Open(user: Option<User>): (s: Session)
    ensures Valid(s) && !s.isTyping && s.input == ""
    ensures s.messages == [Message(FromBot, Greeting(user))]
  {
    Session([Message(FromBot, Greeting(user))], "", false)
  }

  /** The text box's `onChange`: only the input changes, and it may change while a reply is awaited. */
  function Type(s: Session, text: string): (t: Session)
    ensures t.input == text && t.messages == s.messages && t.isTyping == s.isTyping
  {
    s.(input := text)
  }

  /** The guard of `handleSend`: the input trims to something, and no reply is awaited. */
  predicate CanSend(s: Session) {
    Trim(s.input) != "" && !s.isTyping
  }

  /**
   * `handleSend` up to its `await`: a rejected send changes nothing; an
   * accepted one clears the input, appends the user's message with the input
   * exactly as typed (not trimmed) and raises `isTyping`.
   */
  function BeginSend(s: Session): (t: Session)
    ensures !CanSend(s) ==> t == s
    ensures CanSend(s) ==> t.input == "" && t.isTyping
    ensures CanSend(s) ==> |t.messages| == |s.messages| + 1 && t.messages[..|s.messages|] == s.messages
    ensures CanSend(s) ==> t.messages[|s.messages|] == Message(FromUser, s.input)
    ensures Valid(s) ==> Valid(t)
  {
    if Trim(s.input) == "" || s.isTyping then s
    else
      var msg := Message(FromUser, s.input);
      AppendKeepsShape(s.messages, msg);
      Session(s.messages + [msg], "", true)
  }

  /**
   * `handleSend` after its `await`: the reply is appended as the bot's message
   * and, through the `finally`, `isTyping` is lowered. Whatever was typed
   * meanwhile stays in the text box.
   */
  function FinishSend(s: Session, reply: string): (t: Session)
    ensures t.input == s.input && !t.isTyping
    ensures |t.messages| == |s.messages| + 1 && t.messages[..|s.messages|] == s.messages
    ensures t.messages[|s.messages|] == Message(FromBot, reply)
    ensures Valid(s) && s.isTyping ==> Valid(t)
  {
    var msg := Message(FromBot, reply);
    AppendKeepsShape(s.messages, msg);
    Session(s.messages + [msg], s.input, false)
  }

  /**
   * `handleSend` as one step, the request client answering on `attempts`. A
   * rejected send changes nothing. An accepted one leaves the text box empty,
   * `isTyping` lowered, and the transcript grown by exactly the user's message
   * and then the bot's reply, which is the text `callGemini` returned for that
   * input and the role's instruction.
   */
  function HandleSend(s: Session, user: Option<User>, attempts: Gemini.Outcomes): (t: Session)
    ensures !CanSend(s) ==> t == s
    ensures CanSend(s) ==> t.input == "" && !t.isTyping
    ensures CanSend(s) ==> t.messages == s.messages + [Message(FromUser, s.input),
                                                        Message(FromBot, Gemini.CallGemini(s.input, Instruction(user), attempts).text)]
    ensures Valid(s) ==> Valid(t)
  {
    if !CanSend(s) then s
    else
      var reply := Gemini.CallGemini(s.input, Instruction(user), attempts).text;
      var b := BeginSend(s);
      assert b.messages == s.messages + [Message(FromUser, s.input)];
      var t := FinishSend(b, reply);
      assert t.messages == b.messages + [Message(FromBot, reply)];
      t
  }

  /** The guard `!input.trim()` rejects exactly the blank inputs. */
  lemma BlankInputRejected(s: Session)
    ensures CanSend(s) <==> !IsBlank(s.input) && !s.isTyping
  {
  }

  /** While a reply is awaited every further send is ignored. */
  lemma BusySendIgnored(s: Session, user: Option<User>, attempts: Gemini.Outcomes)
    requires s.isTyping
    ensures BeginSend(s) == s
    ensures HandleSend(s, user, attempts) == s
  {
  }

  /** What can happen to the widget: typing, pressing send, and the awaited reply arriving. */
  datatype Event = Edit(text: string) | Press | Resolve(reply: string)

  /** One event. A reply arriving when none is awaited has nothing to resolve and changes nothing. */
  function Step(s: Session, e: Event): (t: Session)
    ensures Valid(s) ==> Valid(t)
  {
    match e
    case Edit(text) => Type(s, text)
    case Press => BeginSend(s)
    case Resolve(reply) => if s.isTyping then FinishSend(s, reply) else s
  }

  /** A sequence of events applied in order. */
  function Run(s: Session, events: seq<Event>): Session
    decreases |events|
  {
    if events == [] then s else Run(Step(s, events[0]), events[1..])
  }

  /** Every reachable session satisfies the invariant, whatever the events. */
  lemma {:induction false} RunPreservesValid(s: Session, events: seq<Event>)
    requires Valid(s)
    ensures Valid(Run(s, events))
    decreases |events|
  {
    if events != [] {
      RunPreservesValid(Step(s, events[0]), events[1..]);
    }
  }

  /**
   * Pressing send twice, with new text typed in between, before the reply
   * arrives: the second press is ignored, and the transcript gains exactly one
   * user message and one reply, both from the first press. The new text stays
   * in the text box.
   */
  lemma DoubleSendAppendsOnce(s: Session, next: string, reply: string)
    requires Valid(s) && CanSend(s)
    ensures var t := Run(s, [Press, Edit(next), Press, Resolve(reply)]);
            && t.messages == s.messages + [Message(FromUser, s.input), Message(FromBot, reply)]
            && t.input == next && !t.isTyping
  {
    var evs := [Press, Edit(next), Press, Resolve(reply)];
    var s1 := Step(s, Press);
    var s2 := Step(s1, Edit(next));
    var s3 := Step(s2, Press);
    var s4 := Step(s3, Resolve(reply));
    assert s2.isTyping && s3 == s2;
    assert s4.messages == s.messages + [Message(FromUser, s.input), Message(FromBot, reply)];
    assert evs[1..][1..][1..][1..] == [];
    assert Run(s, evs) == Run(s1, evs[1..]) == Run(s2, evs[1..][1..]) == Run(s3, evs[1..][1..][1..]) == s4;
  }

  /** One round of conversation: type a text, then press send and wait for the answer. */
  datatype Round = Round(text: string, attempts: Gemini.Outcomes)

  /** The session after the given rounds, each typed and sent in turn. */
  function Converse(s: Session, user: Option<User>, rounds: seq<Round>): Session
    decreases |rounds|
  {
    if rounds == [] then s
    else Converse(HandleSend(Type(s, rounds[0].text), user, rounds[0].attempts), user, rounds[1..])
  }

  /** How many of the rounds' texts are not blank, and so are accepted. */
  function Accepted(rounds: seq<Round>): nat {
    if rounds == [] then 0 else (if Trim(rounds[0].text) != "" then 1 else 0) + Accepted(rounds[1..])
  }

  /**
   * Starting from an idle session, every accepted round adds exactly two
   * messages and a rejected one adds none; the session ends idle and valid.
   */
  lemma {:induction false} ConverseLength(s: Session, user: Option<User>, rounds: seq<Round>)
    requires Valid(s) && !s.isTyping
    ensures |Converse(s, user, rounds).messages| == |s.messages| + 2 * Accepted(rounds)
    ensures Valid(Converse(s, user, rounds)) && !Converse(s, user, rounds).isTyping
    decreases |rounds|
  {
    if rounds != [] {
      var next := HandleSend(Type(s, rounds[0].text), user, rounds[0].attempts);
      ConverseLength(next, user, rounds[1..]);
    }
  }

  /** A freshly opened widget after k accepted questions holds 1 + 2k messages, so always an odd number. */
  lemma TranscriptLengthFromOpen(user: Option<User>, rounds: seq<Round>)
    ensures |Converse(Open(user), user, rounds).messages| == 1 + 2 * Accepted(rounds)
  {
    ConverseLength(Open(user), user, rounds);
  }
}
