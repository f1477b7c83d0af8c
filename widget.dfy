/**
 * The chat widget's session manager (frontend/components/twin.tsx,
 * `sendMessage`). Four state cells: the transcript, the text in the input
 * box, a busy flag and the session id handed out by the server ("" until one
 * is adopted). One submission is split in two steps: `Begin` (the guard, the
 * optimistic user turn and the outgoing request) and `Complete` (the reply or
 * the apology, session adoption, clearing the busy flag). The network call
 * between them is abstracted into an `Outcome`.
 */
module Widget {
  import opened Wrappers

  const ErrorReply := "Sorry, I encountered an error. Please try again."
  const DefaultApiUrl := "http://localhost:8000"

  /** ECMAScript WhiteSpace and LineTerminator characters: what `String.prototype.trim` removes. */
  predicate IsJsWhitespace(c: char) {
    ('\t' <= c <= '\r') || c == ' ' || c == '\U{A0}' || c == '\U{1680}'
    || ('\U{2000}' <= c <= '\U{200A}') || c == '\U{2028}' || c == '\U{2029}'
    || c == '\U{202F}' || c == '\U{205F}' || c == '\U{3000}' || c == '\U{FEFF}'
  }

  /** `!s.trim()`: the text is empty or whitespace only. */
  predicate IsBlank(s: string) {
    forall i :: 0 <= i < |s| ==> IsJsWhitespace(s[i])
  }

  datatype Role = User | Assistant

  /** The `Message` record. `id` is the millisecond clock reading that the
      source turns into a decimal string; `timestamp` stands for `new Date()`. */
  datatype Message = Message(id: int, role: Role, content: string, timestamp: int)

  /** Deployment configuration: `NEXT_PUBLIC_API_URL` and `NEXT_PUBLIC_API_KEY`, "" when unset. */
  datatype Config = Config(apiUrl: string, apiKey: string)

  /** One POST to the chat endpoint: its URL, the optional `X-API-Key` header
      and the JSON body `{message, session_id}` (`None` for `undefined`). */
  datatype Request = Request(url: string, apiKey: Option<string>, message: string, sessionId: Option<string>)

  /**
   * How the awaited part of `sendMessage` ended: a parsed body with its
   * `response` and `session_id` fields, or a failure (a status that is not
   * ok, a fetch that throws, a body that is not JSON, or a body that parses
   * to `null`, whose field reads throw).
   */
  datatype Outcome = Replied(response: string, sessionId: string) | Failed

  /** The widget's four state cells. */
  datatype State = State(messages: seq<Message>, input: string, isLoading: bool, sessionId: string)

  /** Roles alternate user, assistant, user, ...; an odd-length transcript
      (its last turn a user turn) exactly while a request is in flight. */
  predicate Alternating(messages: seq<Message>, busy: bool) {
    && |messages| % 2 == (if busy then 1 else 0)
    && forall i :: 0 <= i < |messages| ==> messages[i].role == if i % 2 == 0 then User else Assistant
  }

  /** The chat URL: the configured base URL, or the local default when none is set, then `/chat`. */
  function Endpoint(config: Config): (url: string)
    ensures |url| >= 5 && url[|url| - 5..] == "/chat"
    ensures url[..|url| - 5] == if config.apiUrl == "" then DefaultApiUrl else config.apiUrl
  {
    var base := if config.apiUrl == "" then DefaultApiUrl else config.apiUrl;
    assert (base + "/chat")[..|base|] == base;
    base + "/chat"
  }

  /** The request built from the user message and the session id held. */
  function RequestFor(config: Config, content: string, sessionId: string): (r: Request)
    ensures r.sessionId.Some? <==> sessionId != ""
    ensures r.sessionId.Some? ==> r.sessionId.value == sessionId
    ensures r.apiKey.Some? <==> config.apiKey != ""
    ensures r.apiKey.Some? ==> r.apiKey.value == config.apiKey
  {
    Request(Endpoint(config), if config.apiKey == "" then None else Some(config.apiKey),
            content, if sessionId == "" then None else Some(sessionId))
  }

  /** The input box's `onChange`: the input is disabled while a request is
      in flight, so typing then changes nothing. */
  function Typed(s: State, text: string): State {
    if s.isLoading then s else s.(input := text)
  }

  /** What `sendMessage` does up to the `await fetch`: the new state and the
      request it sends, if any. */
  function Submit(s: State, config: Config, now: int): (State, Option<Request>) {
    if IsBlank(s.input) || s.isLoading then (s, None)
    else
      var userMessage := Message(now, User, s.input, now);
      (s.(messages := s.messages + [userMessage], input := "", isLoading := true),
       Some(RequestFor(config, userMessage.content, s.sessionId)))
  }

  /** What `sendMessage` does after the fetch settles, through its `finally`. */
  function Settle(s: State, outcome: Outcome, now: int): State {
    match outcome
    case Replied(response, sid) =>
      s.(sessionId := if s.sessionId == "" then sid else s.sessionId,
         messages := s.messages + [Message(now + 1, Assistant, response, now)],
         isLoading := false)
    case Failed =>
      s.(messages := s.messages + [Message(now + 1, Assistant, ErrorReply, now)],
         isLoading := false)
  }

  class ChatWidget {
    const config: Config
    var messages: seq<Message>
    var input: string
    var isLoading: bool
    var sessionId: string

    function Snapshot(): State
      reads this
    {
      State(messages, input, isLoading, sessionId)
    }

    ghost predicate Valid()
      reads this
    {
      Alternating(messages, isLoading)
    }

    constructor (config: Config)
      ensures Valid() && this.config == config
      ensures Snapshot() == State([], "", false, "")
    {
      this.config := config;
      messages, input, isLoading, sessionId := [], "", false, "";
    }

    /** The input box's `onChange`, which the disabled input blocks while busy. */
    method Type(text: string)
      modifies this`input
      ensures Snapshot() == Typed(old(Snapshot()), text)
    {
      if !isLoading {
        input := text;
      }
    }

    /** `sendMessage` up to the fetch: refuse blank input and a second
        submission while busy; otherwise append the user turn holding the raw
        input, clear the input, set busy and return the request to send. */
    method Begin(now: int) returns (request: Option<Request>)
      requires Valid()
      modifies this`messages, this`input, this`isLoading
      ensures Valid()
      ensures (Snapshot(), request) == Submit(old(Snapshot()), config, now)
    {
      if IsBlank(input) || isLoading {
        return None;
      }
      var userMessage := Message(now, User, input, now);
      messages := messages + [userMessage];
      input := "";
      isLoading := true;
      request := Some(RequestFor(config, userMessage.content, sessionId));
    }

    /** `sendMessage` after the fetch: adopt the session id if none is held,
        append the reply or the apology, clear busy. */
    method Complete(outcome: Outcome, now: int)
      requires Valid() && isLoading
      modifies this`messages, this`isLoading, this`sessionId
      ensures Valid()
      ensures Snapshot() == Settle(old(Snapshot()), outcome, now)
    {
      match outcome {
        case Replied(response, sid) =>
          if sessionId == "" {
            sessionId := sid;
          }
          messages := messages + [Message(now + 1, Assistant, response, now)];
        case Failed =>
          messages := messages + [Message(now + 1, Assistant, ErrorReply, now)];
      }
      isLoading := false;
    }
  }

  // ---------------------------------------------------------------------------
  // One step at a time
  // ---------------------------------------------------------------------------

  /** Blank input or a request in flight: nothing changes and nothing is sent. */
  lemma SubmitRefused(s: State, config: Config, now: int)
    requires IsBlank(s.input) || s.isLoading
    ensures Submit(s, config, now) == (s, None)
  {
  }

  /** An accepted submission appends exactly one user turn holding the raw
      input, keeps the earlier turns, clears the input, sets busy, keeps the
      session id, and sends that turn's content with the session id held. */
  lemma SubmitAccepted(s: State, config: Config, now: int)
    requires !IsBlank(s.input) && !s.isLoading
    ensures var (t, request) := Submit(s, config, now);
      && |t.messages| == |s.messages| + 1
      && t.messages[..|s.messages|] == s.messages
      && t.messages[|s.messages|].role == User
      && t.messages[|s.messages|].content == s.input
      && t.input == "" && t.isLoading && t.sessionId == s.sessionId
      && request.Some?
      && request.value.message == t.messages[|s.messages|].content
      && (request.value.sessionId.Some? <==> s.sessionId != "")
      && (request.value.sessionId.Some? ==> request.value.sessionId.value == s.sessionId)
      && (request.value.apiKey.Some? <==> config.apiKey != "")
  {
  }

  /** Every completion appends exactly one assistant turn and clears busy;
      a failure appends the fixed apology, a reply appends its text. */
  lemma SettleAppendsOneAssistantTurn(s: State, outcome: Outcome, now: int)
    ensures var t := Settle(s, outcome, now);
      && |t.messages| == |s.messages| + 1
      && t.messages[..|s.messages|] == s.messages
      && t.messages[|s.messages|].role == Assistant
      && t.messages[|s.messages|].content == (if outcome.Failed? then ErrorReply else outcome.response)
      && !t.isLoading && t.input == s.input
  {
  }

  /** The session id is taken from a reply only while none is held; once held
      it is never replaced, and a failure never changes it. */
  lemma SettleAdoptsSessionOnce(s: State, outcome: Outcome, now: int)
    ensures s.sessionId != "" ==> Settle(s, outcome, now).sessionId == s.sessionId
    ensures s.sessionId == "" && outcome.Replied? ==> Settle(s, outcome, now).sessionId == outcome.sessionId
    ensures outcome.Failed? ==> Settle(s, outcome, now).sessionId == s.sessionId
  {
  }

  // ---------------------------------------------------------------------------
  // Whole conversations
  // ---------------------------------------------------------------------------

  /** One user action: type `typed`, press send at `sentAt`; if that was
      accepted, the fetch ends with `outcome` at `settledAt`. */
  datatype Round = Round(typed: string, sentAt: int, outcome: Outcome, settledAt: int)

  function Step(s: State, config: Config, round: Round): State {
    var (t, request) := Submit(Typed(s, round.typed), config, round.sentAt);
    if request.Some? then Settle(t, round.outcome, round.settledAt) else t
  }

  function Play(s: State, config: Config, rounds: seq<Round>): State
    decreases |rounds|
  {
    if rounds == [] then s else Play(Step(s, config, rounds[0]), config, rounds[1..])
  }

  /** The number of rounds whose typed text is not blank. */
  function Accepted(rounds: seq<Round>): nat {
    if rounds == [] then 0 else (if IsBlank(rounds[0].typed) then 0 else 1) + Accepted(rounds[1..])
  }

  /** Starting idle, each round whose text is not blank adds exactly two turns
      (user, then assistant) and a blank round adds none; earlier turns are
      never changed, and the widget is idle again afterwards. */
  lemma {:induction false} PlayGrowsByTwoPerSubmission(s: State, config: Config, rounds: seq<Round>)
    requires !s.isLoading
    ensures var t := Play(s, config, rounds);
      && |t.messages| == |s.messages| + 2 * Accepted(rounds)
      && t.messages[..|s.messages|] == s.messages
      && !t.isLoading
    decreases |rounds|
  {
    if rounds != [] {
      var u := Step(s, config, rounds[0]);
      assert |u.messages| == |s.messages| + 2 * (if IsBlank(rounds[0].typed) then 0 else 1);
      assert u.messages[..|s.messages|] == s.messages;
      PlayGrowsByTwoPerSubmission(u, config, rounds[1..]);
      var t := Play(u, config, rounds[1..]);
      assert t.messages[..|s.messages|] == t.messages[..|u.messages|][..|s.messages|];
    }
  }

  /** Turns keep alternating user, assistant across any number of rounds:
      the user turn of a submission always comes right before its assistant
      turn, and both before the next submission's. */
  lemma {:induction false} PlayKeepsAlternation(s: State, config: Config, rounds: seq<Round>)
    requires !s.isLoading && Alternating(s.messages, false)
    ensures Alternating(Play(s, config, rounds).messages, false)
    decreases |rounds|
  {
    if rounds != [] {
      var u := Step(s, config, rounds[0]);
      assert Alternating(u.messages, false);
      PlayKeepsAlternation(u, config, rounds[1..]);
    }
  }

  /** Once a session id is held, no later round changes it. */
  lemma {:induction false} PlayKeepsSession(s: State, config: Config, rounds: seq<Round>)
    requires s.sessionId != ""
    ensures Play(s, config, rounds).sessionId == s.sessionId
    decreases |rounds|
  {
    if rounds != [] {
      PlayKeepsSession(Step(s, config, rounds[0]), config, rounds[1..]);
    }
  }
}
