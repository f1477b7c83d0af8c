/**
 * The chat backend's admission control and bookkeeping (backend/server.py):
 * the API-key and per-IP rate-limit middleware, the global per-minute token
 * budget, the history window handed to the language model, the `/chat`
 * endpoint and the `/conversation/{id}` lookup. The module-level stores of
 * the source are the fields of one `Backend` object; the clock, uuid
 * generation and parsing, the input screen's patterns and the model call
 * arrive as an `Environment`.
 */
module Server {
  import opened Wrappers
  import Security

  const TokenBudgetPerMinute := 15_000
  const HistoryLimit := 20

  const BusyReply := "Service temporarily unavailable due to high demand. Please try again in a minute."
  const InvalidSessionDetail := "Invalid session ID format"
  const InvalidKeyDetail := "Invalid API key"
  const RateLimitedDetail := "Too many requests. Please try again later."

  function Min(a: int, b: int): int {
    if a < b then a else b
  }

  /** `m.get(key, [])` */
  function Lookup<V>(m: map<string, seq<V>>, key: string): seq<V> {
    if key in m then m[key] else []
  }

  // ---------------------------------------------------------------------------
  // Per-IP sliding window
  // ---------------------------------------------------------------------------

  /** The middleware's pruning of one IP's list: the timestamps still inside
      the window, in their original order. */
  function Recent(ts: seq<int>, now: int, window: int): (r: seq<int>)
    ensures |r| <= |ts|
    ensures forall t :: t in r <==> t in ts && now - t < window
    ensures forall t :: multiset(r)[t] == if now - t < window then multiset(ts)[t] else 0
    decreases |ts|
  {
    if ts == [] then []
    else
      var init, last := ts[..|ts| - 1], ts[|ts| - 1];
      assert ts == init + [last];
      assert multiset(ts) == multiset(init) + multiset{last};
      Recent(init, now, window) + (if now - last < window then [last] else [])
  }

  /**
   * One pass of the rate limiter over one IP's timestamps: prune, then admit
   * when fewer than `max` remain, recording `now`. The pruned list is stored
   * back whether or not the request is admitted.
   */
  function RateStep(ts: seq<int>, now: int, max: int, window: int): (r: (bool, seq<int>))
    ensures r.0 <==> |Recent(ts, now, window)| < max
    ensures r.1 == Recent(ts, now, window) + (if r.0 then [now] else [])
    ensures r.0 ==> |r.1| <= max
    ensures forall t :: t != now ==> multiset(r.1)[t] == if now - t < window then multiset(ts)[t] else 0
  {
    var kept := Recent(ts, now, window);
    if |kept| >= max then (false, kept) else (true, kept + [now])
  }

  /** The list comprehension of the middleware, as the loop it stands for. */
  method KeepRecent(ts: seq<int>, now: int, window: int) returns (kept: seq<int>)
    ensures kept == Recent(ts, now, window)
  {
    kept := [];
    var i := 0;
    while i < |ts|
      invariant 0 <= i <= |ts|
      invariant kept == Recent(ts[..i], now, window)
    {
      assert ts[..i + 1][..i] == ts[..i];
      if now - ts[i] < window {
        kept := kept + [ts[i]];
      }
      i := i + 1;
    }
    assert ts[..|ts|] == ts;
  }

  lemma {:induction false} RecentAppend(p: seq<int>, q: seq<int>, now: int, window: int)
    ensures Recent(p + q, now, window) == Recent(p, now, window) + Recent(q, now, window)
    decreases |q|
  {
    if q == [] {
      assert p + q == p;
    } else {
      var q' := q[..|q| - 1];
      assert (p + q)[..|p + q| - 1] == p + q';
      RecentAppend(p, q', now, window);
    }
  }

  /** Pruning at an earlier time and then at a later one is pruning at the later one. */
  lemma {:induction false} RecentTwice(ts: seq<int>, earlier: int, later: int, window: int)
    requires earlier <= later
    ensures Recent(Recent(ts, earlier, window), later, window) == Recent(ts, later, window)
    decreases |ts|
  {
    if ts != [] {
      var init, last := ts[..|ts| - 1], ts[|ts| - 1];
      var kept := if earlier - last < window then [last] else [];
      var keptLater := if later - last < window then [last] else [];
      assert Recent(ts, earlier, window) == Recent(init, earlier, window) + kept;
      assert Recent(ts, later, window) == Recent(init, later, window) + keptLater;
      RecentAppend(Recent(init, earlier, window), kept, later, window);
      RecentTwice(init, earlier, later, window);
      assert Recent(kept, later, window) == keptLater by {
        if kept != [] {
          assert kept[..0] == [];
        }
      }
    }
  }

  predicate NonDecreasing(times: seq<int>) {
    forall i, j :: 0 <= i <= j < |times| ==> times[i] <= times[j]
  }

  /**
   * The requests of one IP at the given times, replayed through the
   * middleware from an empty store: the stored list afterwards, and the
   * times of the requests that were admitted.
   */
  function Replay(times: seq<int>, max: int, window: int): (seq<int>, seq<int>)
    decreases |times|
  {
    if times == [] then ([], [])
    else
      var (store, admitted) := Replay(times[..|times| - 1], max, window);
      var now := times[|times| - 1];
      var (ok, after) := RateStep(store, now, max, window);
      (after, if ok then admitted + [now] else admitted)
  }

  /** From the last request on, the stored list and the admitted requests
      agree on which timestamps lie inside the window. */
  lemma {:induction false} ReplayTracksAdmitted(times: seq<int>, max: int, window: int, t: int)
    requires NonDecreasing(times)
    requires times != [] ==> times[|times| - 1] <= t
    ensures Recent(Replay(times, max, window).0, t, window) == Recent(Replay(times, max, window).1, t, window)
    decreases |times|
  {
    if times != [] {
      var init := times[..|times| - 1];
      var now := times[|times| - 1];
      var (store, admitted) := Replay(init, max, window);
      assert NonDecreasing(init);
      ReplayTracksAdmitted(init, max, window, now);
      ReplayTracksAdmitted(init, max, window, t);
      RecentTwice(store, now, t, window);
      var kept := Recent(store, now, window);
      if |kept| < max {
        RecentAppend(kept, [now], t, window);
        RecentAppend(admitted, [now], t, window);
      }
    }
  }

  /**
   * The sliding window is exact: a request is admitted precisely when fewer
   * than `max` earlier admitted requests of the same IP lie within `window`
   * of it (for a clock that never runs backwards).
   */
  lemma AdmitsExactlyUnderLimit(times: seq<int>, max: int, window: int)
    requires NonDecreasing(times) && times != []
    ensures var n := |times| - 1;
      var (store, admitted) := Replay(times[..n], max, window);
      RateStep(store, times[n], max, window).0 <==> |Recent(admitted, times[n], window)| < max
  {
    var n := |times| - 1;
    assert NonDecreasing(times[..n]);
    ReplayTracksAdmitted(times[..n], max, window, times[n]);
  }

  // ---------------------------------------------------------------------------
  // The history window handed to the model
  // ---------------------------------------------------------------------------

  /** A stored turn of a conversation, as saved by `/chat`. */
  datatype StoredTurn = StoredTurn(role: string, content: string, timestamp: string)

  /** A message in the model's format: `{"role": ..., "content": [{"text": ...}]}`. */
  datatype ModelMessage = ModelMessage(role: string, text: string)

  function ToModel(turn: StoredTurn): ModelMessage {
    ModelMessage(turn.role, turn.content)
  }

  /** The messages `call_bedrock` sends: the last (at most) 20 stored turns,
      then the new user message. */
  function ModelInput(conversation: seq<StoredTurn>, userMessage: string): seq<ModelMessage> {
    var window := conversation[|conversation| - Min(HistoryLimit, |conversation|)..];
    seq(|window|, i requires 0 <= i < |window| => ToModel(window[i])) + [ModelMessage("user", userMessage)]
  }

  /** What the model answers when handed the history window and the new message. */
  function ModelReply(history: seq<StoredTurn>, userMessage: string, env: Environment): Reply {
    env.converse(ModelInput(history, userMessage))
  }

  /** The loop of `call_bedrock` that builds the message list. */
  method BuildMessages(conversation: seq<StoredTurn>, userMessage: string) returns (messages: seq<ModelMessage>)
    ensures |messages| == Min(HistoryLimit, |conversation|) + 1 <= HistoryLimit + 1
    ensures forall i :: 0 <= i < |messages| - 1 ==>
              messages[i] == ToModel(conversation[|conversation| - (|messages| - 1) + i])
    ensures messages[|messages| - 1] == ModelMessage("user", userMessage)
    ensures messages == ModelInput(conversation, userMessage)
  {
    var window := conversation[|conversation| - Min(HistoryLimit, |conversation|)..];
    messages := [];
    for i := 0 to |window|
      invariant |messages| == i
      invariant forall j :: 0 <= j < i ==> messages[j] == ToModel(window[j])
    {
      messages := messages + [ToModel(window[i])];
    }
    messages := messages + [ModelMessage("user", userMessage)];
  }

  // ---------------------------------------------------------------------------
  // Requests, replies and the environment
  // ---------------------------------------------------------------------------

  /** What the middleware looks at: path, method, the `X-API-Key` header and the client host. */
  datatype HttpRequest = HttpRequest(path: string, verb: string, apiKeyHeader: Option<string>, clientHost: Option<string>)

  /** The middleware's decision: pass the request on, or answer with an error status. */
  datatype Gate = Forward | Refuse(status: int, detail: string)

  /** The body of a POST to `/chat`. */
  datatype ChatRequest = ChatRequest(message: string, sessionId: Option<string>)

  /** A `ChatResponse`, or the `HTTPException` raised instead. */
  datatype ChatResult = Answered(response: string, sessionId: string) | HttpError(status: int, detail: string)

  /** What the model call returns: the reply text and the tokens used, or the
      error that makes `/chat` answer 500. */
  datatype Reply = Replied(text: string, tokens: nat) | Failed(detail: string)

  datatype History = Found(sessionId: string, messages: seq<StoredTurn>) | NotFound(status: int, detail: string)

  /**
   * What one request sees of the outside world: a fresh uuid4, the minute
   * (`strftime("%Y-%m-%dT%H:%M")`) read by the budget check and the one read
   * again when the tokens are recorded after the model call, the two ISO
   * timestamps taken when turns are saved, whether a text parses as a uuid,
   * the injection-pattern matcher, and the model.
   */
  datatype Environment = Environment(
    freshId: string,
    minute: string,
    recordMinute: string,
    userStamp: string,
    replyStamp: string,
    isUuid: string -> bool,
    matches: Security.Matcher,
    converse: seq<ModelMessage> -> Reply)

  /** The root path, `/health` and CORS preflights skip both checks. */
  predicate Bypasses(req: HttpRequest) {
    req.path == "/" || req.path == "/health" || req.verb == "OPTIONS"
  }

  function ClientIp(req: HttpRequest): string {
    req.clientHost.GetOr("unknown")
  }

  /** `request.session_id`, with a missing id read as "" (both are falsy). */
  function SuppliedId(req: ChatRequest): string {
    req.sessionId.GetOr("")
  }

  /** The session a request that passed validation is served under. */
  function SessionOf(req: ChatRequest, env: Environment): string {
    if SuppliedId(req) != "" then SuppliedId(req) else env.freshId
  }

  /** The tokens counted for `current` once a change of minute has reset the count. */
  function Refreshed(minute: string, used: nat, current: string): nat {
    if minute != current then 0 else used
  }

  // ---------------------------------------------------------------------------
  // The server's state
  // ---------------------------------------------------------------------------

  class Backend {
    const apiKey: string
    const rateLimitMax: int
    const rateLimitWindow: int

    /** `rate_limit_store` */
    var rateStore: map<string, seq<int>>
    /** `_token_store["minute"]` and `_token_store["used"]` */
    var tokenMinute: string
    var tokenUsed: nat
    /** The conversation store (S3 objects or local files), keyed by session id. */
    var conversations: map<string, seq<StoredTurn>>

    function Cap(): nat {
      if rateLimitMax < 0 then 0 else rateLimitMax
    }

    /** No IP ever has more than `RATE_LIMIT_MAX` timestamps on record. */
    ghost predicate Valid()
      reads this
    {
      forall ip :: ip in rateStore ==> |rateStore[ip]| <= Cap()
    }

    /** A process start: the rate and token stores start empty, while the
        conversation store is whatever the bucket or directory already holds. */
    constructor (apiKey: string, rateLimitMax: int, rateLimitWindow: int, stored: map<string, seq<StoredTurn>>)
      ensures Valid()
      ensures this.apiKey == apiKey && this.rateLimitMax == rateLimitMax && this.rateLimitWindow == rateLimitWindow
      ensures rateStore == map[] && tokenMinute == "" && tokenUsed == 0 && conversations == stored
    {
      this.apiKey, this.rateLimitMax, this.rateLimitWindow := apiKey, rateLimitMax, rateLimitWindow;
      rateStore, tokenMinute, tokenUsed, conversations := map[], "", 0, stored;
    }

    /** `security_middleware`: bypass, API key, then the per-IP sliding window. */
    method SecurityMiddleware(req: HttpRequest, now: int) returns (gate: Gate)
      requires Valid()
      modifies this`rateStore
      ensures Valid()
      ensures Bypasses(req) ==> gate == Forward && rateStore == old(rateStore)
      ensures !Bypasses(req) && apiKey != "" && req.apiKeyHeader.GetOr("") != apiKey
              ==> gate == Refuse(403, InvalidKeyDetail) && rateStore == old(rateStore)
      ensures !Bypasses(req) && (apiKey == "" || req.apiKeyHeader.GetOr("") == apiKey) ==>
                var (ok, after) := RateStep(Lookup(old(rateStore), ClientIp(req)), now, rateLimitMax, rateLimitWindow);
                && rateStore == old(rateStore)[ClientIp(req) := after]
                && gate == if ok then Forward else Refuse(429, RateLimitedDetail)
    {
      if Bypasses(req) {
        return Forward;
      }
      if apiKey != "" {
        var provided := req.apiKeyHeader.GetOr("");
        if provided != apiKey {
          return Refuse(403, InvalidKeyDetail);
        }
      }
      var ip := ClientIp(req);
      var kept := KeepRecent(Lookup(rateStore, ip), now, rateLimitWindow);
      rateStore := rateStore[ip := kept];
      if |kept| >= rateLimitMax {
        return Refuse(429, RateLimitedDetail);
      }
      rateStore := rateStore[ip := kept + [now]];
      gate := Forward;
    }

    /** `_within_token_budget`: reset on a new minute, then compare. */
    method WithinTokenBudget(current: string) returns (ok: bool)
      modifies this`tokenMinute, this`tokenUsed
      ensures tokenMinute == current
      ensures tokenUsed == Refreshed(old(tokenMinute), old(tokenUsed), current)
      ensures ok <==> tokenUsed < TokenBudgetPerMinute
    {
      if tokenMinute != current {
        tokenMinute := current;
        tokenUsed := 0;
      }
      ok := tokenUsed < TokenBudgetPerMinute;
    }

    /** `_record_tokens`: reset on a new minute, then add. */
    method RecordTokens(current: string, tokens: nat)
      modifies this`tokenMinute, this`tokenUsed
      ensures tokenMinute == current
      ensures tokenUsed == Refreshed(old(tokenMinute), old(tokenUsed), current) + tokens
    {
      if tokenMinute != current {
        tokenMinute := current;
        tokenUsed := 0;
      }
      tokenUsed := tokenUsed + tokens;
    }

    /** `get_conversation`: refuse an id that is not a uuid, else the stored turns (none if unknown). */
    function GetConversation(sessionId: string, isUuid: string -> bool): (r: History)
      reads this
      ensures r.NotFound? <==> !isUuid(sessionId)
      ensures r.NotFound? ==> r.status == 400 && r.detail == InvalidSessionDetail
      ensures r.Found? ==> r.sessionId == sessionId && r.messages == Lookup(conversations, sessionId)
    {
      if !isUuid(sessionId) then NotFound(400, InvalidSessionDetail)
      else Found(sessionId, Lookup(conversations, sessionId))
    }

    /** The `/chat` endpoint. */
    method Chat(req: ChatRequest, env: Environment) returns (result: ChatResult)
      modifies this`tokenMinute, this`tokenUsed, this`conversations
      // A message the validator refuses is answered with its error text; the
      // supplied session id is passed back unchecked, or a fresh one is made.
      ensures !Security.Validate(req.message, env.matches).valid ==>
                && result == Answered(Security.Validate(req.message, env.matches).error, SessionOf(req, env))
                && unchanged(this)
      // A supplied session id that is not a uuid gives 400.
      ensures Security.Validate(req.message, env.matches).valid && SuppliedId(req) != "" && !env.isUuid(SuppliedId(req)) ==>
                result == HttpError(400, InvalidSessionDetail) && unchanged(this)
      ensures Security.Validate(req.message, env.matches).valid && (SuppliedId(req) == "" || env.isUuid(SuppliedId(req))) ==>
                Served(Refreshed(old(tokenMinute), old(tokenUsed), env.minute),
                       Lookup(old(conversations), SessionOf(req, env)), old(conversations),
                       SessionOf(req, env), Security.Validate(req.message, env.matches).sanitized, env, result)
    {
      var verdict := Security.Validate(req.message, env.matches);
      if !verdict.valid {
        return Answered(verdict.error, SessionOf(req, env));
      }

      var session: string;
      if SuppliedId(req) != "" {
        if !env.isUuid(SuppliedId(req)) {
          return HttpError(400, InvalidSessionDetail);
        }
        session := SuppliedId(req);
      } else {
        session := env.freshId;
      }
      result := Respond(session, verdict.sanitized, env);
    }

    /**
     * What `/chat` does for a valid message under an accepted session id, as
     * it leaves the state (see `Respond`). `used` is the token count after
     * the minute check, `history` the stored conversation.
     */
    ghost predicate Served(used: nat, history: seq<StoredTurn>, conversations0: map<string, seq<StoredTurn>>,
                           session: string, sanitized: string, env: Environment, result: ChatResult)
      reads this
    {
      && (used >= TokenBudgetPerMinute ==> BudgetRefused(used, conversations0, session, env.minute, result))
      && (used < TokenBudgetPerMinute ==> Answers(used, history, conversations0, session, sanitized, ModelReply(history, sanitized, env), env, result))
    }

    /** An exhausted budget: the fixed reply, no model call, nothing saved;
        the count is left as the budget check set it for `minute`. */
    ghost predicate BudgetRefused(used: nat, conversations0: map<string, seq<StoredTurn>>, session: string,
                                  minute: string, result: ChatResult)
      reads this
    {
      result == Answered(BusyReply, session) && tokenMinute == minute && tokenUsed == used && conversations == conversations0
    }

    /**
     * A failed model call: 500, no tokens recorded, nothing saved. A reply:
     * returned with the same session id, its tokens recorded against the
     * minute read after the call (a count from an earlier minute is reset
     * first), and the conversation grows by the user turn, then the
     * assistant turn.
     */
    ghost predicate Answers(used: nat, history: seq<StoredTurn>, conversations0: map<string, seq<StoredTurn>>,
                            session: string, sanitized: string, reply: Reply, env: Environment, result: ChatResult)
      reads this
    {
      match reply
      case Failed(detail) =>
        result == HttpError(500, detail) && tokenMinute == env.minute && tokenUsed == used
        && conversations == conversations0
      case Replied(text, tokens) =>
        && result == Answered(text, session)
        && tokenMinute == env.recordMinute
        && tokenUsed == Refreshed(env.minute, used, env.recordMinute) + tokens
        && tokenUsed < TokenBudgetPerMinute + tokens
        && conversations == conversations0[session := history
             + [StoredTurn("user", sanitized, env.userStamp), StoredTurn("assistant", text, env.replyStamp)]]
    }

    /** The part of `/chat` after the session id is settled: load, budget
        gate, model call, token bookkeeping, the two appended turns, save. */
    method Respond(session: string, sanitized: string, env: Environment) returns (result: ChatResult)
      modifies this`tokenMinute, this`tokenUsed, this`conversations
      ensures Served(Refreshed(old(tokenMinute), old(tokenUsed), env.minute), Lookup(old(conversations), session),
                     old(conversations), session, sanitized, env, result)
    {
      var conversation := Lookup(conversations, session);

      ghost var used := Refreshed(tokenMinute, tokenUsed, env.minute);
      var ok := WithinTokenBudget(env.minute);
      assert tokenUsed == used && conversations == old(conversations);
      if !ok {
        return Answered(BusyReply, session);
      }

      var messages := BuildMessages(conversation, sanitized);
      var reply := env.converse(messages);
      assert reply == ModelReply(conversation, sanitized, env);
      if reply.Failed? {
        return HttpError(500, reply.detail);
      }
      RecordTokens(env.recordMinute, reply.tokens);
      assert tokenUsed == Refreshed(env.minute, used, env.recordMinute) + reply.tokens;

      ghost var history := conversation;
      var userTurn := StoredTurn("user", sanitized, env.userStamp);
      var assistantTurn := StoredTurn("assistant", reply.text, env.replyStamp);
      conversation := conversation + [userTurn];
      conversation := conversation + [assistantTurn];
      assert conversation == history + [userTurn, assistantTurn];
      conversations := conversations[session := conversation];

      result := Answered(reply.text, session);
    }
  }
}
