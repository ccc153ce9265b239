/** The message-to-reply engine of app/bot.server.ts: command matching
    (`sendBotMessage`), the reply choice (`handleBotResponse`) and the AI
    reply cache (`getAiResponse`).

    The string-similarity score (`compareTwoStrings`) and the AI completion
    call (`askAI`) are supplied by the caller as functions; the command list
    is the list the data store returns, in that order. */
module BotEngine {
  import opened Wrappers
  import opened TextNormalize
  import Strings
  import Redis
  import Prompts

  /** The fields of a stored bot command that the engine reads. `output` and
      `promptAi` are nullable columns. */
  datatype BotCommand = BotCommand(
    id: string,
    inputs: seq<string>,
    output: Option<string>,
    enableAi: bool,
    promptAi: Option<string>)

  /** A similarity score between two strings. */
  type Similarity = (string, string) -> real

  /** The AI completion service, given the question and the user's message. */
  type AskAi = (string, string) -> string

  /** A word matches when its best score is strictly above this. */
  const MatchThreshold: real := 0.8

  /** TTL, in seconds, of a cached AI reply. */
  const CacheIntervalS: int := 60


  /** JavaScript's truthiness of a nullable string. */
  predicate Truthy(s: Option<string>)
  {
    s.Some? && |s.value| > 0
  }

  /** A nullable string interpolated into a template literal. */
  function Interpolate(s: Option<string>): string
  {
    match s
    case Some(v) => v
    case None => "null"
  }

  // ---- matching ----

  /** `Math.max(...scores)`, with `None` for the `-Infinity` of no scores. */
  function MaxScore(scores: seq<real>): (r: Option<real>)
    ensures r.None? <==> |scores| == 0
    ensures r.Some? ==> r.value in scores
    ensures r.Some? ==> forall k :: 0 <= k < |scores| ==> scores[k] <= r.value
    decreases |scores|
  {
    if |scores| == 0 then None
    else
      var rest := MaxScore(scores[1..]);
      match rest
      case None => Some(scores[0])
      case Some(m) => if scores[0] >= m then Some(scores[0]) else Some(m)
  }

  /** The scores of one message word against every normalised input. */
  function Scores(word: string, inputs: seq<string>, sim: Similarity): (r: seq<real>)
    ensures |r| == |inputs|
    ensures forall k :: 0 <= k < |r| ==> r[k] == sim(word, inputs[k])
  {
    seq(|inputs|, k requires 0 <= k < |inputs| => sim(word, inputs[k]))
  }

  /** `Math.max(...similarities) > 0.8`. */
  predicate WordMatches(word: string, inputs: seq<string>, sim: Similarity)
  {
    match MaxScore(Scores(word, inputs, sim))
    case None => false
    case Some(m) => m > MatchThreshold
  }

  /** `Array.prototype.map` over strings. */
  function MapStrings(f: string -> string, s: seq<string>): (r: seq<string>)
    ensures |r| == |s|
    decreases |s|
  {
    if |s| == 0 then [] else [f(s[0])] + MapStrings(f, s[1..])
  }

  lemma {:induction false} MapStringsAt(f: string -> string, s: seq<string>, k: nat)
    requires k < |s|
    ensures MapStrings(f, s)[k] == f(s[k])
    decreases |s|
  {
    if k > 0 { MapStringsAt(f, s[1..], k - 1); }
  }

  /** `botCommand.inputs.map(normalize)`. */
  function NormalizeAll(inputs: seq<string>): (r: seq<string>)
    ensures |r| == |inputs|
  {
    MapStrings(Normalize, inputs)
  }

  /** `words.some(word => ...)`. */
  predicate SomeWordMatches(words: seq<string>, inputs: seq<string>, sim: Similarity)
    decreases |words|
  {
    |words| > 0 && (WordMatches(words[0], inputs, sim) || SomeWordMatches(words[1..], inputs, sim))
  }

  /** The match test of `sendBotMessage`. */
  predicate CommandMatches(cmd: BotCommand, words: seq<string>, sim: Similarity)
  {
    SomeWordMatches(words, NormalizeAll(cmd.inputs), sim)
  }

  /** The words of a message: its normal form split on single spaces. */
  function MessageWords(message: string): (r: seq<string>)
    ensures |r| >= 1
  {
    Strings.Split(Normalize(message), ' ')
  }

  /** A best score above the threshold is the same as some score above it. */
  lemma {:induction false} MaxScoreAbove(scores: seq<real>, t: real)
    ensures (MaxScore(scores).Some? && MaxScore(scores).value > t)
        <==> exists k :: 0 <= k < |scores| && scores[k] > t
  {
    var r := MaxScore(scores);
    if r.Some? && r.value > t {
      var k :| 0 <= k < |scores| && scores[k] == r.value;
    }
  }

  lemma {:induction false} SomeWordMatchesIff(words: seq<string>, inputs: seq<string>, sim: Similarity)
    ensures SomeWordMatches(words, inputs, sim) <==> exists w :: 0 <= w < |words| && WordMatches(words[w], inputs, sim)
    decreases |words|
  {
    if |words| > 0 {
      SomeWordMatchesIff(words[1..], inputs, sim);
      if SomeWordMatches(words[1..], inputs, sim) {
        var w :| 0 <= w < |words[1..]| && WordMatches(words[1..][w], inputs, sim);
        assert WordMatches(words[w + 1], inputs, sim);
      }
      if exists w :: 0 <= w < |words| && WordMatches(words[w], inputs, sim) {
        var w :| 0 <= w < |words| && WordMatches(words[w], inputs, sim);
        if w > 0 { assert WordMatches(words[1..][w - 1], inputs, sim); }
      }
    }
  }

  /** A command matches exactly when some (word, normalised input) pair scores
      strictly above 0.8. */
  lemma CommandMatchesIff(cmd: BotCommand, words: seq<string>, sim: Similarity)
    ensures CommandMatches(cmd, words, sim)
        <==> exists w, j :: 0 <= w < |words| && 0 <= j < |cmd.inputs|
                            && sim(words[w], Normalize(cmd.inputs[j])) > MatchThreshold
  {
    var inputs := NormalizeAll(cmd.inputs);
    SomeWordMatchesIff(words, inputs, sim);
    forall j | 0 <= j < |cmd.inputs| ensures inputs[j] == Normalize(cmd.inputs[j]) {
      MapStringsAt(Normalize, cmd.inputs, j);
    }
    forall w | 0 <= w < |words|
      ensures WordMatches(words[w], inputs, sim)
          <==> exists j :: 0 <= j < |cmd.inputs| && sim(words[w], Normalize(cmd.inputs[j])) > MatchThreshold
    {
      WordMatchesIff(words[w], inputs, sim);
    }
  }

  /** A word matches exactly when it scores strictly above 0.8 against some
      input. */
  lemma WordMatchesIff(word: string, inputs: seq<string>, sim: Similarity)
    ensures WordMatches(word, inputs, sim)
        <==> exists j :: 0 <= j < |inputs| && sim(word, inputs[j]) > MatchThreshold
  {
    var scores := Scores(word, inputs, sim);
    MaxScoreAbove(scores, MatchThreshold);
    assert forall j :: 0 <= j < |inputs| ==> scores[j] == sim(word, inputs[j]);
  }

  /** A command without inputs never matches: the maximum of no scores is
      `-Infinity`. */
  lemma EmptyInputsNeverMatch(cmd: BotCommand, words: seq<string>, sim: Similarity)
    requires |cmd.inputs| == 0
    ensures !CommandMatches(cmd, words, sim)
  {
    CommandMatchesIff(cmd, words, sim);
  }

  /** The threshold is strict: a best score of exactly 0.8 does not match,
      0.81 does. */
  lemma ThresholdIsStrict(word: string, input: string)
    ensures !WordMatches(word, [input], (a: string, b: string) => 0.8)
    ensures WordMatches(word, [input], (a: string, b: string) => 0.81)
  {
    assert Scores(word, [input], (a: string, b: string) => 0.8) == [0.8];
    assert Scores(word, [input], (a: string, b: string) => 0.81) == [0.81];
  }

  /** The first item satisfying `m`, in order: the shape of a `for ... of`
      loop that returns on the first hit. */
  method FirstMatch<T>(items: seq<T>, m: T -> bool) returns (found: Option<nat>)
    ensures found.Some? ==> found.value < |items| && m(items[found.value])
    ensures found.Some? ==> forall j :: 0 <= j < found.value ==> !m(items[j])
    ensures found.None? ==> forall j :: 0 <= j < |items| ==> !m(items[j])
  {
    var i := 0;
    while i < |items|
      invariant 0 <= i <= |items|
      invariant forall j :: 0 <= j < i ==> !m(items[j])
    {
      if m(items[i]) {
        return Some(i);
      }
      i := i + 1;
    }
    return None;
  }

  /** The `for ... of` loop of `sendBotMessage`: the commands are examined in
      the order given and the loop stops at the first that matches. */
  method FindCommand(commands: seq<BotCommand>, words: seq<string>, sim: Similarity)
    returns (found: Option<nat>)
    ensures found.Some? ==> found.value < |commands| && CommandMatches(commands[found.value], words, sim)
    ensures found.Some? ==> forall j :: 0 <= j < found.value ==> !CommandMatches(commands[j], words, sim)
    ensures found.None? ==> forall j :: 0 <= j < |commands| ==> !CommandMatches(commands[j], words, sim)
  {
    found := FirstMatch(commands, (cmd: BotCommand) => CommandMatches(cmd, words, sim));
  }

  // ---- replies ----

  /** The prompt `handleBotResponse` passes to `getAiResponse`. */
  function AiPrompt(cmd: BotCommand): string
  {
    if Truthy(cmd.promptAi) then cmd.promptAi.value + " " + Interpolate(cmd.output)
    else Interpolate(cmd.output)
  }

  /** `cache:ai-response:<sessionId>:<commandId>`: neither the prompt nor the
      message is part of the key. */
  function CacheKey(sessionId: string, commandId: string): string
  {
    "cache:ai-response:" + sessionId + ":" + commandId
  }

  /** The cached reply that `getAiResponse` accepts: a stored non-empty
      string. */
  function CachedReply(data: map<string, Redis.Entry>, key: string): Option<string>
  {
    if key in data && |data[key].value| > 0 then Some(data[key].value) else None
  }

  /** `getAiResponse`: a read-through cache in front of the AI service. A hit
      returns the stored text without asking; a miss asks, and stores a
      non-empty answer for 60 seconds. */
  method GetAiResponse(store: Redis.Store, sessionId: string, commandId: string,
                       prompt: string, message: string, ask: AskAi)
    returns (response: string, asked: bool)
    modifies store
    ensures var key := CacheKey(sessionId, commandId);
      match CachedReply(old(store.data), key)
      case Some(v) =>
        response == v && !asked && store.data == old(store.data)
      case None =>
        && asked
        && response == ask(Prompts.SystemPrompt + " " + prompt, message)
        && store.data == if |response| > 0
                         then old(store.data)[key := Redis.Entry(response, Some(CacheIntervalS))]
                         else old(store.data)
  {
    var key := CacheKey(sessionId, commandId);
    var cached := store.Get(key);
    if cached.Some? && |cached.value| > 0 {
      return cached.value, false;
    }
    response := ask(Prompts.SystemPrompt + " " + prompt, message);
    asked := true;
    if |response| > 0 {
      store.SetEx(key, response, CacheIntervalS);
    }
  }

  /** What replying for `cmd` does, from the store contents `before` to
      `after`: at most one send. With AI enabled a cached non-empty reply
      is sent without asking; on a miss the service is asked, and a
      non-empty answer is sent and cached for 60 seconds, an empty one
      neither. Without AI nothing is asked or stored, and the static output
      is sent when it is non-empty. */
  predicate RepliedFor(before: map<string, Redis.Entry>, after: map<string, Redis.Entry>,
                       sessionId: string, message: string, cmd: BotCommand, ask: AskAi,
                       sent: seq<string>, asked: bool)
  {
    && |sent| <= 1
    && (!cmd.enableAi ==>
          && !asked && after == before
          && sent == if Truthy(cmd.output) then [cmd.output.value] else [])
    && (cmd.enableAi ==>
          var key := CacheKey(sessionId, cmd.id);
          match CachedReply(before, key)
          case Some(v) => !asked && sent == [v] && after == before
          case None =>
            var a := ask(Prompts.SystemPrompt + " " + AiPrompt(cmd), message);
            && asked
            && sent == (if |a| > 0 then [a] else [])
            && after == if |a| > 0
                        then before[key := Redis.Entry(a, Some(CacheIntervalS))]
                        else before)
  }

  /** `handleBotResponse`: the reply for `cmd`, as `RepliedFor` describes. */
  method HandleBotResponse(store: Redis.Store, sessionId: string, message: string,
                           cmd: BotCommand, ask: AskAi)
    returns (sent: seq<string>, asked: bool)
    modifies store
    ensures |sent| <= 1
    ensures RepliedFor(old(store.data), store.data, sessionId, message, cmd, ask, sent, asked)
  {
    sent, asked := [], false;
    if cmd.enableAi {
      var response;
      response, asked := GetAiResponse(store, sessionId, cmd.id, AiPrompt(cmd), message, ask);
      if |response| > 0 {
        sent := [response];
      }
      return;
    }
    if Truthy(cmd.output) {
      sent := [cmd.output.value];
    }
  }

  /** `sendBotMessage`: normalise and split the message, find the first
      matching command, and reply for it alone. */
  method SendBotMessage(store: Redis.Store, sessionId: string, message: string,
                        commands: seq<BotCommand>, sim: Similarity, ask: AskAi)
    returns (handled: Option<nat>, sent: seq<string>, asked: bool)
    modifies store
    ensures |sent| <= 1
    ensures handled.Some? ==>
      && handled.value < |commands|
      && CommandMatches(commands[handled.value], MessageWords(message), sim)
      && forall j :: 0 <= j < handled.value ==> !CommandMatches(commands[j], MessageWords(message), sim)
    ensures handled.None? ==>
      && (forall j :: 0 <= j < |commands| ==> !CommandMatches(commands[j], MessageWords(message), sim))
      && sent == [] && !asked && store.data == old(store.data)
    ensures asked ==> handled.Some? && commands[handled.value].enableAi
    ensures handled.Some? ==>
      RepliedFor(old(store.data), store.data, sessionId, message, commands[handled.value], ask, sent, asked)
  {
    var words := Strings.Split(Normalize(message), ' ');
    handled := FindCommand(commands, words, sim);
    sent, asked := [], false;
    if handled.Some? {
      sent, asked := HandleBotResponse(store, sessionId, message, commands[handled.value], ask);
    }
  }

  /** A message that matches the first command, a static one with a
      non-empty output, is answered with that output alone: the AI service
      is not asked and the cache is not touched. */
  method StaticReplyIsSent(store: Redis.Store, sessionId: string, message: string,
                           commands: seq<BotCommand>, sim: Similarity, ask: AskAi)
    returns (handled: Option<nat>, sent: seq<string>, asked: bool)
    requires |commands| > 0
    requires CommandMatches(commands[0], MessageWords(message), sim)
    requires !commands[0].enableAi && Truthy(commands[0].output)
    modifies store
    ensures handled == Some(0)
    ensures sent == [commands[0].output.value] && !asked
    ensures store.data == old(store.data)
  {
    handled, sent, asked := SendBotMessage(store, sessionId, message, commands, sim, ask);
  }

  /** Two AI requests for the same session and command, with nothing expiring
      in between, ask the service once; the second returns the first reply
      even for another prompt and message. */
  method CachedReplyIsReused(store: Redis.Store, sessionId: string, commandId: string,
                             prompt1: string, message1: string,
                             prompt2: string, message2: string, ask: AskAi)
    returns (r1: string, r2: string, asked1: bool, asked2: bool)
    modifies store
    ensures |r1| > 0 ==> r2 == r1 && !asked2
    ensures !asked1 ==> r2 == r1 && !asked2
  {
    r1, asked1 := GetAiResponse(store, sessionId, commandId, prompt1, message1, ask);
    r2, asked2 := GetAiResponse(store, sessionId, commandId, prompt2, message2, ask);
  }
}
