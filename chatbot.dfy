/**
 * The example chatbot: a `ChatBot` object owning an in-memory transcript that
 * each turn extends with the user's message and the assistant's reply, and
 * that a reset cuts back to its leading system message; plus the interactive
 * loop that reads lines and dispatches them as commands or chat turns.
 *
 * Console input is a given sequence of lines and the completion endpoint a
 * given function, as in module Client.
 */
module Chatbot {
  import opened Wrappers
  import opened Client

  // ---------------------------------------------------------------------------
  // Transcript shape
  // ---------------------------------------------------------------------------

  /** The transcript without its leading system message, if it has one. */
  function Exchanges(h: seq<Message>): seq<Message> {
    if |h| > 0 && h[0].role == System then h[1..] else h
  }

  /**
   * The shape every ChatBot transcript keeps: an optional system message,
   * then (user, assistant) pairs in that order.
   */
  predicate WellFormed(h: seq<Message>) {
    var ex := Exchanges(h);
    |ex| % 2 == 0 &&
    forall i :: 0 <= i < |ex| ==> ex[i].role == (if i % 2 == 0 then User else Assistant)
  }

  /** One turn keeps the shape: a user message followed by an assistant message. */
  lemma WellFormedAfterPair(h: seq<Message>, u: string, r: string)
    requires WellFormed(h)
    ensures WellFormed(h + [Message(User, u), Message(Assistant, r)])
  {
    var pair := [Message(User, u), Message(Assistant, r)];
    var ex := Exchanges(h);
    if |h| > 0 && h[0].role == System {
      assert (h + pair)[1..] == ex + pair;
    } else {
      assert |h + pair| > 0 && (h + pair)[0].role != System;
    }
    assert Exchanges(h + pair) == ex + pair;
    forall i | 0 <= i < |ex + pair|
      ensures (ex + pair)[i].role == (if i % 2 == 0 then User else Assistant)
    {
      if i < |ex| {
        assert (ex + pair)[i] == ex[i];
      } else {
        assert (ex + pair)[i] == pair[i - |ex|];
      }
    }
  }

  /**
   * `reset_conversation`: keep only the leading system message, if there is
   * one. The result is the longest prefix of the transcript that has at most
   * one message and holds only system messages.
   */
  function ResetHistory(h: seq<Message>): (r: seq<Message>)
    ensures r <= h && |r| <= 1
    ensures forall i :: 0 <= i < |r| ==> r[i].role == System
    ensures r != [] <==> |h| > 0 && h[0].role == System
    ensures WellFormed(r)
  {
    if |h| > 0 && h[0].role == System then [h[0]] else []
  }

  /** Resetting twice is resetting once. */
  lemma ResetIdempotent(h: seq<Message>)
    ensures ResetHistory(ResetHistory(h)) == ResetHistory(h)
  {
  }

  // ---------------------------------------------------------------------------
  // Chat turns as values
  // ---------------------------------------------------------------------------

  /** The reply to user input `u` given transcript `h`: the backend sees `h` followed by the user message. */
  function TurnReply(cfg: Config, h: seq<Message>, u: string, backend: Request -> Reply): string {
    ChatCompletion(cfg, h + [Message(User, u)], NoOverrides, backend)
  }

  /** The transcript after one chat turn. */
  function AfterTurn(cfg: Config, h: seq<Message>, u: string, backend: Request -> Reply): seq<Message> {
    h + [Message(User, u), Message(Assistant, TurnReply(cfg, h, u, backend))]
  }

  /** The transcript after one chat turn per element of `us`, in order. */
  function AfterTurns(cfg: Config, h: seq<Message>, us: seq<string>, backend: Request -> Reply): seq<Message>
    decreases |us|
  {
    if us == [] then h else AfterTurns(cfg, AfterTurn(cfg, h, us[0], backend), us[1..], backend)
  }

  /**
   * After n turns the transcript has grown by exactly 2n messages, the old
   * transcript is untouched as a prefix, the k-th new user message holds the
   * k-th input, and the shape is kept.
   */
  lemma {:induction false} AfterTurnsShape(cfg: Config, h: seq<Message>, us: seq<string>, backend: Request -> Reply)
    decreases |us|
    ensures var h' := AfterTurns(cfg, h, us, backend);
      && |h'| == |h| + 2 * |us|
      && h <= h'
      && (forall k :: 0 <= k < |us| ==> h'[|h| + 2 * k] == Message(User, us[k]))
      && (forall k :: 0 <= k < |us| ==> h'[|h| + 2 * k + 1].role == Assistant)
      && (WellFormed(h) ==> WellFormed(h'))
  {
    if us != [] {
      var h1 := AfterTurn(cfg, h, us[0], backend);
      AfterTurnsShape(cfg, h1, us[1..], backend);
      if WellFormed(h) {
        WellFormedAfterPair(h, us[0], TurnReply(cfg, h, us[0], backend));
      }
      var h' := AfterTurns(cfg, h, us, backend);
      assert h' == AfterTurns(cfg, h1, us[1..], backend);
      forall k | 0 <= k < |us|
        ensures h'[|h| + 2 * k] == Message(User, us[k])
        ensures h'[|h| + 2 * k + 1].role == Assistant
      {
        if k > 0 {
          assert |h1| + 2 * (k - 1) == |h| + 2 * k;
          assert us[1..][k - 1] == us[k];
        }
      }
    }
  }

  // ---------------------------------------------------------------------------
  // The ChatBot object
  // ---------------------------------------------------------------------------

  class ChatBot {
    /** The client the bot talks through, fixed at construction. */
    const client: Config
    var history: seq<Message>

    predicate Valid()
      reads this
    {
      WellFormed(history)
    }

    /** A truthy system prompt seeds the transcript; None or "" leaves it empty. */
    constructor (systemPrompt: Option<string>, client: Config)
      ensures Valid()
      ensures this.client == client
      ensures Truthy(systemPrompt) ==> history == [Message(System, systemPrompt.value)]
      ensures !Truthy(systemPrompt) ==> history == []
    {
      this.client := client;
      if Truthy(systemPrompt) {
        history := [Message(System, systemPrompt.value)];
      } else {
        history := [];
      }
    }

    /**
     * One turn: the user message is appended, the whole transcript is sent,
     * and the reply is appended as an assistant message and returned.
     */
    method Chat(userInput: string, backend: Request -> Reply) returns (response: string)
      requires Valid()
      modifies this
      ensures Valid()
      ensures history == old(history) + [Message(User, userInput), Message(Assistant, response)]
      ensures response == TurnReply(client, old(history), userInput, backend)
    {
      history := history + [Message(User, userInput)];
      response := ChatCompletion(client, history, NoOverrides, backend);
      history := history + [Message(Assistant, response)];
      WellFormedAfterPair(old(history), userInput, response);
    }

    method ResetConversation()
      requires Valid()
      modifies this
      ensures Valid()
      ensures history == ResetHistory(old(history))
    {
      if |history| > 0 && history[0].role == System {
        history := [history[0]];
      } else {
        history := [];
      }
    }
  }

  /** The memory demo's system prompt and its three questions. */
  const MEMORY_PROMPT := "You are a helpful assistant with a good memory for details."
  const MEMORY_QUESTIONS := [
    "My name is Alice and I'm a software engineer.",
    "What's my profession again?",
    "What did I tell you about myself?"]

  /**
   * The memory demo: a bot with a system prompt chats three times. The k-th
   * call sends the first 1 + 2k messages plus the new user message (2, 4 and
   * 6 messages), and the transcript ends with 7 messages.
   */
  method ConversationMemoryExample(cfg: Config, backend: Request -> Reply) returns (responses: seq<string>, history: seq<Message>)
    ensures history == AfterTurns(cfg, [Message(System, MEMORY_PROMPT)], MEMORY_QUESTIONS, backend)
    ensures |history| == 7 && WellFormed(history)
    ensures |responses| == 3
    ensures forall k :: 0 <= k < 3 ==>
      && history[2 + 2 * k] == Message(Assistant, responses[k])
      && responses[k] == TurnReply(cfg, history[..1 + 2 * k], MEMORY_QUESTIONS[k], backend)
  {
    var bot := new ChatBot(Some(MEMORY_PROMPT), cfg);
    ghost var h0 := bot.history;
    var r1 := bot.Chat(MEMORY_QUESTIONS[0], backend);
    ghost var h1 := bot.history;
    var r2 := bot.Chat(MEMORY_QUESTIONS[1], backend);
    ghost var h2 := bot.history;
    var r3 := bot.Chat(MEMORY_QUESTIONS[2], backend);
    responses, history := [r1, r2, r3], bot.history;
    assert h1 == AfterTurn(cfg, h0, MEMORY_QUESTIONS[0], backend);
    assert h2 == AfterTurn(cfg, h1, MEMORY_QUESTIONS[1], backend);
    assert history == AfterTurn(cfg, h2, MEMORY_QUESTIONS[2], backend);
    assert MEMORY_QUESTIONS[1..][1..][1..] == [];
    assert history == AfterTurns(cfg, h0, MEMORY_QUESTIONS, backend);
    assert h0 <= h1 <= h2 <= history;
    assert history[..1] == h0 && history[..3] == h1 && history[..5] == h2;
    forall k | 0 <= k < 3
      ensures history[2 + 2 * k] == Message(Assistant, responses[k])
      ensures responses[k] == TurnReply(cfg, history[..1 + 2 * k], MEMORY_QUESTIONS[k], backend)
    {
      if k == 0 {
        assert responses[k] == r1;
      } else if k == 1 {
        assert responses[k] == r2;
      } else {
        assert responses[k] == r3;
      }
    }
  }

  // ---------------------------------------------------------------------------
  // Interactive loop: input classification
  // ---------------------------------------------------------------------------

  /** Python's `str.isspace` for one character. */
  predicate IsSpace(c: char) {
    var n := c as int;
    9 <= n <= 13 || 28 <= n <= 32 || n == 0x85 || n == 0xA0 || n == 0x1680 ||
    0x2000 <= n <= 0x200A || n == 0x2028 || n == 0x2029 || n == 0x202F || n == 0x205F || n == 0x3000
  }

  /** Leading whitespace removed. */
  function TrimStart(s: string): string {
    if |s| > 0 && IsSpace(s[0]) then TrimStart(s[1..]) else s
  }

  /** Trailing whitespace removed. */
  function TrimEnd(s: string): string {
    if |s| > 0 && IsSpace(s[|s| - 1]) then TrimEnd(s[..|s| - 1]) else s
  }


  /** TrimStart drops a whitespace-only prefix and stops at the first other character. */
  lemma {:induction false} TrimStartMeaning(s: string)
    ensures var r := TrimStart(s);
      && |r| <= |s| && r == s[|s| - |r|..]
      && (forall k :: 0 <= k < |s| - |r| ==> IsSpace(s[k]))
      && (r == [] || !IsSpace(r[0]))
  {
    if |s| > 0 && IsSpace(s[0]) {
      var r := TrimStart(s[1..]);
      TrimStartMeaning(s[1..]);
      assert TrimStart(s) == r;
      assert s[1..][|s| - 1 - |r|..] == s[|s| - |r|..];
      forall k | 0 < k < |s| - |r|
        ensures IsSpace(s[k])
      {
        assert s[k] == s[1..][k - 1];
      }
    }
  }

  /** TrimEnd drops a whitespace-only suffix and stops at the last other character. */
  lemma {:induction false} TrimEndMeaning(s: string)
    ensures var r := TrimEnd(s);
      && |r| <= |s| && r == s[..|r|]
      && (forall k :: |r| <= k < |s| ==> IsSpace(s[k]))
      && (r == [] || !IsSpace(r[|r| - 1]))
  {
    if |s| > 0 && IsSpace(s[|s| - 1]) {
      TrimEndMeaning(s[..|s| - 1]);
    }
  }

  /** `str.strip()`. */
  function Strip(s: string): string {
    TrimEnd(TrimStart(s))
  }

  /**
   * `str.strip()` gives a result that is empty exactly when the input is all
   * whitespace, and otherwise neither starts nor ends with whitespace.
   */
  lemma StripMeaning(s: string)
    ensures var r := Strip(s);
      && (r == [] <==> forall k :: 0 <= k < |s| ==> IsSpace(s[k]))
      && (r != [] ==> !IsSpace(r[0]) && !IsSpace(r[|r| - 1]))
      && |r| <= |s|
  {
    var t := TrimStart(s);
    TrimStartMeaning(s);
    TrimEndMeaning(t);
    var r := TrimEnd(t);
    assert r != [] ==> r[0] == t[0];
  }

  /** `str.lower()` on ASCII letters; every other character is left as it is. */
  function Lower(s: string): string {
    if s == [] then []
    else [if 'A' <= s[0] <= 'Z' then (s[0] as int - 'A' as int + 'a' as int) as char else s[0]] + Lower(s[1..])
  }

  /**
   * Lowering keeps the length, leaves no ASCII capital, turns each capital
   * into its small letter and leaves every other character as it is.
   */
  lemma {:induction false} LowerMeaning(s: string)
    ensures var r := Lower(s);
      && |r| == |s|
      && (forall k :: 0 <= k < |r| ==> !('A' <= r[k] <= 'Z'))
      && (forall k :: 0 <= k < |s| && 'A' <= s[k] <= 'Z' ==> r[k] as int == s[k] as int + 32)
      && (forall k :: 0 <= k < |s| && !('A' <= s[k] <= 'Z') ==> r[k] == s[k])
  {
    if s != [] {
      LowerMeaning(s[1..]);
    }
  }

  /** What one line typed at the prompt asks for. */
  datatype Command = Quit | Reset | Skip | Say(text: string)

  /**
   * The dispatch of the interactive loop: a line quits or resets exactly
   * when its stripped text is that word in any case, is skipped exactly when
   * it is all whitespace, and is otherwise sent as its non-empty stripped
   * text, with its case kept.
   */
  function Classify(line: string): (c: Command)
    ensures c == Quit <==> Lower(Strip(line)) == "quit"
    ensures c == Reset <==> Lower(Strip(line)) == "reset"
    ensures c == Skip <==> forall k :: 0 <= k < |line| ==> IsSpace(line[k])
    ensures c.Say? ==> c.text == Strip(line) && c.text != []
  {
    StripMeaning(line);
    var input := Strip(line);
    if Lower(input) == "quit" then Quit
    else if Lower(input) == "reset" then Reset
    else if input == [] then Skip
    else Say(input)
  }

  // ---------------------------------------------------------------------------
  // Interactive loop: the session
  // ---------------------------------------------------------------------------

  /**
   * What a chat turn of the interactive loop may carry: non-empty, not
   * "quit" or "reset" in any case, and neither starting nor ending with
   * whitespace.
   */
  predicate ChatInput(t: string) {
    t != [] && Lower(t) != "quit" && Lower(t) != "reset" && !IsSpace(t[0]) && !IsSpace(t[|t| - 1])
  }

  /** The user inputs the loop sends as chat turns, in order, up to the first "quit": at most one per line. */
  function SaidTurns(lines: seq<string>): (r: seq<string>)
    ensures |r| <= |lines|
  {
    if lines == [] then []
    else
      var c := Classify(lines[0]);
      if c == Quit then [] else (if c.Say? then [c.text] else []) + SaidTurns(lines[1..])
  }

  /** No chat turn ever carries a quit, reset or blank line, or surrounding whitespace. */
  lemma {:induction false} SaidTurnsAreChatInput(lines: seq<string>)
    ensures forall t :: t in SaidTurns(lines) ==> ChatInput(t)
  {
    if lines != [] {
      SaidTurnsAreChatInput(lines[1..]);
      var c := Classify(lines[0]);
      if c.Say? {
        StripMeaning(lines[0]);
        assert SaidTurns(lines) == [c.text] + SaidTurns(lines[1..]);
      }
    }
  }

  /** Nothing after a "quit" line is ever sent. */
  lemma {:induction false} NothingSentAfterQuit(lines: seq<string>, k: nat)
    requires k < |lines| && Classify(lines[k]) == Quit
    ensures SaidTurns(lines) == SaidTurns(lines[..k])
  {
    if k > 0 {
      NothingSentAfterQuit(lines[1..], k - 1);
      assert lines[..k][0] == lines[0] && lines[..k][1..] == lines[1..][..k - 1];
    }
  }

  /**
   * The transcript after the loop has handled `lines`, starting from `h`:
   * every transcript the loop goes through keeps the ChatBot shape.
   */
  function Session(cfg: Config, h: seq<Message>, lines: seq<string>, backend: Request -> Reply): (r: seq<Message>)
    ensures WellFormed(h) ==> WellFormed(r)
    decreases |lines|
  {
    if lines == [] then h
    else match Classify(lines[0])
      case Quit => h
      case Reset => Session(cfg, ResetHistory(h), lines[1..], backend)
      case Skip => Session(cfg, h, lines[1..], backend)
      case Say(t) =>
        var h' := AfterTurn(cfg, h, t, backend);
        assert WellFormed(h) ==> WellFormed(h') by {
          if WellFormed(h) {
            WellFormedAfterPair(h, t, TurnReply(cfg, h, t, backend));
          }
        }
        Session(cfg, h', lines[1..], backend)
  }

  /** The replies the loop prints while handling `lines`: exactly one per turn sent. */
  function SessionReplies(cfg: Config, h: seq<Message>, lines: seq<string>, backend: Request -> Reply): (rs: seq<string>)
    ensures |rs| == |SaidTurns(lines)|
    decreases |lines|
  {
    if lines == [] then []
    else match Classify(lines[0])
      case Quit => []
      case Reset => SessionReplies(cfg, ResetHistory(h), lines[1..], backend)
      case Skip => SessionReplies(cfg, h, lines[1..], backend)
      case Say(t) => [TurnReply(cfg, h, t, backend)] + SessionReplies(cfg, AfterTurn(cfg, h, t, backend), lines[1..], backend)
  }

  /** A "quit" line ends the session: nothing more is sent, printed or stored. */
  lemma QuitStep(cfg: Config, h: seq<Message>, lines: seq<string>, backend: Request -> Reply)
    requires lines != [] && Classify(lines[0]) == Quit
    ensures SaidTurns(lines) == [] && SessionReplies(cfg, h, lines, backend) == []
    ensures Session(cfg, h, lines, backend) == h
  {
  }

  /** A "reset" line resets the transcript and sends nothing. */
  lemma ResetStep(cfg: Config, h: seq<Message>, lines: seq<string>, backend: Request -> Reply)
    requires lines != [] && Classify(lines[0]) == Reset
    ensures Session(cfg, h, lines, backend) == Session(cfg, ResetHistory(h), lines[1..], backend)
    ensures SessionReplies(cfg, h, lines, backend) == SessionReplies(cfg, ResetHistory(h), lines[1..], backend)
    ensures SaidTurns(lines) == SaidTurns(lines[1..])
  {
  }

  /** A blank line changes nothing. */
  lemma SkipStep(cfg: Config, h: seq<Message>, lines: seq<string>, backend: Request -> Reply)
    requires lines != [] && Classify(lines[0]) == Skip
    ensures Session(cfg, h, lines, backend) == Session(cfg, h, lines[1..], backend)
    ensures SessionReplies(cfg, h, lines, backend) == SessionReplies(cfg, h, lines[1..], backend)
    ensures SaidTurns(lines) == SaidTurns(lines[1..])
  {
  }

  /** Any other line performs exactly one chat turn with its stripped text, whose reply is printed. */
  lemma SayStep(cfg: Config, h: seq<Message>, lines: seq<string>, backend: Request -> Reply)
    requires lines != [] && Classify(lines[0]).Say?
    ensures var t := Classify(lines[0]).text;
      var h' := AfterTurn(cfg, h, t, backend);
      && Session(cfg, h, lines, backend) == Session(cfg, h', lines[1..], backend)
      && SessionReplies(cfg, h, lines, backend) == [TurnReply(cfg, h, t, backend)] + SessionReplies(cfg, h', lines[1..], backend)
      && SaidTurns(lines) == [t] + SaidTurns(lines[1..])
  {
  }

  /**
   * Without a "reset" line, the session is just the chat turns it sends,
   * one after the other, on the starting transcript.
   */
  lemma {:induction false} SessionWithoutReset(cfg: Config, h: seq<Message>, lines: seq<string>, backend: Request -> Reply)
    requires forall k :: 0 <= k < |lines| ==> Classify(lines[k]) != Reset
    ensures Session(cfg, h, lines, backend) == AfterTurns(cfg, h, SaidTurns(lines), backend)
    decreases |lines|
  {
    if lines != [] {
      var c := Classify(lines[0]);
      var tail := lines[1..];
      forall k | 0 <= k < |tail|
        ensures Classify(tail[k]) != Reset
      {
        assert tail[k] == lines[k + 1];
      }
      if c == Quit {
        QuitStep(cfg, h, lines, backend);
      } else {
        if c == Skip {
          SkipStep(cfg, h, lines, backend);
          SessionWithoutReset(cfg, h, tail, backend);
        } else {
          assert c.Say?;
          SayStep(cfg, h, lines, backend);
          var rest := SaidTurns(tail);
          SessionWithoutReset(cfg, AfterTurn(cfg, h, c.text, backend), tail, backend);
          assert ([c.text] + rest)[1..] == rest;
        }
      }
    }
  }

  /**
   * What the interactive loop keeps after its first `i` lines, from the
   * starting transcript `h0`: the turns sent, the replies printed and the
   * current transcript `h` continue into those of the whole session.
   */
  ghost predicate SessionSoFar(cfg: Config, h0: seq<Message>, lines: seq<string>, backend: Request -> Reply,
                               i: nat, said: seq<string>, responses: seq<string>, h: seq<Message>)
  {
    && i <= |lines|
    && said + SaidTurns(lines[i..]) == SaidTurns(lines)
    && responses + SessionReplies(cfg, h, lines[i..], backend) == SessionReplies(cfg, h0, lines, backend)
    && Session(cfg, h, lines[i..], backend) == Session(cfg, h0, lines, backend)
  }

  lemma SessionSoFarStart(cfg: Config, h0: seq<Message>, lines: seq<string>, backend: Request -> Reply)
    ensures SessionSoFar(cfg, h0, lines, backend, 0, [], [], h0)
  {
    assert lines[0..] == lines;
  }

  /** Handling line `i` as the loop does keeps `SessionSoFar`, now for `i + 1` lines. */
  lemma SessionSoFarStep(cfg: Config, h0: seq<Message>, lines: seq<string>, backend: Request -> Reply,
                         i: nat, said: seq<string>, responses: seq<string>, h: seq<Message>)
    requires SessionSoFar(cfg, h0, lines, backend, i, said, responses, h)
    requires i < |lines| && Classify(lines[i]) != Quit
    ensures var c := Classify(lines[i]);
      && (c == Reset ==> SessionSoFar(cfg, h0, lines, backend, i + 1, said, responses, ResetHistory(h)))
      && (c == Skip ==> SessionSoFar(cfg, h0, lines, backend, i + 1, said, responses, h))
      && (c.Say? ==> SessionSoFar(cfg, h0, lines, backend, i + 1, said + [c.text],
                                  responses + [TurnReply(cfg, h, c.text, backend)], AfterTurn(cfg, h, c.text, backend)))
  {
    var rest := lines[i..];
    assert rest[0] == lines[i] && rest[1..] == lines[i + 1..];
    var c := Classify(lines[i]);
    if c == Reset {
      ResetStep(cfg, h, rest, backend);
    } else if c == Skip {
      SkipStep(cfg, h, rest, backend);
    } else {
      SayStep(cfg, h, rest, backend);
      var r := TurnReply(cfg, h, c.text, backend);
      var h' := AfterTurn(cfg, h, c.text, backend);
      assert (said + [c.text]) + SaidTurns(lines[i + 1..]) == said + ([c.text] + SaidTurns(lines[i + 1..]));
      assert (responses + [r]) + SessionReplies(cfg, h', lines[i + 1..], backend)
        == responses + ([r] + SessionReplies(cfg, h', lines[i + 1..], backend));
    }
  }

  /** When the loop stops, at the end of input or at "quit", it has done the whole session. */
  lemma SessionSoFarEnd(cfg: Config, h0: seq<Message>, lines: seq<string>, backend: Request -> Reply,
                        i: nat, said: seq<string>, responses: seq<string>, h: seq<Message>)
    requires SessionSoFar(cfg, h0, lines, backend, i, said, responses, h)
    requires i == |lines| || Classify(lines[i]) == Quit
    ensures said == SaidTurns(lines)
    ensures responses == SessionReplies(cfg, h0, lines, backend)
    ensures h == Session(cfg, h0, lines, backend)
  {
    var rest := lines[i..];
    if i < |lines| {
      assert rest[0] == lines[i];
      QuitStep(cfg, h, rest, backend);
    } else {
      assert rest == [];
    }
  }

  /** The interactive session's fixed system prompt. */
  const INTERACTIVE_PROMPT := "You are a helpful, friendly, and knowledgeable assistant. \n"
    + "    You should be conversational and engaging while providing accurate and useful information. \n"
    + "    Keep responses concise but informative."

  /**
   * The loop of `interactive_chat` on a bot in any valid state: lines are
   * handled one by one until "quit" or the end of input. It returns the
   * inputs it sent as chat turns and the replies it printed, each the one
   * stored in the transcript.
   */
  method RunSession(bot: ChatBot, lines: seq<string>, backend: Request -> Reply)
    returns (said: seq<string>, responses: seq<string>)
    requires bot.Valid()
    modifies bot
    ensures bot.Valid()
    ensures said == SaidTurns(lines)
    ensures responses == SessionReplies(bot.client, old(bot.history), lines, backend)
    ensures bot.history == Session(bot.client, old(bot.history), lines, backend)
  {
    ghost var h0 := bot.history;
    said, responses := [], [];
    var i := 0;
    SessionSoFarStart(bot.client, h0, lines, backend);
    while i < |lines|
      invariant bot.Valid()
      invariant SessionSoFar(bot.client, h0, lines, backend, i, said, responses, bot.history)
    {
      var command := Classify(lines[i]);
      if command == Quit {
        break;
      }
      ghost var before := bot.history;
      SessionSoFarStep(bot.client, h0, lines, backend, i, said, responses, before);
      if command == Reset {
        bot.ResetConversation();
        assert SessionSoFar(bot.client, h0, lines, backend, i + 1, said, responses, bot.history);
      } else if command.Say? {
        var response := bot.Chat(command.text, backend);
        assert bot.history == AfterTurn(bot.client, before, command.text, backend);
        said, responses := said + [command.text], responses + [response];
        assert SessionSoFar(bot.client, h0, lines, backend, i + 1, said, responses, bot.history);
      } else {
        assert SessionSoFar(bot.client, h0, lines, backend, i + 1, said, responses, bot.history);
      }
      i := i + 1;
    }
    SessionSoFarEnd(bot.client, h0, lines, backend, i, said, responses, bot.history);
  }

  /**
   * `interactive_chat`: a bot with the session prompt runs the loop. It
   * returns the inputs sent as chat turns, the replies printed, one per
   * turn, and the final transcript.
   */
  method InteractiveChat(cfg: Config, lines: seq<string>, backend: Request -> Reply)
    returns (said: seq<string>, responses: seq<string>, history: seq<Message>)
    ensures said == SaidTurns(lines)
    ensures history == Session(cfg, [Message(System, INTERACTIVE_PROMPT)], lines, backend)
    ensures responses == SessionReplies(cfg, [Message(System, INTERACTIVE_PROMPT)], lines, backend)
    ensures |responses| == |said| && WellFormed(history)
  {
    var bot := new ChatBot(Some(INTERACTIVE_PROMPT), cfg);
    said, responses := RunSession(bot, lines, backend);
    history := bot.history;
  }
}
