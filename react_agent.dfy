/**
 * The hand-written ReAct agent: an `Agent` object that owns a role-tagged
 * transcript and asks a language-model backend for the next reply, the
 * action-line parser `^Action: (\w+): (.*)$` (multi-line mode), and the
 * automation loop `run_agent_loop` that dispatches parsed actions to a tool
 * registry and feeds each observation back to the agent.
 *
 * The backend (`Agent.execute`, a call to a hosted chat-completion API) is an
 * oracle: a fixed function from the transcript sent to the reply text.
 */
module ReactAgent {
  import opened Wrappers
  import opened Text

  datatype Role = System | User | Assistant

  /** One transcript entry, `{'role': ..., 'content': ...}`. */
  datatype Turn = Turn(role: Role, content: string)

  type Transcript = seq<Turn>

  /** The language model: the whole transcript in, the assistant's reply text out. */
  type Backend = Transcript -> string

  /** What `Agent.__init__` puts in the transcript: one system turn, if the system text is non-empty. */
  function Opening(system: string): (t: Transcript)
  {
    if system != "" then [Turn(System, system)] else []
  }

  /** Whole user/assistant exchanges: a user turn then an assistant turn, repeated. */
  ghost predicate Exchanges(t: Transcript)
    decreases |t|
  {
    t == [] || (|t| >= 2 && t[0].role == User && t[1].role == Assistant && Exchanges(t[2..]))
  }

  /** The shape of every agent transcript: the opening, then whole exchanges. */
  ghost predicate WellFormed(system: string, t: Transcript)
  {
    var n := |Opening(system)|;
    n <= |t| && t[..n] == Opening(system) && Exchanges(t[n..])
  }

  /** In whole exchanges, user turns sit at even offsets and assistant turns at odd ones. */
  lemma {:induction false} ExchangesRoles(t: Transcript)
    requires Exchanges(t)
    ensures |t| % 2 == 0
    ensures forall i :: 0 <= i < |t| ==> t[i].role == (if i % 2 == 0 then User else Assistant)
    decreases |t|
  {
    if t != [] {
      ExchangesRoles(t[2..]);
      forall i | 2 <= i < |t|
        ensures t[i].role == (if i % 2 == 0 then User else Assistant)
      {
        assert t[i] == t[2..][i - 2];
      }
    }
  }

  lemma {:induction false} ExchangesExtend(t: Transcript, prompt: string, reply: string)
    requires Exchanges(t)
    ensures Exchanges(t + [Turn(User, prompt), Turn(Assistant, reply)])
    decreases |t|
  {
    var exchange := [Turn(User, prompt), Turn(Assistant, reply)];
    if t == [] {
      assert (t + exchange)[2..] == [];
    } else {
      ExchangesExtend(t[2..], prompt, reply);
      assert (t + exchange)[2..] == t[2..] + exchange;
    }
  }

  /** A system turn, if any, is the first turn, holds the system text, and is there exactly when that text is non-empty. */
  lemma SystemTurnOnlyFirst(system: string, t: Transcript)
    requires WellFormed(system, t)
    ensures forall i :: 0 <= i < |t| && t[i].role == System ==> i == 0 && t[i].content == system
    ensures (|t| > 0 && t[0].role == System) <==> system != ""
  {
    var n := |Opening(system)|;
    ExchangesRoles(t[n..]);
    forall i | 0 <= i < |t| && t[i].role == System
      ensures i == 0 && t[i].content == system
    {
      if i < n {
        assert t[..n][i] == t[i];
      }
    }
    if system == "" && |t| > 0 {
      assert t[n..][0] == t[0];
    }
  }

  /** The `Agent` object: its system text, its backend and the transcript it appends to. */
  class Agent {
    const system: string
    const backend: Backend
    var messages: Transcript

    ghost predicate Valid()
      reads this
    {
      WellFormed(system, messages)
    }

    /** `Agent(system)`. */
    constructor (system: string, backend: Backend)
      ensures this.system == system && this.backend == backend
      ensures messages == Opening(system)
      ensures Valid()
    {
      this.system := system;
      this.backend := backend;
      messages := [];
      if system != "" {
        messages := messages + [Turn(System, system)];
      }
    }

    /** `agent(prompt)`: append the prompt, ask the backend with the whole transcript, append and return its reply. */
    method Call(prompt: string) returns (reply: string)
      requires Valid()
      modifies this
      ensures Valid()
      ensures reply == backend(old(messages) + [Turn(User, prompt)])
      ensures messages == old(messages) + [Turn(User, prompt), Turn(Assistant, reply)]
    {
      ghost var n := |Opening(system)|;
      ghost var before := messages;
      messages := messages + [Turn(User, prompt)];
      reply := backend(messages);
      messages := messages + [Turn(Assistant, reply)];
      assert messages == before + [Turn(User, prompt), Turn(Assistant, reply)];
      assert messages[..n] == before[..n];
      assert messages[n..] == before[n..] + [Turn(User, prompt), Turn(Assistant, reply)];
      ExchangesExtend(before[n..], prompt, reply);
    }
  }

  // ---------------------------------------------------------------------------
  // The action line: ^Action: (\w+): (.*)$ with re.MULTILINE

  /** `\w` on the characters modelled here: ASCII letters, digits and the underscore. */
  predicate IsWordChar(c: char)
  {
    'a' <= c <= 'z' || 'A' <= c <= 'Z' || '0' <= c <= '9' || c == '_'
  }

  predicate AllWord(s: string)
  {
    forall i :: 0 <= i < |s| ==> IsWordChar(s[i])
  }

  const ACTION_PREFIX := "Action: "
  const NAME_END := ": "

  /** A parsed directive: the tool name and its input. */
  datatype Directive = Directive(tool: string, input: string)

  /** The lines `^` and `$` delimit in multi-line mode: the text split at every '\n'. */
  function Lines(text: string): (lines: seq<string>)
    ensures |lines| >= 1
    ensures forall i :: 0 <= i < |lines| ==> '\n' !in lines[i]
  {
    Split(text, '\n')
  }

  /** The length of the longest run of word characters at the front of `s`. */
  function WordRun(s: string): (n: nat)
    ensures n <= |s| && AllWord(s[..n])
    ensures n < |s| ==> !IsWordChar(s[n])
  {
    if s != [] && IsWordChar(s[0]) then 1 + WordRun(s[1..]) else 0
  }

  /** `line` is "Action: " + name + ": " + raw, with `name` a non-empty run of word characters. */
  ghost predicate IsActionLine(line: string, name: string, raw: string)
  {
    line == ACTION_PREFIX + name + NAME_END + raw && name != [] && AllWord(name)
  }

  /** The pattern tried on one line: group 1 and the unstripped group 2 on a match. */
  function MatchLine(line: string): (r: Option<Directive>)
    ensures r.Some? ==> IsActionLine(line, r.value.tool, r.value.input)
  {
    if |line| < |ACTION_PREFIX| || line[..|ACTION_PREFIX|] != ACTION_PREFIX then None
    else
      var rest := line[|ACTION_PREFIX|..];
      var n := WordRun(rest);
      if n > 0 && n + |NAME_END| <= |rest| && rest[n..n + |NAME_END|] == NAME_END then
        assert line == ACTION_PREFIX + rest[..n] + NAME_END + rest[n + |NAME_END|..];
        Some(Directive(rest[..n], rest[n + |NAME_END|..]))
      else None
  }

  lemma {:induction false} WordRunOf(name: string, tail: string)
    requires AllWord(name)
    requires tail != [] && !IsWordChar(tail[0])
    ensures WordRun(name + tail) == |name|
  {
    if name == [] {
      assert name + tail == tail;
    } else {
      assert (name + tail)[1..] == name[1..] + tail;
      WordRunOf(name[1..], tail);
    }
  }

  /** Every action line matches, with the word run as tool name and the rest of the line as input. */
  lemma MatchLineComplete(line: string, name: string, raw: string)
    requires IsActionLine(line, name, raw)
    ensures MatchLine(line) == Some(Directive(name, raw))
  {
    var rest := name + NAME_END + raw;
    assert line == ACTION_PREFIX + rest;
    assert line[..|ACTION_PREFIX|] == ACTION_PREFIX;
    assert line[|ACTION_PREFIX|..] == rest;
    assert rest == name + (NAME_END + raw);
    WordRunOf(name, NAME_END + raw);
    assert rest[|name|..|name| + |NAME_END|] == NAME_END;
    assert rest[..|name|] == name;
    assert rest[|name| + |NAME_END|..] == raw;
  }

  /** A line matches exactly when it is an action line; the name and input are then determined. */
  lemma MatchLineIff(line: string, name: string, raw: string)
    ensures MatchLine(line) == Some(Directive(name, raw)) <==> IsActionLine(line, name, raw)
  {
    if IsActionLine(line, name, raw) {
      MatchLineComplete(line, name, raw);
    }
  }

  /** A line with nothing after the second colon ("Action: foo:") is not an action line. */
  lemma MissingSpaceIsNoAction()
    ensures MatchLine("Action: foo:") == None
  {
    var rest := "Action: foo:"[|ACTION_PREFIX|..];
    assert rest == "foo:";
    assert WordRun(rest) == 3 by {
      WordRunOf("foo", ":");
      assert "foo" + ":" == rest;
    }
  }

  /** Line `k` is the earliest line that matches. */
  ghost predicate FirstMatchAt(lines: seq<string>, k: nat)
  {
    k < |lines| && MatchLine(lines[k]).Some? && forall j :: 0 <= j < k ==> MatchLine(lines[j]).None?
  }

  /** The index of the earliest matching line, as `re.search` finds it. */
  function FirstActionLine(lines: seq<string>): (k: Option<nat>)
    ensures k.Some? ==> FirstMatchAt(lines, k.value)
    ensures k.None? ==> forall j :: 0 <= j < |lines| ==> MatchLine(lines[j]).None?
  {
    if lines == [] then None
    else if MatchLine(lines[0]).Some? then Some(0)
    else
      match FirstActionLine(lines[1..])
      case None => None
      case Some(k) => Some(k + 1)
  }

  /** `action_pattern.search(reply)`, then `group(1)` and `group(2).strip()`. */
  function ParseAction(reply: string): Option<Directive>
  {
    var lines := Lines(reply);
    match FirstActionLine(lines)
    case None => None
    case Some(k) =>
      var d := MatchLine(lines[k]).value;
      Some(Directive(d.tool, Strip(d.input)))
  }

  /**
   * A reply carries a directive exactly when one of its lines matches; the
   * directive is then the earliest matching line's tool name and stripped input.
   */
  lemma ParseActionSpec(reply: string)
    ensures ParseAction(reply).None? <==> forall j :: 0 <= j < |Lines(reply)| ==> MatchLine(Lines(reply)[j]).None?
    ensures ParseAction(reply).Some? ==>
              exists k: nat :: FirstMatchAt(Lines(reply), k)
                && ParseAction(reply).value.tool == MatchLine(Lines(reply)[k]).value.tool
                && ParseAction(reply).value.input == Strip(MatchLine(Lines(reply)[k]).value.input)
  {
  }

  /** The earliest action line wins: its tool name, and its input stripped, are the directive. */
  lemma ParseActionFirstLine(reply: string, k: nat, name: string, raw: string)
    requires k < |Lines(reply)| && IsActionLine(Lines(reply)[k], name, raw)
    requires forall j :: 0 <= j < k ==> MatchLine(Lines(reply)[j]).None?
    ensures ParseAction(reply) == Some(Directive(name, Strip(raw)))
  {
    var lines := Lines(reply);
    MatchLineComplete(lines[k], name, raw);
    var r := FirstActionLine(lines);
    assert r.Some? && r.value == k;
  }

  /** A reply that is one action line parses to that line's tool and stripped input. */
  lemma ParseActionSingleLine(name: string, raw: string)
    requires name != [] && AllWord(name) && '\n' !in raw
    ensures ParseAction(ACTION_PREFIX + name + NAME_END + raw) == Some(Directive(name, Strip(raw)))
  {
    var reply := ACTION_PREFIX + name + NAME_END + raw;
    assert '\n' !in reply by {
      assert forall i :: 0 <= i < |name| ==> reply[|ACTION_PREFIX| + i] == name[i];
    }
    assert Lines(reply) == [reply];
    ParseActionFirstLine(reply, 0, name, raw);
  }

  /** A reply in which no line starts with "Action: " carries no directive. */
  lemma NoActionPrefixNoAction(reply: string)
    requires forall j :: 0 <= j < |Lines(reply)| ==>
               |Lines(reply)[j]| < |ACTION_PREFIX| || Lines(reply)[j][..|ACTION_PREFIX|] != ACTION_PREFIX
    ensures ParseAction(reply) == None
  {
  }

  // ---------------------------------------------------------------------------
  // The automation loop

  /** The tool registry: tool name to tool function. */
  type Registry = map<string, string -> string>

  /** Reads the directive, if any, from a reply; the loop uses `ParseAction`. */
  type Parser = string -> Option<Directive>

  /** How a loop run ends: with a final answer, on an unknown tool, or out of iterations. */
  datatype Outcome = Answer(text: string) | UnknownTool(name: string) | Timeout {
    /** What `run_agent_loop` returns: the answer, or None. */
    function Result(): Option<string>
    {
      if Answer? then Some(text) else None
    }
  }

  const OBSERVATION_PREFIX := "Observation: "

  /**
   * A run of `run_agent_loop`: how it ended, the agent's transcript afterwards,
   * the inputs sent to the agent in order, and the directives dispatched in order.
   */
  datatype Run = Run(outcome: Outcome, transcript: Transcript, inputs: seq<string>, invoked: seq<Directive>) {
    /** What the caller can observe of a run: how it ended and the agent's transcript. */
    function Final(): (Outcome, Transcript)
    {
      (outcome, transcript)
    }
  }

  /** The reply the backend gives to `t` followed by the user turn `input`. */
  function ReplyTo(t: Transcript, input: string, backend: Backend): string
  {
    backend(t + [Turn(User, input)])
  }

  /**
   * The loop from transcript `t`, with next input `input` and `budget`
   * iterations left: the specification `RunAgentLoop` is proved against.
   */
  function Loop(t: Transcript, input: string, tools: Registry, backend: Backend, parse: Parser, budget: int): Run
    decreases budget
  {
    if budget <= 0 then Run(Timeout, t, [], [])
    else
      var sent := t + [Turn(User, input)];
      var reply := backend(sent);
      var after := sent + [Turn(Assistant, reply)];
      match parse(reply)
      case None => Run(Answer(reply), after, [input], [])
      case Some(d) =>
        if d.tool !in tools then Run(UnknownTool(d.tool), after, [input], [])
        else
          var rest := Loop(after, OBSERVATION_PREFIX + tools[d.tool](d.input), tools, backend, parse, budget - 1);
          Run(rest.outcome, rest.transcript, [input] + rest.inputs, [d] + rest.invoked)
  }

  /**
   * The agent is called at most `budget` times (never when `budget <= 0`), each
   * call adds one exchange to the transcript and keeps the turns before it, the
   * first input is the question, one tool runs per call except the last, and
   * the loop times out only after using its whole budget.
   */
  lemma {:induction false} LoopShape(t: Transcript, input: string, tools: Registry, backend: Backend, parse: Parser, budget: int)
    ensures var r := Loop(t, input, tools, backend, parse, budget);
            && |r.inputs| <= (if budget > 0 then budget else 0)
            && |r.transcript| == |t| + 2 * |r.inputs| && t <= r.transcript
            && (r.inputs != [] ==> r.inputs[0] == input)
            && |r.invoked| == (if r.outcome.Timeout? then |r.inputs| else |r.inputs| - 1)
            && (r.outcome.Timeout? ==> |r.inputs| == (if budget > 0 then budget else 0))
    decreases budget
  {
    if budget > 0 {
      var sent := t + [Turn(User, input)];
      var reply := backend(sent);
      var after := sent + [Turn(Assistant, reply)];
      match parse(reply)
      case None =>
      case Some(d) =>
        if d.tool in tools {
          LoopShape(after, OBSERVATION_PREFIX + tools[d.tool](d.input), tools, backend, parse, budget - 1);
        }
    }
  }

  /**
   * The k-th exchange of a run: the k-th input as a user turn, then the
   * backend's reply to everything before it as an assistant turn.
   */
  lemma {:induction false} LoopExchangeAt(t: Transcript, input: string, tools: Registry, backend: Backend, parse: Parser, budget: int, k: nat)
    requires k < |Loop(t, input, tools, backend, parse, budget).inputs|
    ensures var r := Loop(t, input, tools, backend, parse, budget);
            && |t| + 2 * k + 1 < |r.transcript|
            && r.transcript[|t| + 2 * k] == Turn(User, r.inputs[k])
            && r.transcript[|t| + 2 * k + 1] == Turn(Assistant, backend(r.transcript[..|t| + 2 * k + 1]))
    decreases budget
  {
    if k == 0 {
      LoopFirstExchange(t, input, tools, backend, parse, budget);
    } else {
      var after := t + [Turn(User, input), Turn(Assistant, ReplyTo(t, input, backend))];
      var d, next := LoopDispatch(t, input, tools, backend, parse, budget);
      LoopExchangeAt(after, next, tools, backend, parse, budget - 1, k - 1);
      assert |t| + 2 * k == |after| + 2 * (k - 1);
    }
  }

  /** The first exchange of a run with budget left: the input, then the reply to the transcript up to it. */
  lemma LoopFirstExchange(t: Transcript, input: string, tools: Registry, backend: Backend, parse: Parser, budget: int)
    requires budget > 0
    ensures var r := Loop(t, input, tools, backend, parse, budget);
            && |t| + 1 < |r.transcript|
            && r.inputs != [] && r.inputs[0] == input
            && r.transcript[|t|] == Turn(User, input)
            && r.transcript[|t| + 1] == Turn(Assistant, backend(r.transcript[..|t| + 1]))
  {
    var r := Loop(t, input, tools, backend, parse, budget);
    var sent := t + [Turn(User, input)];
    var after := sent + [Turn(Assistant, backend(sent))];
    LoopPrefix(t, input, tools, backend, parse, budget);
    assert after[..|t| + 1] == sent;
    assert r.transcript[..|t| + 1] == sent;
    assert r.transcript[|t| + 1] == after[|t| + 1];
  }

  lemma LoopPrefix(t: Transcript, input: string, tools: Registry, backend: Backend, parse: Parser, budget: int)
    requires budget > 0
    ensures t + [Turn(User, input), Turn(Assistant, ReplyTo(t, input, backend))]
            <= Loop(t, input, tools, backend, parse, budget).transcript
  {
    var after := t + [Turn(User, input), Turn(Assistant, ReplyTo(t, input, backend))];
    assert after == t + [Turn(User, input)] + [Turn(Assistant, ReplyTo(t, input, backend))];
    var reply := ReplyTo(t, input, backend);
    match parse(reply)
    case None =>
    case Some(d) =>
      if d.tool in tools {
        LoopShape(after, OBSERVATION_PREFIX + tools[d.tool](d.input), tools, backend, parse, budget - 1);
      }
  }

  /** The transcript a run leaves is the sequence of its exchanges, each reply computed from what precedes it. */
  lemma LoopTranscript(t: Transcript, input: string, tools: Registry, backend: Backend, parse: Parser, budget: int)
    ensures var r := Loop(t, input, tools, backend, parse, budget);
            forall k :: 0 <= k < |r.inputs| ==>
              && |t| + 2 * k + 1 < |r.transcript|
              && r.transcript[|t| + 2 * k] == Turn(User, r.inputs[k])
              && r.transcript[|t| + 2 * k + 1] == Turn(Assistant, backend(r.transcript[..|t| + 2 * k + 1]))
  {
    var r := Loop(t, input, tools, backend, parse, budget);
    forall k | 0 <= k < |r.inputs|
      ensures |t| + 2 * k + 1 < |r.transcript|
      ensures r.transcript[|t| + 2 * k] == Turn(User, r.inputs[k])
      ensures r.transcript[|t| + 2 * k + 1] == Turn(Assistant, backend(r.transcript[..|t| + 2 * k + 1]))
    {
      LoopExchangeAt(t, input, tools, backend, parse, budget, k);
    }
  }

  /** The k-th dispatched directive names a registered tool and is what the parser read from the k-th reply. */
  lemma {:induction false} LoopDirectiveAt(t: Transcript, input: string, tools: Registry, backend: Backend, parse: Parser, budget: int, k: nat)
    requires k < |Loop(t, input, tools, backend, parse, budget).invoked|
    ensures var r := Loop(t, input, tools, backend, parse, budget);
            && r.invoked[k].tool in tools
            && |t| + 2 * k + 1 < |r.transcript|
            && parse(r.transcript[|t| + 2 * k + 1].content) == Some(r.invoked[k])
    decreases budget
  {
    if k == 0 {
      LoopFirstDirective(t, input, tools, backend, parse, budget);
    } else {
      var after := t + [Turn(User, input), Turn(Assistant, ReplyTo(t, input, backend))];
      var d, next := LoopDispatch(t, input, tools, backend, parse, budget);
      LoopDirectiveAt(after, next, tools, backend, parse, budget - 1, k - 1);
      assert |t| + 2 * k + 1 == |after| + 2 * (k - 1) + 1;
    }
  }

  /** The first dispatch names a registered tool and is what the parser read from the first reply. */
  lemma LoopFirstDirective(t: Transcript, input: string, tools: Registry, backend: Backend, parse: Parser, budget: int)
    requires |Loop(t, input, tools, backend, parse, budget).invoked| > 0
    ensures var r := Loop(t, input, tools, backend, parse, budget);
            && r.invoked[0].tool in tools
            && |t| + 1 < |r.transcript|
            && parse(r.transcript[|t| + 1].content) == Some(r.invoked[0])
  {
    var after := t + [Turn(User, input), Turn(Assistant, ReplyTo(t, input, backend))];
    var d, next := LoopDispatch(t, input, tools, backend, parse, budget);
    LoopPrefix(t, input, tools, backend, parse, budget);
    assert after[|t| + 1].content == ReplyTo(t, input, backend);
  }

  /** After the k-th dispatch, the next input is "Observation: " followed by that tool's result on the directive's input. */
  lemma {:induction false} LoopObservationAt(t: Transcript, input: string, tools: Registry, backend: Backend, parse: Parser, budget: int, k: nat)
    requires k + 1 < |Loop(t, input, tools, backend, parse, budget).inputs|
    ensures var r := Loop(t, input, tools, backend, parse, budget);
            && k < |r.invoked| && r.invoked[k].tool in tools
            && r.inputs[k + 1] == OBSERVATION_PREFIX + tools[r.invoked[k].tool](r.invoked[k].input)
    decreases budget
  {
    var after := t + [Turn(User, input), Turn(Assistant, ReplyTo(t, input, backend))];
    var d, next := LoopDispatch(t, input, tools, backend, parse, budget);
    LoopShape(after, next, tools, backend, parse, budget - 1);
    if k > 0 {
      LoopObservationAt(after, next, tools, backend, parse, budget - 1, k - 1);
    }
  }

  /** A run that dispatched a tool: the first reply named a registered tool, and the run continues on its observation. */
  lemma LoopDispatch(t: Transcript, input: string, tools: Registry, backend: Backend, parse: Parser, budget: int)
    returns (d: Directive, next: string)
    requires var r := Loop(t, input, tools, backend, parse, budget); |r.invoked| > 0 || |r.inputs| > 1
    ensures budget > 0 && parse(ReplyTo(t, input, backend)) == Some(d) && d.tool in tools
    ensures next == OBSERVATION_PREFIX + tools[d.tool](d.input)
    ensures var r := Loop(t, input, tools, backend, parse, budget);
            var rest := Loop(t + [Turn(User, input), Turn(Assistant, ReplyTo(t, input, backend))], next, tools, backend, parse, budget - 1);
            r.transcript == rest.transcript && r.inputs == [input] + rest.inputs && r.invoked == [d] + rest.invoked
  {
    LoopShape(t, input, tools, backend, parse, budget);
    var reply := ReplyTo(t, input, backend);
    assert t + [Turn(User, input), Turn(Assistant, reply)] == t + [Turn(User, input)] + [Turn(Assistant, reply)];
    d := parse(reply).value;
    next := OBSERVATION_PREFIX + tools[d.tool](d.input);
  }

  /** Every dispatch is a registered tool read from its round's reply, and its result is the next input. */
  lemma LoopObservations(t: Transcript, input: string, tools: Registry, backend: Backend, parse: Parser, budget: int)
    ensures var r := Loop(t, input, tools, backend, parse, budget);
            forall k :: 0 <= k < |r.invoked| ==>
              && r.invoked[k].tool in tools
              && |t| + 2 * k + 1 < |r.transcript|
              && parse(r.transcript[|t| + 2 * k + 1].content) == Some(r.invoked[k])
              && (k + 1 < |r.inputs| ==>
                    r.inputs[k + 1] == OBSERVATION_PREFIX + tools[r.invoked[k].tool](r.invoked[k].input))
  {
    var r := Loop(t, input, tools, backend, parse, budget);
    forall k | 0 <= k < |r.invoked|
      ensures r.invoked[k].tool in tools
      ensures |t| + 2 * k + 1 < |r.transcript|
      ensures parse(r.transcript[|t| + 2 * k + 1].content) == Some(r.invoked[k])
      ensures k + 1 < |r.inputs| ==>
                r.inputs[k + 1] == OBSERVATION_PREFIX + tools[r.invoked[k].tool](r.invoked[k].input)
    {
      LoopDirectiveAt(t, input, tools, backend, parse, budget, k);
      if k + 1 < |r.inputs| {
        LoopObservationAt(t, input, tools, backend, parse, budget, k);
      }
    }
  }

  /** A run that ends with an answer returns the last reply unchanged, and that reply has no action line. */
  lemma {:induction false} LoopAnswerIsLastReply(t: Transcript, input: string, tools: Registry, backend: Backend, parse: Parser, budget: int)
    ensures var r := Loop(t, input, tools, backend, parse, budget);
            r.outcome.Answer? ==>
              && r.transcript != []
              && r.transcript[|r.transcript| - 1] == Turn(Assistant, r.outcome.text)
              && parse(r.outcome.text) == None
    decreases budget
  {
    if budget > 0 {
      var sent := t + [Turn(User, input)];
      var reply := backend(sent);
      var after := sent + [Turn(Assistant, reply)];
      match parse(reply)
      case None =>
      case Some(d) =>
        if d.tool in tools {
          LoopAnswerIsLastReply(after, OBSERVATION_PREFIX + tools[d.tool](d.input), tools, backend, parse, budget - 1);
        }
    }
  }

  /** A run that stops on an unknown tool stops on the last reply, whose directive names that tool. */
  lemma {:induction false} LoopUnknownToolIsLastReply(t: Transcript, input: string, tools: Registry, backend: Backend, parse: Parser, budget: int)
    ensures var r := Loop(t, input, tools, backend, parse, budget);
            r.outcome.UnknownTool? ==>
              && r.outcome.name !in tools
              && r.transcript != []
              && r.transcript[|r.transcript| - 1].role == Assistant
              && parse(r.transcript[|r.transcript| - 1].content).Some?
              && parse(r.transcript[|r.transcript| - 1].content).value.tool == r.outcome.name
    decreases budget
  {
    if budget > 0 {
      var sent := t + [Turn(User, input)];
      var reply := backend(sent);
      var after := sent + [Turn(Assistant, reply)];
      match parse(reply)
      case None =>
      case Some(d) =>
        if d.tool in tools {
          LoopUnknownToolIsLastReply(after, OBSERVATION_PREFIX + tools[d.tool](d.input), tools, backend, parse, budget - 1);
        }
    }
  }

  /** A first reply without an action line is the answer, after one call and no tool. */
  lemma LoopFirstReplyFinal(t: Transcript, input: string, tools: Registry, backend: Backend, parse: Parser, budget: int)
    requires budget > 0 && parse(ReplyTo(t, input, backend)).None?
    ensures var r := Loop(t, input, tools, backend, parse, budget);
            && r.Final() == (Answer(ReplyTo(t, input, backend)), t + [Turn(User, input), Turn(Assistant, ReplyTo(t, input, backend))])
            && r.inputs == [input] && r.invoked == []
  {
    assert t + [Turn(User, input), Turn(Assistant, ReplyTo(t, input, backend))]
        == t + [Turn(User, input)] + [Turn(Assistant, ReplyTo(t, input, backend))];
  }

  /** A first reply naming an unregistered tool stops the loop at once: one call, no tool run. */
  lemma LoopUnknownToolStops(t: Transcript, input: string, tools: Registry, backend: Backend, parse: Parser, budget: int)
    requires budget > 0
    requires var d := parse(ReplyTo(t, input, backend)); d.Some? && d.value.tool !in tools
    ensures var r := Loop(t, input, tools, backend, parse, budget);
            && r.Final() == (UnknownTool(parse(ReplyTo(t, input, backend)).value.tool),
                             t + [Turn(User, input), Turn(Assistant, ReplyTo(t, input, backend))])
            && r.outcome.Result() == None
            && r.inputs == [input] && r.invoked == []
  {
    assert t + [Turn(User, input), Turn(Assistant, ReplyTo(t, input, backend))]
        == t + [Turn(User, input)] + [Turn(Assistant, ReplyTo(t, input, backend))];
  }

  /** A reply naming a registered tool runs it and continues with its observation as the next input. */
  lemma LoopActs(t: Transcript, input: string, tools: Registry, backend: Backend, parse: Parser, budget: int)
    requires budget > 0
    requires var d := parse(ReplyTo(t, input, backend)); d.Some? && d.value.tool in tools
    ensures var reply := ReplyTo(t, input, backend);
            var d := parse(reply).value;
            var r := Loop(t, input, tools, backend, parse, budget);
            var rest := Loop(t + [Turn(User, input), Turn(Assistant, reply)], OBSERVATION_PREFIX + tools[d.tool](d.input), tools, backend, parse, budget - 1);
            r.Final() == rest.Final() && r.inputs == [input] + rest.inputs && r.invoked == [d] + rest.invoked
  {
    assert t + [Turn(User, input), Turn(Assistant, ReplyTo(t, input, backend))]
        == t + [Turn(User, input)] + [Turn(Assistant, ReplyTo(t, input, backend))];
  }

  /** Every reply the backend can give names a registered tool. */
  ghost predicate AlwaysActs(tools: Registry, backend: Backend, parse: Parser)
  {
    forall t :: parse(backend(t)).Some? && parse(backend(t)).value.tool in tools
  }

  /** With a backend that always acts, the loop uses its whole budget, one tool per call, and returns None. */
  lemma {:induction false} LoopTimeout(t: Transcript, input: string, tools: Registry, backend: Backend, parse: Parser, budget: int)
    requires AlwaysActs(tools, backend, parse)
    ensures var r := Loop(t, input, tools, backend, parse, budget);
            && r.outcome == Timeout && r.outcome.Result() == None
            && |r.inputs| == |r.invoked| == (if budget > 0 then budget else 0)
    decreases budget
  {
    if budget > 0 {
      var sent := t + [Turn(User, input)];
      var reply := backend(sent);
      var after := sent + [Turn(Assistant, reply)];
      var d := parse(reply).value;
      LoopTimeout(after, OBSERVATION_PREFIX + tools[d.tool](d.input), tools, backend, parse, budget - 1);
    }
  }

  /** `run_agent_loop(initial_question, agent, available_tools, max_iterations)`. */
  method RunAgentLoop(initialQuestion: string, agent: Agent, tools: Registry, maxIterations: int)
    returns (answer: Option<string>)
    requires agent.Valid()
    modifies agent
    ensures agent.Valid()
    ensures var run := Loop(old(agent.messages), initialQuestion, tools, agent.backend, ParseAction, maxIterations);
            answer == run.outcome.Result() && agent.messages == run.transcript
  {
    answer := Drive(initialQuestion, agent, tools, ParseAction, maxIterations);
  }

  /** How one iteration of `run_agent_loop` ends: returning from the loop, or continuing with the next input. */
  datatype Step = Stop(answer: Option<string>) | Continue(next: string)

  /**
   * The loop of `run_agent_loop` for any directive reader: one `Round` per
   * iteration until a round stops or the iterations run out.
   */
  method Drive(initialQuestion: string, agent: Agent, tools: Registry, parse: Parser, maxIterations: int)
    returns (answer: Option<string>)
    requires agent.Valid()
    modifies agent
    ensures agent.Valid()
    ensures var run := Loop(old(agent.messages), initialQuestion, tools, agent.backend, parse, maxIterations);
            answer == run.outcome.Result() && agent.messages == run.transcript
  {
    ghost var run := Loop(agent.messages, initialQuestion, tools, agent.backend, parse, maxIterations);
    var currentInput := initialQuestion;
    var iteration := 0;
    ghost var left := maxIterations;  // iterations still allowed
    while iteration < maxIterations
      invariant left == maxIterations - iteration
      invariant agent.Valid()
      invariant Loop(agent.messages, currentInput, tools, agent.backend, parse, left).Final() == run.Final()
    {
      iteration := iteration + 1;
      var step := Round(currentInput, agent, tools, parse, left);
      left := left - 1;
      if step.Stop? {
        return step.answer;
      }
      currentInput := step.next;
    }
    return None;
  }

  /**
   * One iteration of `run_agent_loop` with `budget` iterations left: ask the
   * agent, stop with the reply when it carries no directive, stop with None
   * on an unregistered tool, otherwise run the tool and continue with its
   * observation, as `Loop` prescribes.
   */
  method Round(input: string, agent: Agent, tools: Registry, parse: Parser, ghost budget: int) returns (step: Step)
    requires agent.Valid() && budget > 0
    modifies agent
    ensures agent.Valid()
    ensures var run := Loop(old(agent.messages), input, tools, agent.backend, parse, budget);
            match step
            case Stop(answer) => answer == run.outcome.Result() && agent.messages == run.transcript
            case Continue(next) => Loop(agent.messages, next, tools, agent.backend, parse, budget - 1).Final() == run.Final()
    ensures agent.messages == old(agent.messages) + [Turn(User, input), Turn(Assistant, ReplyTo(old(agent.messages), input, agent.backend))]
    ensures step.Continue? ==>
              var d := parse(ReplyTo(old(agent.messages), input, agent.backend));
              d.Some? && d.value.tool in tools && step.next == OBSERVATION_PREFIX + tools[d.value.tool](d.value.input)
  {
    ghost var before := agent.messages;
    var response := agent.Call(input);
    assert response == ReplyTo(before, input, agent.backend);
    var action := parse(response);
    if action.None? {
      LoopFirstReplyFinal(before, input, tools, agent.backend, parse, budget);
      return Stop(Some(response));
    }
    var toolName, toolInput := action.value.tool, action.value.input;
    if toolName !in tools {
      LoopUnknownToolStops(before, input, tools, agent.backend, parse, budget);
      return Stop(None);
    }
    LoopActs(before, input, tools, agent.backend, parse, budget);
    var toolResult := tools[toolName](toolInput);
    return Continue(OBSERVATION_PREFIX + toolResult);
  }
}
