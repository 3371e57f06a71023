/**
 * The reflection graph: a generator node writes (or revises) a post from the
 * message history, a critique node reviews it after swapping the roles of the
 * history (the generator's own posts are shown to the critic as if a person
 * wrote them, and the requests as if the critic wrote them), and a length
 * rule decides when to stop.
 *
 * Both chat models are oracles: fixed functions from the prompt (the chain's
 * system instruction followed by the messages) to the reply text. Node updates
 * are appended to the message list, as the `add_messages` reducer on the
 * state's `messages` channel does for messages without ids.
 */
module Reflection {
  import opened Wrappers

  /** A chat message: its `type` tag ("ai", "human", "system", ...) and its text. */
  datatype Message = Message(kind: string, content: string)

  const AI := "ai"
  const HUMAN := "human"
  const SYSTEM := "system"

  /** `cls_map`: the message type each translatable type becomes. */
  const CLS_MAP: map<string, string> := map[AI := HUMAN, HUMAN := AI]

  /** The system instructions of the two chains. */
  const GENERATION_INSTRUCTIONS := "Write a compelling LinkedIn post. Be specific. Use concrete details. Show impact."
  const CRITIQUE_INSTRUCTIONS := "Review the LinkedIn post. Identify what makes it weak. Point out missing details, unclear sections, and areas lacking specificity."

  /** A chat model behind a chain: the full prompt in, the reply text out. */
  type ChatModel = seq<Message> -> string

  /** The prompt a chain sends: its system instruction, then the messages placeholder. */
  function Prompt(instructions: string, msgs: seq<Message>): seq<Message>
  {
    [Message(SYSTEM, instructions)] + msgs
  }

  // ---------------------------------------------------------------------------
  // The role swap in critique_node

  /** `[cls_map[m.type](content=m.content) for m in msgs]`: None when some type has no entry. */
  function SwapRoles(msgs: seq<Message>): Option<seq<Message>>
  {
    if msgs == [] then Some([])
    else if msgs[0].kind !in CLS_MAP then None
    else
      match SwapRoles(msgs[1..])
      case None => None
      case Some(rest) => Some([Message(CLS_MAP[msgs[0].kind], msgs[0].content)] + rest)
  }

  /** `[msgs[0]] + [... for m in msgs[1:]]`: None when the list is empty or the swap fails. */
  function Translate(msgs: seq<Message>): Option<seq<Message>>
  {
    if msgs == [] then None
    else
      match SwapRoles(msgs[1..])
      case None => None
      case Some(rest) => Some([msgs[0]] + rest)
  }

  /** Every message is "ai" or "human". */
  ghost predicate Swappable(msgs: seq<Message>)
  {
    forall i :: 0 <= i < |msgs| ==> msgs[i].kind in CLS_MAP
  }

  /** The swap succeeds exactly on lists of ai and human messages, flipping each type and keeping each content. */
  lemma {:induction false} SwapRolesSpec(msgs: seq<Message>)
    ensures SwapRoles(msgs).Some? <==> Swappable(msgs)
    ensures SwapRoles(msgs).Some? ==>
              var r := SwapRoles(msgs).value;
              && |r| == |msgs|
              && forall i :: 0 <= i < |msgs| ==>
                   r[i] == Message(if msgs[i].kind == AI then HUMAN else AI, msgs[i].content)
  {
    if msgs != [] {
      SwapRolesSpec(msgs[1..]);
      if msgs[0].kind in CLS_MAP && SwapRoles(msgs[1..]).Some? {
        var r := SwapRoles(msgs).value;
        forall i | 1 <= i < |msgs|
          ensures r[i] == Message(if msgs[i].kind == AI then HUMAN else AI, msgs[i].content)
        {
          assert msgs[1..][i - 1] == msgs[i];
        }
      }
      if !Swappable(msgs[1..]) {
        var i :| 0 <= i < |msgs[1..]| && msgs[1..][i].kind !in CLS_MAP;
        assert msgs[i + 1].kind !in CLS_MAP;
      }
      if Swappable(msgs) {
        assert forall i :: 0 <= i < |msgs[1..]| ==> msgs[1..][i] == msgs[i + 1];
      }
    }
  }

  /**
   * The translation succeeds exactly when the list is non-empty and every
   * message after the first is "ai" or "human"; it then has the same length,
   * keeps the first message as it is, and flips the type of every later one
   * while keeping its content and position.
   */
  lemma TranslateSpec(msgs: seq<Message>)
    ensures Translate(msgs).Some? <==> msgs != [] && Swappable(msgs[1..])
    ensures Translate(msgs).Some? ==>
              var r := Translate(msgs).value;
              && |r| == |msgs| && r[0] == msgs[0]
              && forall i :: 1 <= i < |msgs| ==>
                   r[i] == Message(if msgs[i].kind == AI then HUMAN else AI, msgs[i].content)
  {
    if msgs != [] {
      SwapRolesSpec(msgs[1..]);
      if Translate(msgs).Some? {
        var r := Translate(msgs).value;
        forall i | 1 <= i < |msgs|
          ensures r[i] == Message(if msgs[i].kind == AI then HUMAN else AI, msgs[i].content)
        {
          assert msgs[1..][i - 1] == msgs[i];
        }
      }
    }
  }

  /** Swapping twice gives back the original list, since `cls_map` maps each of the two types to the other. */
  lemma {:induction false} SwapRolesInvolution(msgs: seq<Message>)
    requires SwapRoles(msgs).Some?
    ensures SwapRoles(SwapRoles(msgs).value) == Some(msgs)
  {
    if msgs != [] {
      SwapRolesInvolution(msgs[1..]);
      var r := SwapRoles(msgs).value;
      assert r[1..] == SwapRoles(msgs[1..]).value;
      assert [msgs[0]] + msgs[1..] == msgs;
    }
  }

  /** Translating a translation restores the original messages, types included. */
  lemma TranslateInvolution(msgs: seq<Message>)
    requires Translate(msgs).Some?
    ensures Translate(Translate(msgs).value) == Some(msgs)
  {
    var r := Translate(msgs).value;
    SwapRolesInvolution(msgs[1..]);
    assert r[1..] == SwapRoles(msgs[1..]).value;
    assert [msgs[0]] + msgs[1..] == msgs;
  }

  /** A system message after the first position makes the translation fail (`KeyError` in the source). */
  lemma TranslateRejectsSystem(msgs: seq<Message>, i: nat)
    requires 1 <= i < |msgs| && msgs[i].kind == SYSTEM
    ensures Translate(msgs) == None
  {
    TranslateSpec(msgs);
    assert msgs[1..][i - 1] == msgs[i];
  }

  /** The empty history cannot be translated (`msgs[0]` raises `IndexError`). */
  lemma TranslateRejectsEmpty()
    ensures Translate([]) == None
  {
  }

  // ---------------------------------------------------------------------------
  // The two nodes and the stop rule

  /** `generation_node`: the update is exactly one AI message, the generator's reply to the history. */
  function GenerationNode(msgs: seq<Message>, generator: ChatModel): (update: seq<Message>)
    ensures |update| == 1 && update[0].kind == AI
  {
    [Message(AI, generator(Prompt(GENERATION_INSTRUCTIONS, msgs)))]
  }

  /**
   * `critique_node`: the update is exactly one human message carrying the
   * critic's reply to the role-swapped history; None when the swap fails.
   */
  function CritiqueNode(msgs: seq<Message>, critic: ChatModel): (update: Option<seq<Message>>)
    ensures update.Some? <==> Translate(msgs).Some?
    ensures update.Some? ==> |update.value| == 1 && update.value[0].kind == HUMAN
  {
    match Translate(msgs)
    case None => None
    case Some(translated) => Some([Message(HUMAN, critic(Prompt(CRITIQUE_INSTRUCTIONS, translated)))])
  }

  const MAX_ITERATIONS := 3

  /** The graph's nodes. */
  datatype Node = Generate | Critique

  /** Where an edge leads: to a node, or to END. */
  datatype Target = Goto(node: Node) | End

  /** `should_continue`. */
  function ShouldContinue(msgs: seq<Message>): (t: Target)
    ensures t == End <==> |msgs| > MAX_ITERATIONS
    ensures t != End ==> t == Goto(Critique)
  {
    if |msgs| > MAX_ITERATIONS then End else Goto(Critique)
  }

  /** The edges leaving each node: the conditional edge after generate, the fixed edge critique to generate. */
  function Next(node: Node, msgs: seq<Message>): Target
  {
    match node
    case Generate => ShouldContinue(msgs)
    case Critique => Goto(Generate)
  }

  const ENTRY := Generate

  // ---------------------------------------------------------------------------
  // Running the graph

  /** How a run ended: the final messages, the nodes in the order they ran, and whether a node failed. */
  datatype Run = Run(messages: seq<Message>, trace: seq<Node>, failed: bool)

  /** Room left before the stop rule must fire. */
  function Headroom(msgs: seq<Message>): nat
  {
    if |msgs| > MAX_ITERATIONS then 0 else MAX_ITERATIONS + 1 - |msgs|
  }

  function Rank(node: Node): nat
  {
    if node == Generate then 0 else 1
  }

  /** Run `node` on `msgs`, append its update, and follow the edges until END or a failure. */
  function Execute(node: Node, msgs: seq<Message>, generator: ChatModel, critic: ChatModel): Run
    decreases Headroom(msgs), Rank(node)
  {
    var update := if node == Generate then Some(GenerationNode(msgs, generator)) else CritiqueNode(msgs, critic);
    match update
    case None => Run(msgs, [node], true)
    case Some(u) =>
      var after := msgs + u;
      match Next(node, after)
      case End => Run(after, [node], false)
      case Goto(n) =>
        var rest := Execute(n, after, generator, critic);
        Run(rest.messages, [node] + rest.trace, rest.failed)
  }

  /** `graph.stream(inputs)`: run from the entry node. */
  function Stream(inputs: seq<Message>, generator: ChatModel, critic: ChatModel): Run
  {
    Execute(ENTRY, inputs, generator, critic)
  }

  /** How many times generate runs when the graph starts from `n` messages and nothing fails. */
  function Generations(n: nat): nat
  {
    if n > MAX_ITERATIONS then 1 else (MAX_ITERATIONS + 1 - n) / 2 + 1
  }

  /** Generate and critique alternate, starting and ending with generate. */
  ghost predicate Alternates(trace: seq<Node>)
  {
    |trace| % 2 == 1 && forall i :: 0 <= i < |trace| ==> trace[i] == (if i % 2 == 0 then Generate else Critique)
  }

  /** The appended messages alternate AI (from generate) and human (from critique). */
  ghost predicate Appended(inputs: seq<Message>, msgs: seq<Message>)
  {
    && inputs <= msgs
    && forall i :: |inputs| <= i < |msgs| ==> msgs[i].kind == (if (i - |inputs|) % 2 == 0 then AI else HUMAN)
  }

  lemma SwappableConcat(a: seq<Message>, b: seq<Message>)
    requires Swappable(a) && Swappable(b)
    ensures Swappable(a + b)
  {
  }

  /**
   * From generate, on a history whose messages after the first are ai or
   * human, the run never fails, alternates generate and critique, appends
   * one message per node (AI from generate, human from critique), runs
   * generate `Generations(|msgs|)` times and stops on the first generate
   * that leaves more than MAX_ITERATIONS messages.
   */
  lemma {:induction false} ExecuteFromGenerate(msgs: seq<Message>, generator: ChatModel, critic: ChatModel)
    requires msgs == [] || Swappable(msgs[1..])
    ensures var r := Execute(Generate, msgs, generator, critic);
            && !r.failed
            && Alternates(r.trace)
            && |r.trace| == 2 * Generations(|msgs|) - 1
            && |r.messages| == |msgs| + |r.trace|
            && |r.messages| > MAX_ITERATIONS
            && Appended(msgs, r.messages)
    decreases Headroom(msgs)
  {
    if |msgs| + 1 <= MAX_ITERATIONS {
      var again := ExecuteRound(msgs, generator, critic);
      ExecuteFromGenerate(again, generator, critic);
      var rest := Execute(Generate, again, generator, critic);
      AlternatesCons(rest.trace);
      AppendedCons(msgs, again, rest.messages);
    }
  }

  /**
   * One generate/critique round below the stop rule: it appends an AI and a
   * human message, keeps the history translatable, and the run goes on from
   * generate on the longer history.
   */
  lemma ExecuteRound(msgs: seq<Message>, generator: ChatModel, critic: ChatModel) returns (again: seq<Message>)
    requires msgs == [] || Swappable(msgs[1..])
    requires |msgs| + 1 <= MAX_ITERATIONS
    ensures |again| == |msgs| + 2 && msgs <= again
    ensures again[|msgs|].kind == AI && again[|msgs| + 1].kind == HUMAN
    ensures Swappable(again[1..])
    ensures var r := Execute(Generate, msgs, generator, critic);
            var rest := Execute(Generate, again, generator, critic);
            r.trace == [Generate, Critique] + rest.trace && r.messages == rest.messages && r.failed == rest.failed
  {
    var g := GenerationNode(msgs, generator);
    SwappableAppend(msgs, g);
    var after := msgs + g;
    TranslateSpec(after);
    var u := CritiqueNode(after, critic).value;
    SwappableAppend(after, u);
    again := after + u;
  }

  /** Appending ai and human messages keeps every message after the first one of those two types. */
  lemma SwappableAppend(msgs: seq<Message>, u: seq<Message>)
    requires msgs == [] || Swappable(msgs[1..])
    requires Swappable(u)
    ensures msgs + u == [] || Swappable((msgs + u)[1..])
  {
    if msgs != [] {
      assert (msgs + u)[1..] == msgs[1..] + u;
      SwappableConcat(msgs[1..], u);
    } else {
      assert msgs + u == u;
    }
  }

  lemma AlternatesCons(trace: seq<Node>)
    requires Alternates(trace)
    ensures Alternates([Generate, Critique] + trace)
  {
    var longer := [Generate, Critique] + trace;
    forall i | 0 <= i < |longer|
      ensures longer[i] == (if i % 2 == 0 then Generate else Critique)
    {
      if i >= 2 {
        assert longer[i] == trace[i - 2];
      }
    }
  }

  lemma AppendedCons(msgs: seq<Message>, again: seq<Message>, final: seq<Message>)
    requires |again| == |msgs| + 2 && msgs <= again
    requires again[|msgs|].kind == AI && again[|msgs| + 1].kind == HUMAN
    requires Appended(again, final)
    ensures Appended(msgs, final)
  {
    forall i | |msgs| <= i < |final|
      ensures final[i].kind == (if (i - |msgs|) % 2 == 0 then AI else HUMAN)
    {
      if i >= |again| {
        assert (i - |msgs|) % 2 == (i - |again|) % 2;
      } else {
        assert final[i] == again[i];
      }
    }
  }

  /**
   * A run from any history: it fails exactly when critique runs on a history
   * with a message after the first that is neither ai nor human, which
   * happens exactly when the inputs leave room for a critique.
   */
  lemma StreamFails(inputs: seq<Message>, generator: ChatModel, critic: ChatModel)
    ensures Stream(inputs, generator, critic).failed
            <==> |inputs| < MAX_ITERATIONS && inputs != [] && !Swappable(inputs[1..])
  {
    var after := inputs + GenerationNode(inputs, generator);
    if inputs == [] || Swappable(inputs[1..]) {
      ExecuteFromGenerate(inputs, generator, critic);
    } else if |after| <= MAX_ITERATIONS {
      var i :| 0 <= i < |inputs[1..]| && inputs[1..][i].kind !in CLS_MAP;
      assert after[1..][i] == inputs[1..][i];
      TranslateSpec(after);
      assert CritiqueNode(after, critic) == None;
      assert Execute(Critique, after, generator, critic).failed;
      assert Next(Generate, after) == Goto(Critique);
    }
  }

  /**
   * The run of the shipped script: from one human request, generate,
   * critique, generate, then END, leaving the request, a post, a critique
   * and a revised post.
   */
  lemma StreamFromOneRequest(request: string, generator: ChatModel, critic: ChatModel)
    ensures var r := Stream([Message(HUMAN, request)], generator, critic);
            && !r.failed
            && r.trace == [Generate, Critique, Generate]
            && |r.messages| == 4
            && r.messages[0] == Message(HUMAN, request)
            && r.messages[1].kind == AI && r.messages[2].kind == HUMAN && r.messages[3].kind == AI
  {
    var inputs := [Message(HUMAN, request)];
    assert inputs[1..] == [];
    ExecuteFromGenerate(inputs, generator, critic);
    var r := Stream(inputs, generator, critic);
    assert Generations(1) == 2;
    assert r.trace[0] == Generate && r.trace[1] == Critique && r.trace[2] == Generate;
    assert r.messages[0] == inputs[0];
  }

  /** In that run the critic sees the request and the first post as two human messages. */
  lemma StreamCriticSees(request: string, generator: ChatModel, critic: ChatModel)
    ensures var post := generator(Prompt(GENERATION_INSTRUCTIONS, [Message(HUMAN, request)]));
            Translate([Message(HUMAN, request), Message(AI, post)])
              == Some([Message(HUMAN, request), Message(HUMAN, post)])
  {
    var post := generator(Prompt(GENERATION_INSTRUCTIONS, [Message(HUMAN, request)]));
    var msgs := [Message(HUMAN, request), Message(AI, post)];
    TranslateSpec(msgs);
    var r := Translate(msgs).value;
    assert r[1] == Message(HUMAN, post);
    assert r == [Message(HUMAN, request), Message(HUMAN, post)];
  }
}
