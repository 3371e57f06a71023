/**
 * The reflexion essay writer: plan an outline, research the topic, write a
 * draft, and then, while the iteration budget lasts, review the draft,
 * research the critique and write again.
 *
 * The chat model, its structured-output variant (which returns search
 * queries) and the web search are oracles: fixed functions from their input
 * to their output. Each node reads the whole state and the graph replaces the
 * fields the node returns, since no field of the state declares a reducer.
 */
module Reflexion {
  import opened Wrappers
  import opened Text

  /**
   * `WriterState`. `iteration` is None when the key is absent (the writer
   * reads it with a default of 0); every other field is always present.
   */
  datatype WriterState = WriterState(
    topic: string,
    outline: string,
    output: string,
    feedback: string,
    sources: seq<string>,
    iteration: Option<int>,
    totalIterations: int)

  /** A chat request: one system message followed by one human message. */
  datatype Request = Request(system: string, human: string)

  /** `model.invoke`: the reply text. */
  type ChatModel = Request -> string

  /** `model.with_structured_output(Queries).invoke`: the list of queries. */
  type QueryModel = Request -> seq<string>

  /** `tavily.search(query=q, max_results=2)`: the `content` of each result, in order. */
  type Search = string -> seq<string>

  datatype Oracles = Oracles(model: ChatModel, planner: QueryModel, search: Search)

  const PLAN_PROMPT := "You are an expert writer. Create a detailed outline for an essay on the given topic.\nInclude main sections and key points to cover."
  const RESEARCH_PROMPT := "Generate 3 search queries to gather information for writing an essay.\nMake queries specific and factual."
  /** WRITER_PROMPT up to its `{content}` placeholder, which ends the template. */
  const WRITER_PROMPT_HEAD := "Write a well-structured essay based on the outline and sources provided.\nBe clear, accurate, and thorough.\n\nContext:\n"
  const REVIEW_PROMPT := "Critique this essay. Identify gaps, weak arguments, missing evidence,\nand areas needing improvement. Be specific about what needs to change."
  const RESEARCH_CRITIQUE_PROMPT := "Generate 3 search queries to find information that addresses\nthe critiques mentioned. Focus on filling the gaps identified."

  const SOURCE_SEPARATOR := "\n\n"

  // ---------------------------------------------------------------------------
  // Source accumulation in the two research nodes

  /** What the searches for `queries` contribute, in query order and, within a query, in result order. */
  function Gathered(queries: seq<string>, search: Search): seq<string>
  {
    if queries == [] then []
    else Gathered(queries[..|queries| - 1], search) + search(queries[|queries| - 1])
  }

  /** Searching a query list in two parts contributes the two parts' results one after the other. */
  lemma {:induction false} GatheredConcat(a: seq<string>, b: seq<string>, search: Search)
    ensures Gathered(a + b, search) == Gathered(a, search) + Gathered(b, search)
    decreases |b|
  {
    if b == [] {
      assert a + b == a;
    } else {
      var b' := b[..|b| - 1];
      var last := b[|b| - 1];
      assert a + b == (a + b') + [last];
      GatheredLast(a + b', last, search);
      GatheredLast(b', last, search);
      GatheredConcat(a, b', search);
    }
  }

  /** One more query adds its results at the end. */
  lemma GatheredLast(queries: seq<string>, query: string, search: Search)
    ensures Gathered(queries + [query], search) == Gathered(queries, search) + search(query)
  {
    assert (queries + [query])[..|queries|] == queries;
  }

  /** The first query's results come first, then those of the rest. */
  lemma GatheredFirst(queries: seq<string>, search: Search)
    requires queries != []
    ensures Gathered(queries, search) == search(queries[0]) + Gathered(queries[1..], search)
  {
    GatheredConcat([queries[0]], queries[1..], search);
    assert [queries[0]] + queries[1..] == queries;
    assert Gathered([queries[0]], search) == Gathered([], search) + search(queries[0]);
  }

  /**
   * The nested loops of the research nodes: for each query in order, append
   * each result's content in order to the existing sources.
   */
  method GatherSources(sources: seq<string>, queries: seq<string>, search: Search) returns (result: seq<string>)
    ensures result == sources + Gathered(queries, search)
  {
    result := sources;
    var i := 0;
    while i < |queries|
      invariant 0 <= i <= |queries|
      invariant result == sources + Gathered(queries[..i], search)
    {
      var results := search(queries[i]);
      var j := 0;
      while j < |results|
        invariant 0 <= j <= |results|
        invariant result == sources + Gathered(queries[..i], search) + results[..j]
      {
        result := result + [results[j]];
        j := j + 1;
        assert results[..j] == results[..j - 1] + [results[j - 1]];
      }
      assert results[..j] == results;
      assert queries[..i + 1][..i] == queries[..i];
      i := i + 1;
    }
    assert queries[..i] == queries;
  }

  /** The sources a research node leaves: the old ones, unchanged, then the new results. */
  function Researched(s: WriterState, prompt: string, subject: string, o: Oracles): (r: WriterState)
  {
    s.(sources := s.sources + Gathered(o.planner(Request(prompt, subject)), o.search))
  }

  /** `research_plan_node`: queries from the topic. */
  method ResearchPlanNode(s: WriterState, o: Oracles) returns (r: WriterState)
    ensures r == ResearchPlanUpdate(s, o)
  {
    var queries := o.planner(Request(RESEARCH_PROMPT, s.topic));
    var sources := GatherSources(s.sources, queries, o.search);
    r := s.(sources := sources);
  }

  /** `research_critique_node`: queries from the feedback. */
  method ResearchCritiqueNode(s: WriterState, o: Oracles) returns (r: WriterState)
    ensures r == ResearchCritiqueUpdate(s, o)
  {
    var queries := o.planner(Request(RESEARCH_CRITIQUE_PROMPT, s.feedback));
    var sources := GatherSources(s.sources, queries, o.search);
    r := s.(sources := sources);
  }

  function ResearchPlanUpdate(s: WriterState, o: Oracles): WriterState
  {
    Researched(s, RESEARCH_PROMPT, s.topic, o)
  }

  function ResearchCritiqueUpdate(s: WriterState, o: Oracles): WriterState
  {
    Researched(s, RESEARCH_CRITIQUE_PROMPT, s.feedback, o)
  }

  /** A research node never removes or reorders sources and touches no other field. */
  lemma ResearchKeepsSources(s: WriterState, prompt: string, subject: string, o: Oracles)
    ensures var r := Researched(s, prompt, subject, o);
            && s.sources <= r.sources
            && r.(sources := s.sources) == s
            && r.sources[|s.sources|..] == Gathered(o.planner(Request(prompt, subject)), o.search)
  {
  }

  // ---------------------------------------------------------------------------
  // The other nodes

  /** `plan_node`: the outline for the topic. */
  function PlanNode(s: WriterState, o: Oracles): WriterState
  {
    s.(outline := o.model(Request(PLAN_PROMPT, s.topic)))
  }

  /** The writer's context: the sources joined by blank lines. */
  function Context(sources: seq<string>): (content: string)
    ensures sources == [] ==> content == ""
    ensures |sources| == 1 ==> content == sources[0]
  {
    Join(sources, SOURCE_SEPARATOR)
  }

  /** The request `write_node` sends: the context in the system message, the topic and outline in the human one. */
  function WriteRequest(s: WriterState): Request
  {
    Request(WRITER_PROMPT_HEAD + Context(s.sources), s.topic + "\n\nOutline:\n" + s.outline)
  }

  /** `write_node`: a new draft, and the iteration count one higher (an absent count reads as 0). */
  function WriteNode(s: WriterState, o: Oracles): (r: WriterState)
    ensures r.iteration == Some(s.iteration.GetOr(0) + 1)
    ensures r.(output := s.output, iteration := s.iteration) == s
  {
    s.(output := o.model(WriteRequest(s)), iteration := Some(s.iteration.GetOr(0) + 1))
  }

  /** `review_node`: feedback on the current draft. */
  function ReviewNode(s: WriterState, o: Oracles): WriterState
  {
    s.(feedback := o.model(Request(REVIEW_PROMPT, s.output)))
  }

  /** The lines of sources joined by blank lines: each source, with an empty line between neighbours. */
  function JoinedLines(sources: seq<string>): seq<string>
    decreases |sources|
  {
    if |sources| <= 1 then sources
    else [sources[0], ""] + JoinedLines(sources[1..])
  }

  /**
   * When no source contains a line break, the context's lines are the
   * sources with one empty line between neighbours: every source can be read
   * back from the context.
   */
  lemma {:induction false} ContextSplits(sources: seq<string>)
    requires sources != [] && forall i :: 0 <= i < |sources| ==> '\n' !in sources[i]
    ensures Split(Context(sources), '\n') == JoinedLines(sources)
    decreases |sources|
  {
    if |sources| > 1 {
      var rest := Context(sources[1..]);
      ContextCons(sources);
      SplitBlankLine(sources[0], rest);
      ContextSplits(sources[1..]);
    }
  }

  /** A context of several sources is the first one, a blank line, and the context of the rest. */
  lemma ContextCons(sources: seq<string>)
    requires |sources| > 1
    ensures Context(sources) == sources[0] + ['\n'] + (['\n'] + Context(sources[1..]))
  {
    assert SOURCE_SEPARATOR == ['\n'] + ['\n'];
  }

  /** Splitting at a blank line after a line-free prefix yields the prefix and an empty line. */
  lemma SplitBlankLine(a: string, rest: string)
    requires '\n' !in a
    ensures Split(a + ['\n'] + (['\n'] + rest), '\n') == [a, ""] + Split(rest, '\n')
  {
    SplitCons(a, '\n', ['\n'] + rest);
    SplitLeadingBreak(rest);
  }

  /** A leading line break splits off one empty line. */
  lemma SplitLeadingBreak(rest: string)
    ensures Split(['\n'] + rest, '\n') == [""] + Split(rest, '\n')
  {
    SplitCons([], '\n', rest);
    assert [] + ['\n'] + rest == ['\n'] + rest;
  }

  // ---------------------------------------------------------------------------
  // The stop rule and the graph

  datatype Node = Plan | ResearchPlan | Write | Review | ResearchCritique

  datatype Target = Goto(node: Node) | End

  /** `should_continue`: END once the iteration count exceeds the total. */
  function ShouldContinue(s: WriterState): (t: Target)
    requires s.iteration.Some?
    ensures t == End <==> s.iteration.value > s.totalIterations
    ensures t != End ==> t == Goto(Review)
  {
    if s.iteration.value > s.totalIterations then End else Goto(Review)
  }

  /** The fixed edges; the edge after write is `ShouldContinue`. */
  function Successor(node: Node): Node
    requires node != Write
  {
    match node
    case Plan => ResearchPlan
    case ResearchPlan => Write
    case Review => ResearchCritique
    case ResearchCritique => Write
  }

  const ENTRY := Plan

  /** A run: the final state and the nodes in the order they ran. */
  datatype Run = Run(state: WriterState, trace: seq<Node>)

  /** From write: write, then either END or review, research the critique and write again. */
  function FromWrite(s: WriterState, o: Oracles): Run
    decreases s.totalIterations - s.iteration.GetOr(0)
  {
    var written := WriteNode(s, o);
    match ShouldContinue(written)
    case End => Run(written, [Write])
    case Goto(_) =>
      var reviewed := ReviewNode(written, o);
      var researched := ResearchCritiqueUpdate(reviewed, o);
      var rest := FromWrite(researched, o);
      Run(rest.state, [Write, Review, ResearchCritique] + rest.trace)
  }

  /** `graph.stream(inputs, thread)`: plan, research the topic, then the write loop. */
  function Stream(inputs: WriterState, o: Oracles): Run
  {
    var planned := PlanNode(inputs, o);
    var researched := ResearchPlanUpdate(planned, o);
    var rest := FromWrite(researched, o);
    Run(rest.state, [ENTRY, Successor(ENTRY)] + rest.trace)
  }

  /** How many times write runs from iteration count `i` with total `t`. */
  function Writes(i: int, t: int): nat
  {
    if t - i + 1 >= 1 then t - i + 1 else 1
  }

  /** The rounds after the first write: review, research the critique, write again. */
  function Rounds(n: nat): seq<Node>
  {
    if n == 0 then [] else [Review, ResearchCritique, Write] + Rounds(n - 1)
  }

  function Count(trace: seq<Node>, node: Node): nat
  {
    multiset(trace)[node]
  }

  lemma {:induction false} RoundsCount(n: nat)
    ensures |Rounds(n)| == 3 * n
    ensures Count(Rounds(n), Write) == n && Count(Rounds(n), Review) == n
    ensures Count(Rounds(n), ResearchCritique) == n
    ensures Count(Rounds(n), Plan) == 0 && Count(Rounds(n), ResearchPlan) == 0
  {
    if n > 0 {
      var round := [Review, ResearchCritique, Write];
      assert Rounds(n) == round + Rounds(n - 1);
      assert multiset(Rounds(n)) == multiset(round) + multiset(Rounds(n - 1));
      RoundsCount(n - 1);
    }
  }

  /**
   * From write with iteration count `i` (0 when absent) and total `t`: write
   * runs `max(1, t - i + 1)` times with a review and a critique search
   * between each two, the final count is `i` plus the number of writes, the
   * sources only grow, and the topic, total and final count satisfy the stop
   * rule.
   */
  lemma {:induction false} FromWriteShape(s: WriterState, o: Oracles)
    ensures var r := FromWrite(s, o);
            var n := Writes(s.iteration.GetOr(0), s.totalIterations);
            && r.trace == [Write] + Rounds(n - 1)
            && r.state.iteration == Some(s.iteration.GetOr(0) + n)
            && r.state.iteration.value > r.state.totalIterations
            && r.state.totalIterations == s.totalIterations
            && r.state.topic == s.topic
            && s.sources <= r.state.sources
    decreases s.totalIterations - s.iteration.GetOr(0)
  {
    var written := WriteNode(s, o);
    if ShouldContinue(written) != End {
      var researched := ResearchCritiqueUpdate(ReviewNode(written, o), o);
      FromWriteShape(researched, o);
      var rest := FromWrite(researched, o);
      assert [Write, Review, ResearchCritique] + rest.trace
          == [Write] + ([Review, ResearchCritique, Write] + Rounds(Writes(researched.iteration.GetOr(0), s.totalIterations) - 1));
    }
  }

  /** A run's node counts: plan and the topic search once, write `n` times, review and the critique search `n - 1` times. */
  lemma RunTraceCounts(n: nat)
    requires n >= 1
    ensures var trace := [Plan, ResearchPlan, Write] + Rounds(n - 1);
            && Count(trace, Plan) == 1 && Count(trace, ResearchPlan) == 1
            && Count(trace, Write) == n
            && Count(trace, Review) == n - 1 && Count(trace, ResearchCritique) == n - 1
  {
    RoundsCount(n - 1);
    var trace := [Plan, ResearchPlan, Write] + Rounds(n - 1);
    assert multiset(trace) == multiset([Plan, ResearchPlan, Write]) + multiset(Rounds(n - 1));
  }

  /**
   * The trace of a whole run: plan, the topic search, a write, and then
   * `n - 1` review rounds, where `n = max(1, t - i + 1)`; the final iteration
   * count is `i + n` and the input sources stay a prefix.
   */
  lemma StreamTrace(inputs: WriterState, o: Oracles)
    ensures var r := Stream(inputs, o);
            var n := Writes(inputs.iteration.GetOr(0), inputs.totalIterations);
            && r.trace == [Plan, ResearchPlan, Write] + Rounds(n - 1)
            && r.state.iteration == Some(inputs.iteration.GetOr(0) + n)
            && inputs.sources <= r.state.sources
  {
    var n := Writes(inputs.iteration.GetOr(0), inputs.totalIterations);
    var researched := StreamStart(inputs, o);
    FromWriteShape(researched, o);
    var rest := FromWrite(researched, o);
    assert researched.iteration.GetOr(0) == inputs.iteration.GetOr(0);
    assert rest.trace == [Write] + Rounds(n - 1);
    assert [Plan, ResearchPlan] + ([Write] + Rounds(n - 1)) == [Plan, ResearchPlan, Write] + Rounds(n - 1);
  }

  /**
   * A whole run takes three node steps per write: plan, the topic search and
   * the first write, then a review, a critique search and a write per round.
   */
  lemma StreamSteps(inputs: WriterState, o: Oracles)
    ensures |Stream(inputs, o).trace| == 3 * Writes(inputs.iteration.GetOr(0), inputs.totalIterations)
  {
    StreamTrace(inputs, o);
    RoundsCount(Writes(inputs.iteration.GetOr(0), inputs.totalIterations) - 1);
  }

  /**
   * A whole run: plan and the topic search run once, write runs
   * `max(1, t - i + 1)` times, review and the critique search one time
   * fewer, and the final iteration count is `i` plus the number of writes.
   */
  lemma StreamCounts(inputs: WriterState, o: Oracles)
    ensures var r := Stream(inputs, o);
            var n := Writes(inputs.iteration.GetOr(0), inputs.totalIterations);
            && Count(r.trace, Plan) == 1 && Count(r.trace, ResearchPlan) == 1
            && Count(r.trace, Write) == n
            && Count(r.trace, Review) == n - 1 && Count(r.trace, ResearchCritique) == n - 1
            && r.state.iteration == Some(inputs.iteration.GetOr(0) + n)
  {
    StreamTrace(inputs, o);
    RunTraceCounts(Writes(inputs.iteration.GetOr(0), inputs.totalIterations));
  }

  /** A run starts with plan and the topic search, which keep the count, the total and the old sources. */
  lemma StreamStart(inputs: WriterState, o: Oracles) returns (researched: WriterState)
    ensures researched.iteration == inputs.iteration && researched.totalIterations == inputs.totalIterations
    ensures inputs.sources <= researched.sources
    ensures var rest := FromWrite(researched, o);
            Stream(inputs, o) == Run(rest.state, [Plan, ResearchPlan] + rest.trace)
  {
    researched := ResearchPlanUpdate(PlanNode(inputs, o), o);
  }

  /** The shipped inputs. */
  const SHIPPED := WriterState("The impact of renewable energy on climate change", "", "", "", [], Some(1), 2)

  /**
   * With the shipped iteration count and total (1 and 2), whatever the
   * topic and the oracles: write twice, review once, end with count 3.
   */
  lemma ShippedRun(inputs: WriterState, o: Oracles)
    requires inputs.iteration == Some(1) && inputs.totalIterations == 2
    ensures var r := Stream(inputs, o);
            && r.trace == [Plan, ResearchPlan, Write, Review, ResearchCritique, Write]
            && Count(r.trace, Write) == 2 && Count(r.trace, Review) == 1
            && r.state.iteration == Some(3)
  {
    assert Writes(inputs.iteration.GetOr(0), inputs.totalIterations) == 2;
    StreamTrace(inputs, o);
    StreamCounts(inputs, o);
    OneRound();
  }

  /** The shipped inputs themselves, under any oracles: two writes, one review, final count 3. */
  lemma ShippedStream(o: Oracles)
    ensures var r := Stream(SHIPPED, o);
            && r.trace == [Plan, ResearchPlan, Write, Review, ResearchCritique, Write]
            && r.state.iteration == Some(3)
  {
    ShippedRun(SHIPPED, o);
  }

  lemma OneRound()
    ensures [Plan, ResearchPlan, Write] + Rounds(1) == [Plan, ResearchPlan, Write, Review, ResearchCritique, Write]
  {
    assert Rounds(1) == [Review, ResearchCritique, Write] + Rounds(0);
  }
}
