/**
 * The research counsellor graph: an input safety gate, a tool-using
 * counsellor model with an output safety gate and a last-step rule, a tools
 * node that always leads back to the counsellor, and placeholder stages. The
 * `safety` key of the state holds the latest guard verdict.
 */
module Counsellor {
  import opened Wrappers
  import opened Text
  import opened Messages
  import opened Collaborators
  import opened StateGraph

  // ---------------------------------------------------------------- safety verdicts and tools

  datatype Assessment = Safe | Unsafe | GuardError

  /** A LlamaGuard verdict with the categories it flagged. */
  datatype GuardOutput = GuardOutput(assessment: Assessment, unsafeCategories: seq<string>)

  /** The optional `safety` key of the agent state. */
  type Safety = Option<GuardOutput>

  datatype Tool = WebSearch | Calculator | Weather

  /** The tools bound to the model: the weather tool joins only when its API key is set. */
  method RegisterTools(weatherKey: Option<string>) returns (tools: seq<Tool>)
    ensures |tools| == if weatherKey.Some? then 3 else 2
    ensures tools[..2] == [WebSearch, Calculator]
    ensures Weather in tools <==> weatherKey.Some?
  {
    tools := [WebSearch, Calculator];
    if weatherKey.Some? {
      tools := tools + [Weather];
    }
  }

  const SafetyPrefix: string := "This conversation was flagged for unsafe content: "
  const NeedMoreSteps: string := "Sorry, need more steps to process this request."

  /** `format_safety_message`: a plain model message naming the flagged categories. */
  function FormatSafety(g: GuardOutput): (m: Message)
    ensures m.role == Ai && m.toolCalls == []
    ensures |m.content| >= |SafetyPrefix| && m.content[..|SafetyPrefix|] == SafetyPrefix
  {
    AiText(SafetyPrefix + Join(g.unsafeCategories, ", "))
  }

  /** The categories follow the prefix in order, separated by a comma and a space. */
  lemma FormatSafetyLists(g: GuardOutput, c: string)
    ensures FormatSafety(GuardOutput(g.assessment, [])).content == SafetyPrefix
    ensures FormatSafety(GuardOutput(g.assessment, [c])).content == SafetyPrefix + c
    ensures |g.unsafeCategories| > 0 ==>
      FormatSafety(GuardOutput(g.assessment, g.unsafeCategories + [c])).content
        == FormatSafety(g).content + ", " + c
  {
    if |g.unsafeCategories| > 0 {
      JoinSnoc(g.unsafeCategories, ", ", c);
    }
  }

  // ---------------------------------------------------------------- the graph

  const NurseStage: Stage := "nurse"
  const GuardInput: Stage := "guard_input"
  const BlockUnsafe: Stage := "block_unsafe_content"
  const CounsellorStage: Stage := "counsellor"
  const EmotionAnalysis: Stage := "emotion_analysis"
  const ToolsStage: Stage := "tools"
  const EthicalCheck: Stage := "ethical_check"
  const PsychologistStage: Stage := "psychologist"
  const RagStage: Stage := "rag"
  const PsychiatristStage: Stage := "psychiatrist"

  /**
   * The declared graph. Each edge function's range is what its body can
   * return: `edge_nurse` and `edge_diagnose` return `None`, `edge_counsellor`
   * returns "tools" or "ethical_check" (it also serves `emotion_analysis`).
   */
  function CounsellorGraph(): Graph {
    Graph(
      Some(NurseStage),
      {NurseStage, GuardInput, BlockUnsafe, CounsellorStage, EmotionAnalysis, ToolsStage,
       EthicalCheck, PsychologistStage, RagStage, PsychiatristStage},
      map[
        NurseStage := Branch("edge_nurse", Labels({Null}),
                             map["info_completed" := Node(GuardInput), "info_incompleted" := End]),
        GuardInput := Branch("check_safety", Labels({Tag("unsafe"), Tag("safe")}),
                             map["unsafe" := Node(BlockUnsafe), "safe" := Node(CounsellorStage)]),
        BlockUnsafe := Direct(End),
        CounsellorStage := Branch("edge_counsellor", Labels({Tag("tools"), Tag("ethical_check")}),
                                  map["tools" := Node(ToolsStage), "emotion_analysis" := Node(EmotionAnalysis)]),
        EmotionAnalysis := Branch("edge_counsellor", Labels({Tag("tools"), Tag("ethical_check")}),
                                  map["info" := Node(EthicalCheck), "warn" := Node(PsychologistStage)]),
        ToolsStage := Direct(Node(CounsellorStage)),
        PsychologistStage := Branch("edge_diagnose", Labels({Null}),
                                    map["fatal" := Node(PsychiatristStage), "medical_advice" := Node(RagStage)]),
        RagStage := Direct(Node(EthicalCheck)),
        PsychiatristStage := Direct(Node(EthicalCheck)),
        EthicalCheck := Direct(End)
      ])
  }

  /** The builder calls that declare the graph, in source order. */
  method DeclareCounsellorGraph() returns (g: Graph)
    ensures g == CounsellorGraph()
  {
    var b := new Builder();
    b.SetEntryPoint(NurseStage);
    AddCounsellorNodes(b);
    AddCounsellorEdges(b);
    g := b.Declared();
  }

  /** The `add_node` calls. */
  method AddCounsellorNodes(b: Builder)
    requires b.stages == {} && b.edges == map[]
    modifies b
    ensures b.stages == CounsellorGraph().stages && b.edges == map[] && b.entry == old(b.entry)
  {
    b.AddNode(NurseStage);
    b.AddNode(GuardInput);
    b.AddNode(BlockUnsafe);
    b.AddNode(CounsellorStage);
    b.AddNode(EmotionAnalysis);
    b.AddNode(ToolsStage);
    b.AddNode(EthicalCheck);
    b.AddNode(PsychologistStage);
    b.AddNode(RagStage);
    b.AddNode(PsychiatristStage);
  }

  /** The `add_edge` and `add_conditional_edges` calls. */
  method AddCounsellorEdges(b: Builder)
    requires b.edges == map[]
    modifies b
    ensures b.edges == CounsellorGraph().edges && b.stages == old(b.stages) && b.entry == old(b.entry)
  {
    AddFrontEdges(b);
    AddBackEdges(b);
  }

  /** The edges up to the counsellor's: intake, the input gate and the counsellor's own. */
  function FrontEdges(): map<Stage, Edge> {
    map[
      NurseStage := CounsellorGraph().edges[NurseStage],
      GuardInput := CounsellorGraph().edges[GuardInput],
      BlockUnsafe := CounsellorGraph().edges[BlockUnsafe],
      CounsellorStage := CounsellorGraph().edges[CounsellorStage]
    ]
  }

  method AddFrontEdges(b: Builder)
    requires b.edges == map[]
    modifies b
    ensures b.edges == FrontEdges() && b.stages == old(b.stages) && b.entry == old(b.entry)
  {
    b.AddConditionalEdges(NurseStage, "edge_nurse", Labels({Null}),
                          map["info_completed" := Node(GuardInput), "info_incompleted" := End]);
    b.AddConditionalEdges(GuardInput, "check_safety", Labels({Tag("unsafe"), Tag("safe")}),
                          map["unsafe" := Node(BlockUnsafe), "safe" := Node(CounsellorStage)]);
    b.AddEdge(BlockUnsafe, End);
    b.AddConditionalEdges(CounsellorStage, "edge_counsellor", Labels({Tag("tools"), Tag("ethical_check")}),
                          map["tools" := Node(ToolsStage), "emotion_analysis" := Node(EmotionAnalysis)]);
  }

  method AddBackEdges(b: Builder)
    requires b.edges == FrontEdges()
    modifies b
    ensures b.edges == CounsellorGraph().edges && b.stages == old(b.stages) && b.entry == old(b.entry)
  {
    b.AddConditionalEdges(EmotionAnalysis, "edge_counsellor", Labels({Tag("tools"), Tag("ethical_check")}),
                          map["info" := Node(EthicalCheck), "warn" := Node(PsychologistStage)]);
    b.AddEdge(ToolsStage, Node(CounsellorStage));
    b.AddConditionalEdges(PsychologistStage, "edge_diagnose", Labels({Null}),
                          map["fatal" := Node(PsychiatristStage), "medical_advice" := Node(RagStage)]);
    b.AddEdge(RagStage, Node(EthicalCheck));
    b.AddEdge(PsychiatristStage, Node(EthicalCheck));
    b.AddEdge(EthicalCheck, End);
  }

  // ---------------------------------------------------------------- inputs

  /**
   * What the collaborators answer: the model registry, the input guard's
   * verdict, and, by step number, the model's answer, the output guard's
   * verdict, whether the step is the last one allowed, and each tool's output.
   * Each LlamaGuard call answers a verdict or raises.
   */
  datatype Oracle = Oracle(
    registry: set<string>,
    inputGuard: Classified<GuardOutput>,
    reply: nat -> LlmReply,
    outputGuard: nat -> Classified<GuardOutput>,
    lastStep: nat -> bool,
    toolOutput: (nat, ToolCall) -> string)

  // ---------------------------------------------------------------- handlers

  /**
   * `acall_model`: the model is called first and then LlamaGuard on its
   * answer, neither inside a `try`. An unsafe output verdict replaces the
   * answer with the flagged message and records the verdict; otherwise, on
   * the last step, an answer that asks for tools is replaced by the
   * need-more-steps message keeping its id; otherwise the answer itself is
   * the one new message.
   */
  function AcallModel(known: bool, reply: LlmReply, guard: Classified<GuardOutput>, last: bool, safety: Safety)
    : (r: Handled<Safety>)
    ensures r.Returned? <==> known && reply.Reply? && guard.Answered?
    ensures known && reply.LlmRaised? ==> r == Raised(reply.error)
    ensures known && reply.Reply? && guard.ClassifierRaised? ==> r == Raised(guard.error)
    ensures r.Returned? ==> |r.delta.messages| == 1
    ensures r.Returned? && guard.value.assessment == Unsafe ==>
      r.delta == Delta([FormatSafety(guard.value)], Some(guard.value))
    ensures r.Returned? && guard.value.assessment != Unsafe ==> r.delta.extra == safety
    ensures r.Returned? && guard.value.assessment != Unsafe && last && |reply.message.toolCalls| > 0 ==>
      r.delta.messages == [Message(Ai, NeedMoreSteps, reply.message.id, [])]
    ensures r.Returned? && guard.value.assessment != Unsafe && !(last && |reply.message.toolCalls| > 0) ==>
      r.delta.messages == [reply.message]
  {
    if !known then Raised("KeyError")
    else match reply
      case LlmRaised(e) => Raised(e)
      case Reply(response) =>
        match guard
        case ClassifierRaised(e) => Raised(e)
        case Answered(verdict) =>
          if verdict.assessment == Unsafe then Returned(Delta([FormatSafety(verdict)], Some(verdict)))
          else if last && |response.toolCalls| > 0 then
            Returned(Delta([Message(Ai, NeedMoreSteps, response.id, [])], safety))
          else Returned(Delta([response], safety))
  }

  /** On the last step the counsellor never emits a message that asks for tools, and it never passes on a flagged answer. */
  lemma AcallModelLastStepAndGuard(known: bool, reply: LlmReply, guard: Classified<GuardOutput>, last: bool, safety: Safety)
    requires AcallModel(known, reply, guard, last, safety).Returned?
    ensures last ==> AcallModel(known, reply, guard, last, safety).delta.messages[0].toolCalls == []
    ensures guard.value.assessment == Unsafe ==>
      AcallModel(known, reply, guard, last, safety).delta.messages[0] == FormatSafety(guard.value)
  {
  }

  /** `llama_guard_input`: records the input verdict and adds no message; the LlamaGuard call is not inside a `try`. */
  function LlamaGuardInput(verdict: Classified<GuardOutput>): Handled<Safety> {
    match verdict
    case Answered(v) => Returned(Delta([], Some(v)))
    case ClassifierRaised(e) => Raised(e)
  }

  /** `block_unsafe_content`: one flagged message built from the recorded verdict; none recorded raises. */
  function BlockUnsafeContent(safety: Safety): (r: Handled<Safety>)
    ensures r.Raised? <==> safety.None?
    ensures r.Returned? ==> r.delta == Delta([FormatSafety(safety.value)], safety)
  {
    match safety
    case None => Raised("KeyError")
    case Some(g) => Returned(Delta([FormatSafety(g)], safety))
  }

  /** The tools node answers every tool call of the last message with one tool message carrying the call's id, in order. */
  function ToolReplies(o: Oracle, k: nat, calls: seq<ToolCall>): (r: seq<Message>)
    ensures |r| == |calls|
    ensures forall i | 0 <= i < |calls| ::
      r[i] == Message(ToolResult, o.toolOutput(k, calls[i]), Some(calls[i].id), [])
  {
    seq(|calls|, i requires 0 <= i < |calls| => Message(ToolResult, o.toolOutput(k, calls[i]), Some(calls[i].id), []))
  }

  /**
   * `ToolNode`: the tool messages for the calls of the last message. It raises
   * when the history is empty or the last message is not a model answer with
   * tool calls; no run reaches those cases, since "tools" is entered only
   * from the counsellor's "tools" edge, which checks exactly that message.
   */
  function ToolNode(o: Oracle, k: nat, st: State<Safety>): Handled<Safety> {
    if |st.messages| == 0 then Raised("ValueError")
    else
      var last := st.messages[|st.messages| - 1];
      if last.role != Ai || |last.toolCalls| == 0 then Raised("ValueError")
      else Returned(Delta(ToolReplies(o, k, last.toolCalls), st.extra))
  }

  /**
   * The handlers by stage. The placeholder stages return a bare message
   * instead of a state update, which the engine refuses; `rag` takes no
   * argument, so calling it with the state raises.
   */
  function Handle(o: Oracle, cfg: Config, s: Stage, k: nat, st: State<Safety>): Handled<Safety> {
    if s == GuardInput then LlamaGuardInput(o.inputGuard)
    else if s == BlockUnsafe then BlockUnsafeContent(st.extra)
    else if s == CounsellorStage then
      AcallModel(ModelKnown(cfg, o.registry), o.reply(k), o.outputGuard(k), o.lastStep(k), st.extra)
    else if s == ToolsStage then ToolNode(o, k, st)
    else if s == RagStage then Raised("TypeError")
    else if s in {NurseStage, EmotionAnalysis, EthicalCheck, PsychologistStage, PsychiatristStage} then
      Raised("InvalidUpdateError")
    else Raised("unknown node")
  }

  // ---------------------------------------------------------------- edge functions

  /** `check_safety`: "unsafe" exactly when the recorded verdict is unsafe; no verdict recorded raises. */
  function CheckSafety(safety: Safety): (r: Decision)
    ensures r.RouterRaised? <==> safety.None?
    ensures r == Chose(Tag("unsafe")) <==> safety.Some? && safety.value.assessment == Unsafe
    ensures r.Chose? ==> r.chosen == Tag("unsafe") || r.chosen == Tag("safe")
  {
    match safety
    case None => RouterRaised("KeyError")
    case Some(g) => Chose(Tag(if g.assessment == Unsafe then "unsafe" else "safe"))
  }

  /**
   * `edge_counsellor`: an empty history raises an index error and a last
   * message that is not a model answer a type error; otherwise "tools"
   * exactly when that answer asks for tools, and "ethical_check" when not.
   */
  function EdgeCounsellor(messages: seq<Message>): (r: Decision)
    ensures |messages| == 0 ==> r == RouterRaised("IndexError")
    ensures |messages| > 0 && messages[|messages| - 1].role != Ai ==> r == RouterRaised("TypeError")
    ensures r.Chose? <==> |messages| > 0 && messages[|messages| - 1].role == Ai
    ensures r == Chose(Tag("tools")) <==>
      |messages| > 0 && messages[|messages| - 1].role == Ai && |messages[|messages| - 1].toolCalls| > 0
    ensures r.Chose? ==> r.chosen == Tag("tools") || r.chosen == Tag("ethical_check")
  {
    if |messages| == 0 then RouterRaised("IndexError")
    else
      var last := messages[|messages| - 1];
      if last.role != Ai then RouterRaised("TypeError")
      else if |last.toolCalls| > 0 then Chose(Tag("tools"))
      else Chose(Tag("ethical_check"))
  }

  /** `edge_nurse` and `edge_diagnose` take no argument, so calling them with the state raises. */
  function Route(s: Stage, st: State<Safety>): Decision {
    if s == GuardInput then CheckSafety(st.extra)
    else if s == CounsellorStage || s == EmotionAnalysis then EdgeCounsellor(st.messages)
    else if s == NurseStage || s == PsychologistStage then RouterRaised("TypeError")
    else RouterRaised("no edge function")
  }

  function CounsellorHandler(o: Oracle, cfg: Config): StateGraph.Handler<Safety> {
    (s: Stage, k: nat, st: State<Safety>) => Handle(o, cfg, s, k, st)
  }

  function CounsellorRouter(): StateGraph.Router<Safety> {
    (s: Stage, k: nat, st: State<Safety>) => Route(s, st)
  }

  function CounsellorRun(o: Oracle, cfg: Config, st: State<Safety>, budget: nat): Outcome<Safety> {
    Execute(CounsellorGraph(), CounsellorHandler(o, cfg), CounsellorRouter(), st, budget)
  }

  /** A run started at `at` after `k` steps, with nothing completed yet in this call. */
  function RunFrom(o: Oracle, cfg: Config, at: Stage, st: State<Safety>, k: nat, budget: nat, visited: seq<Stage>): Outcome<Safety> {
    Run(CounsellorGraph(), CounsellorHandler(o, cfg), CounsellorRouter(), Node(at), st, k, budget, visited)
  }

  // ---------------------------------------------------------------- the graph as declared

  /** The graph compiles: an entry stage, and every edge between declared stages. */
  lemma CounsellorGraphWellFormed()
    ensures WellFormed(CounsellorGraph())
  {
    var g := CounsellorGraph();
    forall s | s in g.edges
      ensures s in g.stages && TargetsExist(g, g.edges[s])
    {
    }
  }

  /**
   * Of its five edge functions only `check_safety` is covered by its path
   * map, so the graph is not valid.
   */
  lemma CounsellorGraphNotValid()
    ensures forall s | s in CounsellorGraph().edges && CounsellorGraph().edges[s].Branch? ::
      Covers(CounsellorGraph().edges[s].range, CounsellorGraph().edges[s].paths) <==> s == GuardInput
    ensures !Valid(CounsellorGraph())
  {
    var g := CounsellorGraph();
    forall s | s in g.edges && g.edges[s].Branch?
      ensures Covers(g.edges[s].range, g.edges[s].paths) <==> s == GuardInput
    {
      var e := g.edges[s];
      if s == NurseStage || s == PsychologistStage {
        assert InRange(Null, e.range);
      } else if s == CounsellorStage {
        assert InRange(Tag("ethical_check"), e.range) && "ethical_check" !in e.paths;
      } else if s == EmotionAnalysis {
        assert InRange(Tag("tools"), e.range) && "tools" !in e.paths;
      } else {
        assert s == GuardInput;
      }
    }
    assert !Covers(g.edges[CounsellorStage].range, g.edges[CounsellorStage].paths);
  }

  /** The entry stage returns a bare message, so every invocation fails there before anything is added. */
  lemma CounsellorRunFailsAtEntry(o: Oracle, cfg: Config, st: State<Safety>, budget: nat)
    requires budget >= 1
    ensures CounsellorRun(o, cfg, st, budget) == Outcome(st, [], Failed(NurseStage, "InvalidUpdateError"))
  {
  }

  // ---------------------------------------------------------------- from the input gate on

  /** An unsafe input is answered with one flagged message and the run ends, with the verdict recorded. */
  lemma UnsafeInputIsBlocked(o: Oracle, cfg: Config, st: State<Safety>, k: nat, budget: nat, v: GuardOutput)
    requires o.inputGuard == Answered(v) && v.assessment == Unsafe && budget >= k + 2
    ensures RunFrom(o, cfg, GuardInput, st, k, budget, [])
         == Outcome(State(st.messages + [FormatSafety(v)], Some(v)), [GuardInput, BlockUnsafe], Finished)
  {
    var g, handle, route := CounsellorGraph(), CounsellorHandler(o, cfg), CounsellorRouter();
    var d1 := Delta([], Some(v));
    var s1 := Merge(st, d1);
    assert Routed(g, GuardInput);
    RunStep(g, handle, route, GuardInput, st, k, budget, [], d1, Tag("unsafe"), Node(BlockUnsafe));
    assert !Routed(g, BlockUnsafe);
    RunStep(g, handle, route, BlockUnsafe, s1, k + 1, budget, [GuardInput],
            Delta([FormatSafety(v)], Some(v)), Null, End);
    assert s1.messages == st.messages;
  }

  /** Any other input verdict is recorded, adds no message, and hands over to the counsellor. */
  lemma SafeInputReachesCounsellor(o: Oracle, cfg: Config, st: State<Safety>, k: nat, budget: nat, visited: seq<Stage>,
                                   v: GuardOutput)
    requires o.inputGuard == Answered(v) && v.assessment != Unsafe && budget > k
    ensures RunFrom(o, cfg, GuardInput, st, k, budget, visited)
         == RunFrom(o, cfg, CounsellorStage, State(st.messages, Some(v)), k + 1, budget, visited + [GuardInput])
  {
    var g := CounsellorGraph();
    assert Routed(g, GuardInput);
    RunStep(g, CounsellorHandler(o, cfg), CounsellorRouter(), GuardInput, st, k, budget, visited,
            Delta([], Some(v)), Tag("safe"), Node(CounsellorStage));
    assert st.messages + [] == st.messages;
  }
  /** When the input LlamaGuard call raises, the run fails at the gate and the state is left as it was. */
  lemma InputGuardErrorFails(o: Oracle, cfg: Config, st: State<Safety>, k: nat, budget: nat, visited: seq<Stage>)
    requires o.inputGuard.ClassifierRaised? && budget > k
    ensures RunFrom(o, cfg, GuardInput, st, k, budget, visited)
         == Outcome(st, visited, Failed(GuardInput, o.inputGuard.error))
  {
  }

  /**
   * When the model answers but the output LlamaGuard call raises, the run
   * fails at the counsellor and the answer is not added.
   */
  lemma OutputGuardErrorFails(o: Oracle, cfg: Config, st: State<Safety>, k: nat, budget: nat, visited: seq<Stage>)
    requires ModelKnown(cfg, o.registry) && o.reply(k).Reply? && o.outputGuard(k).ClassifierRaised? && budget > k
    ensures RunFrom(o, cfg, CounsellorStage, st, k, budget, visited)
         == Outcome(st, visited, Failed(CounsellorStage, o.outputGuard(k).error))
  {
  }


  /**
   * A counsellor step whose one new message is a plain model answer (no tool
   * calls, or replaced on the last step, or flagged by the output guard)
   * meets "ethical_check", which has no path: the step is dropped and the
   * run stops there.
   */
  lemma AnswerWithoutToolsHasNoPath(o: Oracle, cfg: Config, st: State<Safety>, k: nat, budget: nat, visited: seq<Stage>)
    requires k < budget && ModelKnown(cfg, o.registry)
    requires o.reply(k).Reply? && o.reply(k).message.role == Ai
    requires o.outputGuard(k).Answered?
    requires |o.reply(k).message.toolCalls| == 0 || o.lastStep(k) || o.outputGuard(k).value.assessment == Unsafe
    ensures RunFrom(o, cfg, CounsellorStage, st, k, budget, visited)
         == Outcome(st, visited, NoRoute(CounsellorStage, Tag("ethical_check")))
  {
    var h := CounsellorHandler(o, cfg)(CounsellorStage, k, st);
    assert h.Returned? && h.delta.messages[0].role == Ai && h.delta.messages[0].toolCalls == [];
    var st' := Merge(st, h.delta);
    assert st'.messages[|st'.messages| - 1] == h.delta.messages[0];
    assert Routed(CounsellorGraph(), CounsellorStage);
  }

  /** From the counsellor no run finishes: every way out of the counsellor/tools loop fails or has no path. */
  lemma {:induction false} CounsellorNeverFinishes(o: Oracle, cfg: Config, st: State<Safety>, k: nat, budget: nat,
                                                   visited: seq<Stage>)
    ensures RunFrom(o, cfg, CounsellorStage, st, k, budget, visited).status != Finished
    decreases budget - k, 1
  {
    var g, handle, route := CounsellorGraph(), CounsellorHandler(o, cfg), CounsellorRouter();
    if k < budget {
      var h := handle(CounsellorStage, k, st);
      if h.Returned? {
        var st' := Merge(st, h.delta);
        assert Routed(g, CounsellorStage);
        var d := route(CounsellorStage, k, st');
        if d == Chose(Tag("tools")) {
          RunStep(g, handle, route, CounsellorStage, st, k, budget, visited, h.delta, Tag("tools"), Node(ToolsStage));
          ToolsNeverFinish(o, cfg, st', k + 1, budget, visited + [CounsellorStage]);
        }
      }
    }
  }

  lemma {:induction false} ToolsNeverFinish(o: Oracle, cfg: Config, st: State<Safety>, k: nat, budget: nat,
                                            visited: seq<Stage>)
    ensures RunFrom(o, cfg, ToolsStage, st, k, budget, visited).status != Finished
    decreases budget - k, 0
  {
    var g, handle, route := CounsellorGraph(), CounsellorHandler(o, cfg), CounsellorRouter();
    if k < budget {
      var h := handle(ToolsStage, k, st);
      if h.Returned? {
        assert !Routed(g, ToolsStage);
        RunStep(g, handle, route, ToolsStage, st, k, budget, visited, h.delta, Null, Node(CounsellorStage));
        CounsellorNeverFinishes(o, cfg, Merge(st, h.delta), k + 1, budget, visited + [ToolsStage]);
      }
    }
  }

  /** From the input gate, the only run that finishes is the one that blocks an unsafe input. */
  lemma OnlyBlockingFinishes(o: Oracle, cfg: Config, st: State<Safety>, k: nat, budget: nat)
    ensures var out := RunFrom(o, cfg, GuardInput, st, k, budget, []);
      out.status == Finished ==>
        && o.inputGuard.Answered? && o.inputGuard.value.assessment == Unsafe
        && out.visited == [GuardInput, BlockUnsafe]
  {
    if k < budget {
      match o.inputGuard
      case ClassifierRaised(_) =>
        InputGuardErrorFails(o, cfg, st, k, budget, []);
      case Answered(v) =>
        if v.assessment == Unsafe {
          if budget >= k + 2 {
            UnsafeInputIsBlocked(o, cfg, st, k, budget, v);
          } else {
            var g := CounsellorGraph();
            assert Routed(g, GuardInput);
            RunStep(g, CounsellorHandler(o, cfg), CounsellorRouter(), GuardInput, st, k, budget, [],
                    Delta([], Some(v)), Tag("unsafe"), Node(BlockUnsafe));
            assert RunFrom(o, cfg, BlockUnsafe, Merge(st, Delta([], Some(v))), k + 1, budget, [] + [GuardInput]).status
                == OutOfSteps;
          }
        } else {
          SafeInputReachesCounsellor(o, cfg, st, k, budget, [], v);
          assert [] + [GuardInput] == [GuardInput];
          CounsellorNeverFinishes(o, cfg, State(st.messages, Some(v)), k + 1, budget, [GuardInput]);
        }
    }
  }


  // ---------------------------------------------------------------- the tools cycle

  /** At step `j` the model answers, asks for tools, passes the output guard, and the step is not the last. */
  predicate AsksForTools(o: Oracle, j: nat) {
    && o.reply(j).Reply? && o.reply(j).message.role == Ai && |o.reply(j).message.toolCalls| > 0
    && o.outputGuard(j).Answered? && o.outputGuard(j).value.assessment != Unsafe && !o.lastStep(j)
  }

  lemma {:induction false} CounsellorCycleRunsOut(o: Oracle, cfg: Config, st: State<Safety>, k: nat, budget: nat,
                                                  visited: seq<Stage>)
    requires ModelKnown(cfg, o.registry) && forall j: nat :: AsksForTools(o, j)
    requires k <= budget
    ensures RunFrom(o, cfg, CounsellorStage, st, k, budget, visited).status == OutOfSteps
    decreases budget - k, 1
  {
    var g, handle, route := CounsellorGraph(), CounsellorHandler(o, cfg), CounsellorRouter();
    if k < budget {
      assert AsksForTools(o, k);
      var m := o.reply(k).message;
      var d := Delta([m], st.extra);
      assert handle(CounsellorStage, k, st) == Returned(d);
      var st' := Merge(st, d);
      assert st'.messages[|st'.messages| - 1] == m;
      assert Routed(g, CounsellorStage);
      RunStep(g, handle, route, CounsellorStage, st, k, budget, visited, d, Tag("tools"), Node(ToolsStage));
      ToolsCycleRunsOut(o, cfg, st', k + 1, budget, visited + [CounsellorStage]);
    }
  }

  lemma {:induction false} ToolsCycleRunsOut(o: Oracle, cfg: Config, st: State<Safety>, k: nat, budget: nat,
                                             visited: seq<Stage>)
    requires ModelKnown(cfg, o.registry) && forall j: nat :: AsksForTools(o, j)
    requires k <= budget
    requires |st.messages| > 0 && st.messages[|st.messages| - 1].role == Ai
    requires |st.messages[|st.messages| - 1].toolCalls| > 0
    ensures RunFrom(o, cfg, ToolsStage, st, k, budget, visited).status == OutOfSteps
    decreases budget - k, 0
  {
    var g, handle, route := CounsellorGraph(), CounsellorHandler(o, cfg), CounsellorRouter();
    if k < budget {
      var h := handle(ToolsStage, k, st);
      assert h.Returned?;
      assert !Routed(g, ToolsStage);
      RunStep(g, handle, route, ToolsStage, st, k, budget, visited, h.delta, Null, Node(CounsellorStage));
      CounsellorCycleRunsOut(o, cfg, Merge(st, h.delta), k + 1, budget, visited + [ToolsStage]);
    }
  }

  /**
   * When the model keeps asking for tools and no step is flagged as the
   * last, only the step budget stops the counsellor/tools cycle: the run
   * uses every step and stops for lack of steps.
   */
  lemma ToolsCycleBoundedOnlyByBudget(o: Oracle, cfg: Config, st: State<Safety>, k: nat, budget: nat, v: GuardOutput)
    requires ModelKnown(cfg, o.registry) && forall j: nat :: AsksForTools(o, j)
    requires o.inputGuard == Answered(v) && v.assessment != Unsafe && k < budget
    ensures var out := RunFrom(o, cfg, GuardInput, st, k, budget, []);
      out.status == OutOfSteps && |out.visited| == budget - k
  {
    SafeInputReachesCounsellor(o, cfg, st, k, budget, [], v);
    assert [] + [GuardInput] == [GuardInput];
    CounsellorCycleRunsOut(o, cfg, State(st.messages, Some(v)), k + 1, budget, [GuardInput]);
    RunBounds(CounsellorGraph(), CounsellorHandler(o, cfg), CounsellorRouter(), Node(GuardInput), st, k, budget, []);
  }

  /**
   * At step `j` the model answers, asks for tools and passes the output
   * guard, and the step is flagged as the last exactly when it is the last
   * one the budget allows, as the engine's `is_last_step` is.
   */
  predicate AsksForToolsUntilLast(o: Oracle, j: nat, budget: nat) {
    && o.reply(j).Reply? && o.reply(j).message.role == Ai && |o.reply(j).message.toolCalls| > 0
    && o.outputGuard(j).Answered? && o.outputGuard(j).value.assessment != Unsafe
    && (o.lastStep(j) <==> j + 1 == budget)
  }

  lemma {:induction false} CounsellorCycleMeetsLastStep(o: Oracle, cfg: Config, st: State<Safety>, k: nat, budget: nat,
                                                        visited: seq<Stage>)
    requires ModelKnown(cfg, o.registry) && forall j: nat :: AsksForToolsUntilLast(o, j, budget)
    requires k <= budget
    ensures RunFrom(o, cfg, CounsellorStage, st, k, budget, visited).status
         == if (budget - k) % 2 == 1 then NoRoute(CounsellorStage, Tag("ethical_check")) else OutOfSteps
    decreases budget - k, 1
  {
    var g, handle, route := CounsellorGraph(), CounsellorHandler(o, cfg), CounsellorRouter();
    if k < budget {
      assert AsksForToolsUntilLast(o, k, budget);
      if k + 1 == budget {
        AnswerWithoutToolsHasNoPath(o, cfg, st, k, budget, visited);
      } else {
        var m := o.reply(k).message;
        var d := Delta([m], st.extra);
        assert handle(CounsellorStage, k, st) == Returned(d);
        var st' := Merge(st, d);
        assert st'.messages[|st'.messages| - 1] == m;
        assert Routed(g, CounsellorStage);
        RunStep(g, handle, route, CounsellorStage, st, k, budget, visited, d, Tag("tools"), Node(ToolsStage));
        ToolsCycleMeetsLastStep(o, cfg, st', k + 1, budget, visited + [CounsellorStage]);
      }
    }
  }

  lemma {:induction false} ToolsCycleMeetsLastStep(o: Oracle, cfg: Config, st: State<Safety>, k: nat, budget: nat,
                                                   visited: seq<Stage>)
    requires ModelKnown(cfg, o.registry) && forall j: nat :: AsksForToolsUntilLast(o, j, budget)
    requires k <= budget
    requires |st.messages| > 0 && st.messages[|st.messages| - 1].role == Ai
    requires |st.messages[|st.messages| - 1].toolCalls| > 0
    ensures RunFrom(o, cfg, ToolsStage, st, k, budget, visited).status
         == if k < budget && (budget - k) % 2 == 0 then NoRoute(CounsellorStage, Tag("ethical_check")) else OutOfSteps
    decreases budget - k, 0
  {
    var g, handle, route := CounsellorGraph(), CounsellorHandler(o, cfg), CounsellorRouter();
    if k < budget {
      var h := handle(ToolsStage, k, st);
      assert h.Returned?;
      assert !Routed(g, ToolsStage);
      RunStep(g, handle, route, ToolsStage, st, k, budget, visited, h.delta, Null, Node(CounsellorStage));
      CounsellorCycleMeetsLastStep(o, cfg, Merge(st, h.delta), k + 1, budget, visited + [ToolsStage]);
    }
  }

  /**
   * With the last step flagged as the engine flags it, a model that keeps
   * asking for tools ends the cycle by parity: when the counsellor holds the
   * last step, its need-more-steps answer meets "ethical_check", which has no
   * path; when the tools node holds it, the run stops for lack of steps.
   */
  lemma LastStepEndsToolsCycle(o: Oracle, cfg: Config, st: State<Safety>, k: nat, budget: nat, v: GuardOutput)
    requires ModelKnown(cfg, o.registry) && forall j: nat :: AsksForToolsUntilLast(o, j, budget)
    requires o.inputGuard == Answered(v) && v.assessment != Unsafe && k < budget
    ensures RunFrom(o, cfg, GuardInput, st, k, budget, []).status
         == if (budget - k) % 2 == 0 then NoRoute(CounsellorStage, Tag("ethical_check")) else OutOfSteps
  {
    SafeInputReachesCounsellor(o, cfg, st, k, budget, [], v);
    CounsellorCycleMeetsLastStep(o, cfg, State(st.messages, Some(v)), k + 1, budget, [] + [GuardInput]);
  }

  /**
   * `ainvoke` on a thread of the compiled graph: the thread's saved state
   * gets the input, the graph runs, and the state reached is saved for that
   * thread only.
   */
  method InvokeCounsellor(saver: Checkpointer<Safety>, thread: string, input: string, cfg: Config, o: Oracle, budget: nat)
    returns (out: Outcome<Safety>)
    modifies saver
    ensures var before := old(saver.Load(thread, None));
      out == CounsellorRun(o, cfg, State(before.messages + [HumanText(input)], before.extra), budget)
    ensures saver.saved == old(saver.saved)[thread := out.state]
  {
    out := saver.Invoke(CounsellorGraph(), CounsellorHandler(o, cfg), CounsellorRouter(), thread, HumanText(input), None, budget);
  }
}
