/**
 * The earlier three-stage agent: nurse -> counsellor -> psychologist. Every
 * handler is a bare model call and every edge function a bare classifier call,
 * with no exception handling, so any collaborator error aborts the invocation.
 * The identity check trusts the classifier's own `is_completed` flag, and the
 * emotion label is passed through as whatever string the classifier produced.
 */
module EarlyDemoAgent {
  import opened Wrappers
  import opened Messages
  import opened Collaborators
  import opened StateGraph

  /** The identity classifier's schema. */
  datatype NurseAnswer = NurseAnswer(name: string, email: string, gender: int, isCompleted: bool)

  const NurseStage: Stage := "nurse"
  const CounsellorStage: Stage := "counsellor"
  const PsychologistStage: Stage := "psychologist"

  const EarlyOrder: seq<Stage> := [NurseStage, CounsellorStage, PsychologistStage]

  /** The emotion edge function may return any string the classifier produced. */
  function EarlyGraph(): Graph {
    Graph(
      Some(NurseStage),
      {NurseStage, CounsellorStage, PsychologistStage},
      map[
        NurseStage := Branch("check_identity", Labels({Tag("completed"), Tag("incompleted")}),
                             map["completed" := Node(CounsellorStage), "incompleted" := End]),
        CounsellorStage := Branch("check_emotion", AnyText,
                                  map["positive" := End, "negative" := Node(PsychologistStage)]),
        PsychologistStage := Direct(End)
      ])
  }

  /** The builder calls that declare the graph, in source order. */
  method DeclareEarlyGraph() returns (g: Graph)
    ensures g == EarlyGraph()
  {
    var b := new Builder();
    b.SetEntryPoint(NurseStage);
    b.AddNode(NurseStage);
    b.AddNode(CounsellorStage);
    b.AddNode(PsychologistStage);
    b.AddConditionalEdges(NurseStage, "check_identity", Labels({Tag("completed"), Tag("incompleted")}),
                          map["completed" := Node(CounsellorStage), "incompleted" := End]);
    b.AddConditionalEdges(CounsellorStage, "check_emotion", AnyText,
                          map["positive" := End, "negative" := Node(PsychologistStage)]);
    b.AddEdge(PsychologistStage, End);
    g := b.Declared();
  }

  /** What the collaborators answer during one invocation; each stage runs at most once. */
  datatype Oracle = Oracle(
    registry: set<string>,
    nurseReply: LlmReply,
    counsellorReply: LlmReply,
    psychologistReply: LlmReply,
    identity: Classified<NurseAnswer>,
    emotion: Classified<string>)

  /** The state holds the history only. */
  type Nothing = ()

  /** A handler: look the model up, call it, return its answer as the one new message. */
  function ModelCall(known: bool, reply: LlmReply): (r: Handled<Nothing>)
    ensures r.Returned? <==> known && reply.Reply?
    ensures r.Returned? ==> r.delta.messages == [reply.message]
  {
    if !known then Raised("KeyError")
    else match reply
      case Reply(m) => Returned(Delta([m], ()))
      case LlmRaised(e) => Raised(e)
  }

  function Handle(o: Oracle, cfg: Config, s: Stage): Handled<Nothing> {
    var known := ModelKnown(cfg, o.registry);
    if s == NurseStage then ModelCall(known, o.nurseReply)
    else if s == CounsellorStage then ModelCall(known, o.counsellorReply)
    else if s == PsychologistStage then ModelCall(known, o.psychologistReply)
    else Raised("unknown node")
  }

  /** `check_identity`: "completed" exactly when the classifier answered with `is_completed` set. */
  function CheckIdentity(known: bool, c: Classified<NurseAnswer>): (r: Decision)
    ensures r == Chose(Tag("completed")) <==> known && c.Answered? && c.value.isCompleted
    ensures r.RouterRaised? <==> !known || c.ClassifierRaised?
    ensures r.Chose? ==> r.chosen == Tag("completed") || r.chosen == Tag("incompleted")
  {
    if !known then RouterRaised("KeyError")
    else match c
      case Answered(a) => Chose(Tag(if a.isCompleted then "completed" else "incompleted"))
      case ClassifierRaised(e) => RouterRaised(e)
  }

  /** `check_emotion`: the classifier's `emotional_tendency`, verbatim. */
  function CheckEmotion(known: bool, c: Classified<string>): (r: Decision)
    ensures forall t :: r == Chose(Tag(t)) <==> known && c == Answered(t)
    ensures r.RouterRaised? <==> !known || c.ClassifierRaised?
  {
    if !known then RouterRaised("KeyError")
    else match c
      case Answered(t) => Chose(Tag(t))
      case ClassifierRaised(e) => RouterRaised(e)
  }

  function Route(o: Oracle, cfg: Config, s: Stage): Decision {
    var known := ModelKnown(cfg, o.registry);
    if s == NurseStage then CheckIdentity(known, o.identity)
    else if s == CounsellorStage then CheckEmotion(known, o.emotion)
    else RouterRaised("no edge function")
  }

  function EarlyHandler(o: Oracle, cfg: Config): StateGraph.Handler<Nothing> {
    (s: Stage, k: nat, st: State<Nothing>) => Handle(o, cfg, s)
  }

  function EarlyRouter(o: Oracle, cfg: Config): StateGraph.Router<Nothing> {
    (s: Stage, k: nat, st: State<Nothing>) => Route(o, cfg, s)
  }

  function EarlyRun(o: Oracle, cfg: Config, st: State<Nothing>, budget: nat): Outcome<Nothing> {
    Execute(EarlyGraph(), EarlyHandler(o, cfg), EarlyRouter(o, cfg), st, budget)
  }

  /**
   * `ainvoke({"messages": [input]}, config)` on a thread of the compiled
   * graph: the thread's saved history gets the input, the graph runs, and the
   * state after the last completed step is saved for that thread only.
   */
  method InvokeEarly(saver: Checkpointer<Nothing>, thread: string, input: string, cfg: Config, o: Oracle, budget: nat)
    returns (out: Outcome<Nothing>)
    modifies saver
    ensures var before := old(saver.Load(thread, ()));
      out == EarlyRun(o, cfg, State(before.messages + [HumanText(input)], before.extra), budget)
    ensures saver.saved == old(saver.saved)[thread := out.state]
  {
    out := saver.Invoke(EarlyGraph(), EarlyHandler(o, cfg), EarlyRouter(o, cfg), thread, HumanText(input), (), budget);
  }

  // ---------------------------------------------------------------- the graph as declared

  /** The graph compiles, but the emotion edge is not covered: a label other than the two mapped has no path. */
  lemma EarlyGraphNotValid()
    ensures WellFormed(EarlyGraph()) && !Valid(EarlyGraph())
  {
    var g := EarlyGraph();
    AnyTextNeverCovered(g.edges[CounsellorStage].paths);
  }

  lemma EarlyGraphIsChain()
    ensures Chain(EarlyGraph(), EarlyOrder)
  {
    var g := EarlyGraph();
    forall i: nat, l: Label | i < |EarlyOrder|
      ensures ChainStep(g, EarlyOrder, i, l)
    {
      assert i == 0 || i == 1 || i == 2;
    }
  }

  /**
   * Every invocation follows nurse, counsellor, psychologist as far as it
   * goes, so at most three stages run; each adds exactly one message.
   */
  lemma EarlyRunShape(o: Oracle, cfg: Config, st: State<Nothing>, budget: nat)
    ensures var out := EarlyRun(o, cfg, st, budget);
      && |out.visited| <= |EarlyOrder|
      && out.visited == EarlyOrder[..|out.visited|]
      && (budget >= |EarlyOrder| ==> !out.status.OutOfSteps?)
      && st.messages <= out.state.messages
      && |out.state.messages| == |st.messages| + |out.visited|
  {
    var g, handle, route := EarlyGraph(), EarlyHandler(o, cfg), EarlyRouter(o, cfg);
    EarlyGraphIsChain();
    ChainRun(g, handle, route, EarlyOrder, 0, st, 0, budget, []);
    RunBounds(g, handle, route, Node(NurseStage), st, 0, budget, []);
    assert OneMessageEach(handle);
    OneMessagePerStage(g, handle, route, Node(NurseStage), st, 0, budget, []);
  }

  // ---------------------------------------------------------------- the graph written out by hand

  function AfterCounsellor(o: Oracle, s1: State<Nothing>, m2: Message): Outcome<Nothing> {
    var s2 := State(s1.messages + [m2], ());
    match o.emotion
    case ClassifierRaised(e) => Outcome(s1, [NurseStage], Failed(CounsellorStage, e))
    case Answered(t) =>
      if t == "positive" then Outcome(s2, [NurseStage, CounsellorStage], Finished)
      else if t != "negative" then Outcome(s1, [NurseStage], NoRoute(CounsellorStage, Tag(t)))
      else match o.psychologistReply
        case LlmRaised(e) => Outcome(s2, [NurseStage, CounsellorStage], Failed(PsychologistStage, e))
        case Reply(m3) => Outcome(State(s2.messages + [m3], ()), EarlyOrder, Finished)
  }

  /**
   * The pipeline as straight-line code with a known model: every collaborator
   * error stops the run at the stage that called it, with the history as it
   * was before that stage.
   */
  function EarlyScripted(o: Oracle, cfg: Config, st: State<Nothing>): Outcome<Nothing> {
    if !ModelKnown(cfg, o.registry) then Outcome(st, [], Failed(NurseStage, "KeyError"))
    else match o.nurseReply
      case LlmRaised(e) => Outcome(st, [], Failed(NurseStage, e))
      case Reply(m1) =>
        var s1 := State(st.messages + [m1], ());
        match o.identity
        case ClassifierRaised(e) => Outcome(st, [], Failed(NurseStage, e))
        case Answered(a) =>
          if !a.isCompleted then Outcome(s1, [NurseStage], Finished)
          else match o.counsellorReply
            case LlmRaised(e) => Outcome(s1, [NurseStage], Failed(CounsellorStage, e))
            case Reply(m2) => AfterCounsellor(o, s1, m2)
  }

  lemma FromPsychologist(o: Oracle, cfg: Config, s2: State<Nothing>, budget: nat)
    requires budget >= 3 && ModelKnown(cfg, o.registry) && o.psychologistReply.Reply?
    ensures Run(EarlyGraph(), EarlyHandler(o, cfg), EarlyRouter(o, cfg), Node(PsychologistStage), s2, 2, budget,
                [NurseStage, CounsellorStage])
         == Outcome(State(s2.messages + [o.psychologistReply.message], ()), EarlyOrder, Finished)
  {
    var g := EarlyGraph();
    assert !Routed(g, PsychologistStage);
    RunStep(g, EarlyHandler(o, cfg), EarlyRouter(o, cfg), PsychologistStage, s2, 2, budget,
            [NurseStage, CounsellorStage], Delta([o.psychologistReply.message], ()), Null, End);
  }

  lemma FromCounsellor(o: Oracle, cfg: Config, s1: State<Nothing>, budget: nat)
    requires budget >= 3 && ModelKnown(cfg, o.registry) && o.counsellorReply.Reply?
    ensures Run(EarlyGraph(), EarlyHandler(o, cfg), EarlyRouter(o, cfg), Node(CounsellorStage), s1, 1, budget,
                [NurseStage]) == AfterCounsellor(o, s1, o.counsellorReply.message)
  {
    var g := EarlyGraph();
    var d := Delta([o.counsellorReply.message], ());
    assert Routed(g, CounsellorStage);
    assert [NurseStage] + [CounsellorStage] == [NurseStage, CounsellorStage];
    if o.emotion.Answered? && (o.emotion.value == "positive" || o.emotion.value == "negative") {
      var t := o.emotion.value;
      var next := if t == "positive" then End else Node(PsychologistStage);
      RunStep(g, EarlyHandler(o, cfg), EarlyRouter(o, cfg), CounsellorStage, s1, 1, budget, [NurseStage], d, Tag(t), next);
      if t == "negative" && o.psychologistReply.Reply? {
        FromPsychologist(o, cfg, Merge(s1, d), budget);
      }
    }
  }

  /** Given three steps, the compiled graph does exactly what the straight-line pipeline does. */
  lemma EarlyRunIsScripted(o: Oracle, cfg: Config, st: State<Nothing>, budget: nat)
    requires budget >= |EarlyOrder|
    ensures EarlyRun(o, cfg, st, budget) == EarlyScripted(o, cfg, st)
  {
    var g := EarlyGraph();
    if ModelKnown(cfg, o.registry) && o.nurseReply.Reply? && o.identity.Answered? {
      var d := Delta([o.nurseReply.message], ());
      var next := if o.identity.value.isCompleted then Node(CounsellorStage) else End;
      assert Routed(g, NurseStage);
      assert [] + [NurseStage] == [NurseStage];
      RunStep(g, EarlyHandler(o, cfg), EarlyRouter(o, cfg), NurseStage, st, 0, budget, [],
              d, Tag(if o.identity.value.isCompleted then "completed" else "incompleted"), next);
      if o.identity.value.isCompleted && o.counsellorReply.Reply? {
        FromCounsellor(o, cfg, Merge(st, d), budget);
      }
    }
  }

  // ---------------------------------------------------------------- scenarios

  /**
   * An emotion label other than "positive" or "negative" has no path: the
   * run stops at the counsellor without keeping the counsellor's answer.
   */
  lemma OffLabelEmotionStrands(o: Oracle, cfg: Config, st: State<Nothing>, budget: nat, t: string)
    requires budget >= |EarlyOrder| && ModelKnown(cfg, o.registry)
    requires o.nurseReply.Reply? && o.identity.Answered? && o.identity.value.isCompleted && o.counsellorReply.Reply?
    requires o.emotion == Answered(t) && t != "positive" && t != "negative"
    ensures EarlyRun(o, cfg, st, budget)
         == Outcome(State(st.messages + [o.nurseReply.message], ()), [NurseStage], NoRoute(CounsellorStage, Tag(t)))
  {
    EarlyRunIsScripted(o, cfg, st, budget);
  }

  /**
   * There is no fallback: a run finishes exactly when the model is known,
   * every collaborator that is reached answers, and the emotion label is
   * one of the two mapped.
   */
  lemma EarlyRunFinishesExactlyWhen(o: Oracle, cfg: Config, st: State<Nothing>, budget: nat)
    requires budget >= |EarlyOrder|
    ensures EarlyRun(o, cfg, st, budget).status == Finished <==>
      && ModelKnown(cfg, o.registry)
      && o.nurseReply.Reply?
      && o.identity.Answered?
      && (o.identity.value.isCompleted ==>
            && o.counsellorReply.Reply?
            && (o.emotion == Answered("positive")
                || (o.emotion == Answered("negative") && o.psychologistReply.Reply?)))
  {
    EarlyRunIsScripted(o, cfg, st, budget);
  }

  /** An unknown model aborts the run at the entry stage, before anything is added. */
  lemma UnknownModelAbortsAtEntry(o: Oracle, cfg: Config, st: State<Nothing>, budget: nat)
    requires budget >= 1 && !ModelKnown(cfg, o.registry)
    ensures EarlyRun(o, cfg, st, budget) == Outcome(st, [], Failed(NurseStage, "KeyError"))
  {
  }
}
