/**
 * The main mental-health agent: nurse -> counsellor -> psychologist ->
 * psychiatrist, routed by an identity check against the `cases` table, an
 * emotion classifier (failure reads as "negative") and a danger classifier
 * (failure reads as "safe"). Every handler answers with exactly one message and
 * turns a model error into a fixed apology. `patient_info` is one module-level
 * record shared by every conversation; `nurse` overwrites it.
 */
module DemoAgent {
  import opened Wrappers
  import opened Text
  import opened Messages
  import opened Collaborators
  import opened StateGraph
  import Db

  // ---------------------------------------------------------------- classifier schemas

  /** The intake classifier's structured answer; any field may be missing. */
  datatype NurseAnswer = NurseAnswer(name: Option<string>, email: Option<string>, gender: Option<int>, age: Option<int>)

  datatype Emotion = Positive | Negative

  /** `NurseAnswer.is_valid`. */
  function IsValid(a: NurseAnswer): (r: bool)
    ensures r <==>
      && a.name.Some? && !AllSpace(a.name.value)
      && a.email.Some? && !AllSpace(a.email.value)
      && a.gender.Some? && a.age.Some?
  {
    var name := a.name.GetOr("");
    var email := a.email.GetOr("");
    StripEmptyIff(name);
    StripEmptyIff(email);
    && a.name.Some? && Strip(name) != ""
    && a.email.Some? && Strip(email) != ""
    && a.gender.Some? && a.age.Some?
  }

  function ToProfile(a: NurseAnswer): Db.Profile
    requires IsValid(a)
  {
    Db.Profile(a.name.value, a.email.value, a.gender.value, a.age.value)
  }

  // ---------------------------------------------------------------- the graph

  const NurseStage: Stage := "nurse"
  const CounsellorStage: Stage := "counsellor"
  const PsychologistStage: Stage := "psychologist"
  const PsychiatristStage: Stage := "psychiatrist"

  /** The order every run follows as far as it goes. */
  const MainOrder: seq<Stage> := [NurseStage, CounsellorStage, PsychologistStage, PsychiatristStage]

  function MainGraph(): Graph {
    Graph(
      Some(NurseStage),
      {NurseStage, CounsellorStage, PsychologistStage, PsychiatristStage},
      map[
        NurseStage := Branch("check_identity", Labels({Tag("completed"), Tag("incompleted")}),
                             map["completed" := Node(CounsellorStage), "incompleted" := End]),
        CounsellorStage := Branch("check_emotion", Labels({Tag("positive"), Tag("negative")}),
                                  map["positive" := End, "negative" := Node(PsychologistStage)]),
        PsychologistStage := Branch("check_danger", Labels({Tag("dangerous"), Tag("safe")}),
                                    map["dangerous" := Node(PsychiatristStage), "safe" := End]),
        PsychiatristStage := Direct(End)
      ])
  }

  /** The builder calls that declare the graph, in source order. */
  method DeclareMainGraph() returns (g: Graph)
    ensures g == MainGraph()
  {
    var b := new Builder();
    b.SetEntryPoint(NurseStage);
    b.AddNode(NurseStage);
    b.AddNode(CounsellorStage);
    b.AddNode(PsychologistStage);
    b.AddNode(PsychiatristStage);
    b.AddConditionalEdges(NurseStage, "check_identity", Labels({Tag("completed"), Tag("incompleted")}),
                          map["completed" := Node(CounsellorStage), "incompleted" := End]);
    b.AddConditionalEdges(CounsellorStage, "check_emotion", Labels({Tag("positive"), Tag("negative")}),
                          map["positive" := End, "negative" := Node(PsychologistStage)]);
    b.AddConditionalEdges(PsychologistStage, "check_danger", Labels({Tag("dangerous"), Tag("safe")}),
                          map["dangerous" := Node(PsychiatristStage), "safe" := End]);
    b.AddEdge(PsychiatristStage, End);
    g := b.Declared();
  }

  // ---------------------------------------------------------------- inputs and shared state

  /**
   * What the collaborators answer during one invocation (each stage runs at
   * most once): the model registry, the intake classifier and the nurse's
   * fallback model, whether `insert_case` succeeds, the counsellor's and
   * psychologist's models, the two classifiers, and whether booking e-mail
   * for a given `patient_info` goes through.
   */
  datatype Oracle = Oracle(
    registry: set<string>,
    nurseAnswer: Classified<NurseAnswer>,
    nurseReply: LlmReply,
    insertOk: bool,
    counsellorReply: LlmReply,
    emotion: Classified<Emotion>,
    psychologistReply: LlmReply,
    danger: Classified<bool>,
    notify: Option<Db.Profile> -> bool)

  /** What lives outside the conversation: the module-level `patient_info` and the `cases` table. */
  datatype World = World(patientInfo: Option<Db.Profile>, cases: seq<Db.CaseRow>)

  const ProcessingError: string := "An error occurred during processing."
  const Recorded: string := "Thank you for providing all the necessary information. I have recorded your details."
  const Booked: string := "I have booked a psychiatrist for you. You will be contacted shortly."
  const BookingFailed: string := "An error occurred while booking a psychiatrist."

  function WelcomeBack(p: Db.Profile): string {
    "Welcome back! I found your previous information. "
    + "You are " + p.name + ", "
    + (if p.gender == 1 then "male" else "female") + ", "
    + IntToString(p.age) + " years old. "
  }

  // ---------------------------------------------------------------- handlers

  /**
   * `generic_agent`: the model's answer, or the apology when it raises; the
   * registry lookup comes before the `try`, so an unknown model raises.
   */
  function GenericAgent(known: bool, reply: LlmReply): Result<Message, string> {
    if !known then Failure("KeyError")
    else if reply.Reply? then Success(reply.message)
    else Success(AiText(ProcessingError))
  }

  /** `psychiatrist`: books by e-mail with the current `patient_info`; never raises. */
  function Psychiatrist(sent: bool): Message {
    AiText(if sent then Booked else BookingFailed)
  }

  datatype Nursed = Nursed(world: World, message: Message)

  /**
   * `nurse`: a stored record is copied into `patient_info` with a welcome-back
   * message and no classifier call; otherwise the intake classifier runs, a
   * valid answer overwrites `patient_info` and is stored when `user_id` is
   * truthy (a failed insert is ignored), an invalid one falls back to the
   * nurse model, and a classifier error gives the apology.
   */
  function NurseStep(w: World, userId: Option<string>, o: Oracle, known: bool): (r: Result<Nursed, string>)
    ensures r.Failure? <==> Db.LatestCase(w.cases, userId).None? && !known
    ensures Db.LatestCase(w.cases, userId).Some? ==>
      var p := Db.LatestCase(w.cases, userId).value;
      r == Success(Nursed(w.(patientInfo := Some(p)), AiText(WelcomeBack(p))))
    ensures r.Success? ==> r.value.world.patientInfo == w.patientInfo || r.value.world.patientInfo.Some?
    ensures r.Success? && r.value.world.cases != w.cases ==>
      && Truthy(userId) && o.insertOk && o.nurseAnswer.Answered? && IsValid(o.nurseAnswer.value)
      && r.value.world.patientInfo == Some(ToProfile(o.nurseAnswer.value))
      && r.value.world.cases == w.cases + [Db.CaseRow(userId.value, ToProfile(o.nurseAnswer.value))]
    ensures Db.LatestCase(w.cases, userId).None? ==> r == Intake(w, userId, o, known)
  {
    match Db.LatestCase(w.cases, userId)
    case Some(p) => Success(Nursed(w.(patientInfo := Some(p)), AiText(WelcomeBack(p))))
    case None => Intake(w, userId, o, known)
  }

  /** The intake path of `nurse`, taken when no record is stored for the user id. */
  function Intake(w: World, userId: Option<string>, o: Oracle, known: bool): (r: Result<Nursed, string>)
    ensures r.Failure? <==> !known
    ensures r.Success? ==> r.value.world.patientInfo == w.patientInfo || r.value.world.patientInfo.Some?
    ensures r.Success? && r.value.world.cases != w.cases ==>
      && Truthy(userId) && o.insertOk && o.nurseAnswer.Answered? && IsValid(o.nurseAnswer.value)
      && r.value.world.patientInfo == Some(ToProfile(o.nurseAnswer.value))
      && r.value.world.cases == w.cases + [Db.CaseRow(userId.value, ToProfile(o.nurseAnswer.value))]
    // a classifier error is caught: the apology, and nothing changes
    ensures known && o.nurseAnswer.ClassifierRaised? ==> r == Success(Nursed(w, AiText(ProcessingError)))
    // a valid answer always overwrites `patient_info` and is thanked; it is stored
    // exactly when the user id is truthy and the insert goes through
    ensures known && o.nurseAnswer.Answered? && IsValid(o.nurseAnswer.value) ==>
      var p := ToProfile(o.nurseAnswer.value);
      && r.Success? && r.value.message == AiText(Recorded)
      && r.value.world.patientInfo == Some(p)
      && (r.value.world.cases != w.cases <==> Truthy(userId) && o.insertOk)
      && (r.value.world.cases == if Truthy(userId) && o.insertOk then w.cases + [Db.CaseRow(userId.value, p)] else w.cases)
    // an invalid answer is handed to the generic nurse agent, and nothing changes
    ensures known && o.nurseAnswer.Answered? && !IsValid(o.nurseAnswer.value) ==>
      r == Success(Nursed(w, GenericAgent(true, o.nurseReply).value))
  {
    if !known then Failure("KeyError")
    else match o.nurseAnswer
      case ClassifierRaised(_) => Success(Nursed(w, AiText(ProcessingError)))
      case Answered(a) =>
        if IsValid(a) then
          var p := ToProfile(a);
          var cases := if Truthy(userId) && o.insertOk then w.cases + [Db.CaseRow(userId.value, p)] else w.cases;
          Success(Nursed(World(Some(p), cases), AiText(Recorded)))
        else
          // generic_agent for the nurse; the model was already found
          Success(Nursed(w, GenericAgent(true, o.nurseReply).value))
  }

  /** The handlers other than `nurse`, which leave `World` alone. */
  function OtherStage(o: Oracle, cfg: Config, s: Stage, info: Option<Db.Profile>): Result<Message, string> {
    var known := ModelKnown(cfg, o.registry);
    if s == CounsellorStage then GenericAgent(known, o.counsellorReply)
    else if s == PsychologistStage then GenericAgent(known, o.psychologistReply)
    else if s == PsychiatristStage then Success(Psychiatrist(o.notify(info)))
    else Failure("unknown node")
  }

  function Handle(o: Oracle, cfg: Config, s: Stage, st: State<World>): Handled<World> {
    if s == NurseStage then
      match NurseStep(st.extra, cfg.userId, o, ModelKnown(cfg, o.registry))
      case Success(n) => Returned(Delta([n.message], n.world))
      case Failure(e) => Raised(e)
    else
      match OtherStage(o, cfg, s, st.extra.patientInfo)
      case Success(m) => Returned(Delta([m], st.extra))
      case Failure(e) => Raised(e)
  }

  // ---------------------------------------------------------------- edge functions

  /** `check_identity`: "completed" exactly when `user_id` is truthy and `cases` holds a row for it. */
  function CheckIdentity(userId: Option<string>, cases: seq<Db.CaseRow>): (r: Label)
    ensures r == Tag("completed") || r == Tag("incompleted")
    ensures r == Tag("completed") <==> Truthy(userId) && exists i | 0 <= i < |cases| :: cases[i].userId == userId.value
  {
    if Truthy(userId) && Db.LatestCase(cases, userId).Some? then Tag("completed") else Tag("incompleted")
  }

  /** `check_emotion`: the classifier's label, "negative" when it raises; an unknown model raises before the `try`. */
  function CheckEmotion(known: bool, c: Classified<Emotion>): (r: Decision)
    ensures r.RouterRaised? <==> !known
    ensures r.Chose? ==> r.chosen == Tag("positive") || r.chosen == Tag("negative")
    ensures r == Chose(Tag("positive")) <==> known && c == Answered(Positive)
  {
    if !known then RouterRaised("KeyError")
    else match c
      case Answered(Positive) => Chose(Tag("positive"))
      case Answered(Negative) => Chose(Tag("negative"))
      case ClassifierRaised(_) => Chose(Tag("negative"))
  }

  /** `check_danger`: "dangerous" exactly when the classifier says so; "safe" when it says no or raises. */
  function CheckDanger(known: bool, c: Classified<bool>): (r: Decision)
    ensures r.RouterRaised? <==> !known
    ensures r.Chose? ==> r.chosen == Tag("dangerous") || r.chosen == Tag("safe")
    ensures r == Chose(Tag("dangerous")) <==> known && c == Answered(true)
  {
    if !known then RouterRaised("KeyError")
    else match c
      case Answered(dangerous) => Chose(Tag(if dangerous then "dangerous" else "safe"))
      case ClassifierRaised(_) => Chose(Tag("safe"))
  }

  function Route(o: Oracle, cfg: Config, s: Stage, st: State<World>): Decision {
    var known := ModelKnown(cfg, o.registry);
    if s == NurseStage then Chose(CheckIdentity(cfg.userId, st.extra.cases))
    else if s == CounsellorStage then CheckEmotion(known, o.emotion)
    else if s == PsychologistStage then CheckDanger(known, o.danger)
    else RouterRaised("no edge function")
  }

  function MainHandler(o: Oracle, cfg: Config): StateGraph.Handler<World> {
    (s: Stage, k: nat, st: State<World>) => Handle(o, cfg, s, st)
  }

  function MainRouter(o: Oracle, cfg: Config): StateGraph.Router<World> {
    (s: Stage, k: nat, st: State<World>) => Route(o, cfg, s, st)
  }

  /** One invocation of the compiled main graph. */
  function MainRun(o: Oracle, cfg: Config, st: State<World>, budget: nat): Outcome<World> {
    Execute(MainGraph(), MainHandler(o, cfg), MainRouter(o, cfg), st, budget)
  }

  // ---------------------------------------------------------------- the graph as declared

  /** The declared graph is valid: entry and edges between declared stages, and every classifier label has a path. */
  lemma MainGraphValid()
    ensures Valid(MainGraph())
  {
    MainGraphWellFormed();
    MainGraphCovered();
  }

  lemma MainGraphWellFormed()
    ensures WellFormed(MainGraph())
  {
  }

  lemma MainGraphCovered()
    ensures var g := MainGraph();
      forall s | s in g.edges && g.edges[s].Branch? :: Covers(g.edges[s].range, g.edges[s].paths)
  {
    var g := MainGraph();
    TwoLabelsCovered("completed", "incompleted", Node(CounsellorStage), End);
    TwoLabelsCovered("positive", "negative", End, Node(PsychologistStage));
    TwoLabelsCovered("dangerous", "safe", Node(PsychiatristStage), End);
    forall s | s in g.edges && g.edges[s].Branch?
      ensures Covers(g.edges[s].range, g.edges[s].paths)
    {
      assert s == NurseStage || s == CounsellorStage || s == PsychologistStage;
    }
  }

  lemma MainRoutersInRange(o: Oracle, cfg: Config)
    ensures RoutersInRange(MainGraph(), MainRouter(o, cfg))
  {
    var g, route := MainGraph(), MainRouter(o, cfg);
    forall s, k, st | Routed(g, s) && route(s, k, st).Chose?
      ensures InRange(route(s, k, st).chosen, g.edges[s].range)
    {
      assert s == NurseStage || s == CounsellorStage || s == PsychologistStage;
    }
  }

  /** No edge leaves the line nurse, counsellor, psychologist, psychiatrist, skips a stage or goes back. */
  lemma MainGraphIsChain()
    ensures Chain(MainGraph(), MainOrder)
  {
    var g := MainGraph();
    forall i: nat, l: Label | i < |MainOrder|
      ensures ChainStep(g, MainOrder, i, l)
    {
      assert i == 0 || i == 1 || i == 2 || i == 3;
    }
  }

  /** With a known model, neither a handler of the graph nor an edge function raises. */
  lemma KnownModelNeverRaises(o: Oracle, cfg: Config)
    requires ModelKnown(cfg, o.registry)
    ensures NeverRaises(MainGraph(), MainHandler(o, cfg), MainRouter(o, cfg))
  {
    var g, handle, route := MainGraph(), MainHandler(o, cfg), MainRouter(o, cfg);
    forall s, k, st | s in g.stages
      ensures handle(s, k, st).Returned?
    {
      assert s == NurseStage || s == CounsellorStage || s == PsychologistStage || s == PsychiatristStage;
    }
    forall s, k, st | Routed(g, s)
      ensures route(s, k, st).Chose?
    {
      assert s == NurseStage || s == CounsellorStage || s == PsychologistStage;
    }
  }

  /** The identity check never raises, and both its answers have a path. */
  lemma NurseAlwaysRoutes(o: Oracle, cfg: Config, st: State<World>)
    ensures Routed(MainGraph(), NurseStage)
    ensures MainRouter(o, cfg)(NurseStage, 0, st).Chose?
    ensures Successor(MainGraph(), NurseStage, Route(o, cfg, NurseStage, st).chosen).Some?
  {
  }

  /** Every invocation follows nurse, counsellor, psychologist, psychiatrist as far as it goes, and four steps always suffice. */
  lemma MainRunOrder(o: Oracle, cfg: Config, st: State<World>, budget: nat)
    ensures var out := MainRun(o, cfg, st, budget);
      && |out.visited| <= |MainOrder|
      && out.visited == MainOrder[..|out.visited|]
      && (budget >= |MainOrder| ==> !out.status.OutOfSteps?)
  {
    MainGraphIsChain();
    ChainRun(MainGraph(), MainHandler(o, cfg), MainRouter(o, cfg), MainOrder, 0, st, 0, budget, []);
  }

  /** Each completed stage adds exactly one message to the conversation, and none is removed. */
  lemma MainRunMessages(o: Oracle, cfg: Config, st: State<World>, budget: nat)
    ensures var out := MainRun(o, cfg, st, budget);
      && st.messages <= out.state.messages
      && |out.state.messages| == |st.messages| + |out.visited|
  {
    var g, handle, route := MainGraph(), MainHandler(o, cfg), MainRouter(o, cfg);
    RunBounds(g, handle, route, Node(NurseStage), st, 0, budget, []);
    assert OneMessageEach(handle);
    OneMessagePerStage(g, handle, route, Node(NurseStage), st, 0, budget, []);
  }

  /** No classifier answer can leave a run without a path. */
  lemma MainRunAlwaysRoutes(o: Oracle, cfg: Config, st: State<World>, budget: nat)
    ensures !MainRun(o, cfg, st, budget).status.NoRoute?
  {
    MainGraphValid();
    MainRoutersInRange(o, cfg);
    ValidRunAlwaysRoutes(MainGraph(), MainHandler(o, cfg), MainRouter(o, cfg), Node(NurseStage), st, 0, budget, []);
  }

  /** With a known model no run fails, whatever the classifiers, the models or the database do. */
  lemma KnownModelNeverFails(o: Oracle, cfg: Config, st: State<World>, budget: nat)
    requires ModelKnown(cfg, o.registry)
    ensures !MainRun(o, cfg, st, budget).status.Failed?
  {
    MainGraphValid();
    KnownModelNeverRaises(o, cfg);
    NothingRaisedNothingFails(MainGraph(), MainHandler(o, cfg), MainRouter(o, cfg), Node(NurseStage), st, 0, budget, []);
  }

  // ---------------------------------------------------------------- the graph written out by hand

  /** The psychiatrist books and the run ends. */
  function Book(o: Oracle, s3: State<World>): Outcome<World> {
    Outcome(State(s3.messages + [Psychiatrist(o.notify(s3.extra.patientInfo))], s3.extra), MainOrder, Finished)
  }

  /** The psychologist answers; only a "dangerous" reading goes on to booking. */
  function Assess(o: Oracle, s2: State<World>): Outcome<World> {
    var s3 := State(s2.messages + [GenericAgent(true, o.psychologistReply).value], s2.extra);
    if o.danger == Answered(true) then Book(o, s3)
    else Outcome(s3, [NurseStage, CounsellorStage, PsychologistStage], Finished)
  }

  /** The counsellor answers; only a non-positive reading goes on to assessment. */
  function Counsel(o: Oracle, cfg: Config, s1: State<World>): Outcome<World> {
    if !ModelKnown(cfg, o.registry) then Outcome(s1, [NurseStage], Failed(CounsellorStage, "KeyError"))
    else
      var s2 := State(s1.messages + [GenericAgent(true, o.counsellorReply).value], s1.extra);
      if o.emotion == Answered(Positive) then Outcome(s2, [NurseStage, CounsellorStage], Finished)
      else Assess(o, s2)
  }

  /**
   * The pipeline as straight-line code: intake; stop unless the identity
   * check passes; counsel; stop on a positive reading; assess; stop unless
   * the danger check says dangerous; book.
   */
  function Scripted(o: Oracle, cfg: Config, st: State<World>): Outcome<World> {
    match NurseStep(st.extra, cfg.userId, o, ModelKnown(cfg, o.registry))
    case Failure(e) => Outcome(st, [], Failed(NurseStage, e))
    case Success(n) =>
      var s1 := State(st.messages + [n.message], n.world);
      if CheckIdentity(cfg.userId, n.world.cases) == Tag("incompleted") then Outcome(s1, [NurseStage], Finished)
      else Counsel(o, cfg, s1)
  }

  lemma FromPsychiatrist(o: Oracle, cfg: Config, s3: State<World>, budget: nat)
    requires budget >= 4
    ensures Run(MainGraph(), MainHandler(o, cfg), MainRouter(o, cfg), Node(PsychiatristStage), s3, 3, budget,
                [NurseStage, CounsellorStage, PsychologistStage]) == Book(o, s3)
  {
    var g := MainGraph();
    var d := Delta([Psychiatrist(o.notify(s3.extra.patientInfo))], s3.extra);
    assert !Routed(g, PsychiatristStage);
    RunStep(g, MainHandler(o, cfg), MainRouter(o, cfg), PsychiatristStage, s3, 3, budget,
            [NurseStage, CounsellorStage, PsychologistStage], d, Null, End);
  }

  lemma FromPsychologist(o: Oracle, cfg: Config, s2: State<World>, budget: nat)
    requires budget >= 4 && ModelKnown(cfg, o.registry)
    ensures Run(MainGraph(), MainHandler(o, cfg), MainRouter(o, cfg), Node(PsychologistStage), s2, 2, budget,
                [NurseStage, CounsellorStage]) == Assess(o, s2)
  {
    var g := MainGraph();
    var d := Delta([GenericAgent(true, o.psychologistReply).value], s2.extra);
    var risk := CheckDanger(true, o.danger);
    assert Routed(g, PsychologistStage);
    if o.danger == Answered(true) {
      RunStep(g, MainHandler(o, cfg), MainRouter(o, cfg), PsychologistStage, s2, 2, budget,
              [NurseStage, CounsellorStage], d, risk.chosen, Node(PsychiatristStage));
      assert [NurseStage, CounsellorStage] + [PsychologistStage] == [NurseStage, CounsellorStage, PsychologistStage];
      FromPsychiatrist(o, cfg, Merge(s2, d), budget);
    } else {
      RunStep(g, MainHandler(o, cfg), MainRouter(o, cfg), PsychologistStage, s2, 2, budget,
              [NurseStage, CounsellorStage], d, risk.chosen, End);
      assert [NurseStage, CounsellorStage] + [PsychologistStage] == [NurseStage, CounsellorStage, PsychologistStage];
    }
  }

  lemma FromCounsellor(o: Oracle, cfg: Config, s1: State<World>, budget: nat)
    requires budget >= 4
    ensures Run(MainGraph(), MainHandler(o, cfg), MainRouter(o, cfg), Node(CounsellorStage), s1, 1, budget,
                [NurseStage]) == Counsel(o, cfg, s1)
  {
    var g := MainGraph();
    if ModelKnown(cfg, o.registry) {
      var d := Delta([GenericAgent(true, o.counsellorReply).value], s1.extra);
      var feel := CheckEmotion(true, o.emotion);
      assert Routed(g, CounsellorStage);
      assert [NurseStage] + [CounsellorStage] == [NurseStage, CounsellorStage];
      if o.emotion == Answered(Positive) {
        RunStep(g, MainHandler(o, cfg), MainRouter(o, cfg), CounsellorStage, s1, 1, budget, [NurseStage], d, feel.chosen, End);
      } else {
        RunStep(g, MainHandler(o, cfg), MainRouter(o, cfg), CounsellorStage, s1, 1, budget, [NurseStage], d, feel.chosen,
                Node(PsychologistStage));
        FromPsychologist(o, cfg, Merge(s1, d), budget);
      }
    }
  }

  lemma FromNurse(o: Oracle, cfg: Config, st: State<World>, budget: nat)
    requires budget >= 4
    ensures Run(MainGraph(), MainHandler(o, cfg), MainRouter(o, cfg), Node(NurseStage), st, 0, budget, [])
              == Scripted(o, cfg, st)
  {
    var nursed := NurseStep(st.extra, cfg.userId, o, ModelKnown(cfg, o.registry));
    if nursed.Success? {
      AfterNurse(o, cfg, st, budget, nursed.value);
    }
  }

  lemma NurseHandled(o: Oracle, cfg: Config, st: State<World>, n: Nursed)
    requires NurseStep(st.extra, cfg.userId, o, ModelKnown(cfg, o.registry)) == Success(n)
    ensures MainHandler(o, cfg)(NurseStage, 0, st) == Returned(Delta([n.message], n.world))
  {
  }

  lemma NurseRouted(o: Oracle, cfg: Config, st: State<World>)
    ensures MainRouter(o, cfg)(NurseStage, 0, st) == Chose(CheckIdentity(cfg.userId, st.extra.cases))
  {
  }

  /** A nurse step that returned `n`: END on "incompleted", the counsellor on "completed". */
  lemma AfterNurse(o: Oracle, cfg: Config, st: State<World>, budget: nat, n: Nursed)
    requires budget >= 4
    requires NurseStep(st.extra, cfg.userId, o, ModelKnown(cfg, o.registry)) == Success(n)
    ensures var s1 := State(st.messages + [n.message], n.world);
      Run(MainGraph(), MainHandler(o, cfg), MainRouter(o, cfg), Node(NurseStage), st, 0, budget, [])
        == if CheckIdentity(cfg.userId, n.world.cases) == Tag("incompleted") then Outcome(s1, [NurseStage], Finished)
           else Counsel(o, cfg, s1)
  {
    var id := CheckIdentity(cfg.userId, n.world.cases);
    var d := Delta([n.message], n.world);
    NurseHandled(o, cfg, st, n);
    NurseRouted(o, cfg, Merge(st, d));
    if id == Tag("incompleted") {
      NurseStepTo(o, cfg, st, budget, d, id, End);
    } else {
      NurseStepTo(o, cfg, st, budget, d, id, Node(CounsellorStage));
      FromCounsellor(o, cfg, Merge(st, d), budget);
    }
  }

  /** One step of the nurse that returned `d` and whose edge function said `id`, leading to `t`. */
  lemma NurseStepTo(o: Oracle, cfg: Config, st: State<World>, budget: nat, d: Delta<World>, id: Label, t: Target)
    requires budget >= 1
    requires MainHandler(o, cfg)(NurseStage, 0, st) == Returned(d)
    requires MainRouter(o, cfg)(NurseStage, 0, Merge(st, d)) == Chose(id)
    requires Successor(MainGraph(), NurseStage, id) == Some(t)
    ensures Run(MainGraph(), MainHandler(o, cfg), MainRouter(o, cfg), Node(NurseStage), st, 0, budget, [])
         == Run(MainGraph(), MainHandler(o, cfg), MainRouter(o, cfg), t, Merge(st, d), 1, budget, [NurseStage])
  {
    var g := MainGraph();
    assert Routed(g, NurseStage);
    assert [] + [NurseStage] == [NurseStage];
    RunStep(g, MainHandler(o, cfg), MainRouter(o, cfg), NurseStage, st, 0, budget, [], d, id, t);
  }



  /** Given four steps, the compiled graph does exactly what the straight-line pipeline does. */
  lemma MainRunIsScripted(o: Oracle, cfg: Config, st: State<World>, budget: nat)
    requires budget >= |MainOrder|
    ensures MainRun(o, cfg, st, budget) == Scripted(o, cfg, st)
  {
    FromNurse(o, cfg, st, budget);
  }

  // ---------------------------------------------------------------- scenarios

  /**
   * The psychiatrist is reached exactly when the model is known, the identity
   * check passes after intake, the emotion reading is not "positive" (a
   * failed reading counts as "negative") and the danger reading is
   * "dangerous" (a failed reading counts as "safe"); its one message says
   * whether the booking e-mail for the current `patient_info` went out.
   */
  lemma PsychiatristExactlyWhen(o: Oracle, cfg: Config, st: State<World>, budget: nat)
    requires budget >= |MainOrder|
    ensures var out := MainRun(o, cfg, st, budget);
      var n := NurseStep(st.extra, cfg.userId, o, ModelKnown(cfg, o.registry));
      && (PsychiatristStage in out.visited <==>
            && ModelKnown(cfg, o.registry) && n.Success?
            && CheckIdentity(cfg.userId, n.value.world.cases) == Tag("completed")
            && o.emotion != Answered(Positive)
            && o.danger == Answered(true))
      && (PsychiatristStage in out.visited ==>
            |out.state.messages| > 0 &&
            out.state.messages[|out.state.messages| - 1]
              == AiText(if o.notify(n.value.world.patientInfo) then Booked else BookingFailed))
  {
    MainRunIsScripted(o, cfg, st, budget);
    assert PsychiatristStage !in [NurseStage, CounsellorStage, PsychologistStage];
  }

  /**
   * A new patient with a user id who gives complete details is recorded (the
   * row is appended and `patient_info` overwritten), thanked, and passed on
   * to the counsellor.
   */
  lemma NewPatientIsRecorded(o: Oracle, cfg: Config, st: State<World>, budget: nat, a: NurseAnswer)
    requires budget >= |MainOrder| && ModelKnown(cfg, o.registry)
    requires Truthy(cfg.userId) && Db.LatestCase(st.extra.cases, cfg.userId).None?
    requires o.nurseAnswer == Answered(a) && IsValid(a) && o.insertOk
    ensures var out := MainRun(o, cfg, st, budget);
      && out.status == Finished
      && |out.visited| >= 2 && out.visited[0] == NurseStage && out.visited[1] == CounsellorStage
      && |out.state.messages| > |st.messages|
      && out.state.messages[|st.messages|] == AiText(Recorded)
      && out.state.extra == World(Some(ToProfile(a)), st.extra.cases + [Db.CaseRow(cfg.userId.value, ToProfile(a))])
  {
    MainRunIsScripted(o, cfg, st, budget);
    var p := ToProfile(a);
    var w := World(Some(p), st.extra.cases + [Db.CaseRow(cfg.userId.value, p)]);
    assert NurseStep(st.extra, cfg.userId, o, true) == Success(Nursed(w, AiText(Recorded)));
    Db.LatestAfterInsert(st.extra.cases, cfg.userId.value, p, cfg.userId);
    assert CheckIdentity(cfg.userId, w.cases) == Tag("completed");
    var s1 := State(st.messages + [AiText(Recorded)], w);
    assert Scripted(o, cfg, st) == Counsel(o, cfg, s1);
    CounselShape(o, cfg, s1);
    assert s1.messages[|st.messages|] == AiText(Recorded);
  }

  /** Past the counsellor with a known model: the run finishes, the world is left alone and the history only grows. */
  lemma CounselShape(o: Oracle, cfg: Config, s1: State<World>)
    requires ModelKnown(cfg, o.registry)
    ensures var out := Counsel(o, cfg, s1);
      && out.status == Finished
      && |out.visited| >= 2 && out.visited[0] == NurseStage && out.visited[1] == CounsellorStage
      && out.state.extra == s1.extra
      && s1.messages <= out.state.messages
      && |out.state.messages| > |s1.messages|
      && out.state.messages[|s1.messages|] == GenericAgent(true, o.counsellorReply).value
  {
  }

  /**
   * Without a user id the details can be collected, and `patient_info`
   * overwritten (an empty id can still match a stored row, which is then
   * welcomed back instead), but nothing is stored and the identity check never passes:
   * the run stops after the nurse.
   */
  lemma WithoutUserIdOnlyTheNurse(o: Oracle, cfg: Config, st: State<World>, budget: nat)
    requires budget >= |MainOrder| && !Truthy(cfg.userId)
    ensures var out := MainRun(o, cfg, st, budget);
      && out.visited <= [NurseStage]
      && out.state.extra.cases == st.extra.cases
      && (&& ModelKnown(cfg, o.registry) && Db.LatestCase(st.extra.cases, cfg.userId).None?
          && o.nurseAnswer.Answered? && IsValid(o.nurseAnswer.value) ==>
            out.state.extra.patientInfo == Some(ToProfile(o.nurseAnswer.value)))
  {
    MainRunIsScripted(o, cfg, st, budget);
    match NurseStep(st.extra, cfg.userId, o, ModelKnown(cfg, o.registry))
    case Failure(_) =>
    case Success(n) =>
      assert CheckIdentity(cfg.userId, n.world.cases) == Tag("incompleted");
  }

  /**
   * A new patient whose intake records nothing (the classifier raised, or the
   * answer was incomplete) gets one message, the apology or the nurse
   * model's reply, the world is left as it was, and the run ends after the nurse.
   */
  lemma UnrecordedIntakeEndsAtNurse(o: Oracle, cfg: Config, st: State<World>, budget: nat)
    requires budget >= |MainOrder| && ModelKnown(cfg, o.registry)
    requires Db.LatestCase(st.extra.cases, cfg.userId).None?
    requires o.nurseAnswer.ClassifierRaised? || (o.nurseAnswer.Answered? && !IsValid(o.nurseAnswer.value))
    ensures var m := if o.nurseAnswer.ClassifierRaised? then AiText(ProcessingError) else GenericAgent(true, o.nurseReply).value;
      MainRun(o, cfg, st, budget) == Outcome(State(st.messages + [m], st.extra), [NurseStage], Finished)
  {
    MainRunIsScripted(o, cfg, st, budget);
  }

  /**
   * A returning patient is greeted with the stored record, which also
   * becomes `patient_info`; no classifier runs, nothing is stored, and with a
   * truthy user id the run goes on to the counsellor.
   */
  lemma ReturningPatientIsWelcomed(o: Oracle, cfg: Config, st: State<World>, budget: nat, p: Db.Profile)
    requires budget >= |MainOrder| && Truthy(cfg.userId)
    requires Db.LatestCase(st.extra.cases, cfg.userId) == Some(p)
    ensures var out := MainRun(o, cfg, st, budget);
      && |out.state.messages| > |st.messages|
      && out.state.messages[|st.messages|] == AiText(WelcomeBack(p))
      && out.state.extra == World(Some(p), st.extra.cases)
      && |out.visited| >= 1 && out.visited[0] == NurseStage
      && (ModelKnown(cfg, o.registry) ==> |out.visited| >= 2)
  {
    MainRunIsScripted(o, cfg, st, budget);
  }

  /** A model that raises inside a counsellor's `try` costs the patient an apology, not the run. */
  lemma CounsellorErrorIsApology(o: Oracle, cfg: Config, st: State<World>, budget: nat)
    requires budget >= |MainOrder| && ModelKnown(cfg, o.registry) && o.counsellorReply.LlmRaised?
    ensures var out := MainRun(o, cfg, st, budget);
      CounsellorStage in out.visited ==>
        && out.status == Finished
        && |out.state.messages| > |st.messages| + 1
        && out.state.messages[|st.messages| + 1] == AiText(ProcessingError)
  {
    MainRunIsScripted(o, cfg, st, budget);
    ScriptedCounsellorApology(o, cfg, st);
  }

  lemma ScriptedCounsellorApology(o: Oracle, cfg: Config, st: State<World>)
    requires ModelKnown(cfg, o.registry) && o.counsellorReply.LlmRaised?
    ensures var out := Scripted(o, cfg, st);
      CounsellorStage in out.visited ==>
        && out.status == Finished
        && |out.state.messages| > |st.messages| + 1
        && out.state.messages[|st.messages| + 1] == AiText(ProcessingError)
  {
    ScriptedCounsels(o, cfg, st);
    var nursed := NurseStep(st.extra, cfg.userId, o, true);
    if nursed.Success? {
      CounselShape(o, cfg, State(st.messages + [nursed.value.message], nursed.value.world));
    }
  }

  /** Whenever the scripted run reaches the counsellor, it is intake followed by `Counsel`. */
  lemma ScriptedCounsels(o: Oracle, cfg: Config, st: State<World>)
    ensures var out := Scripted(o, cfg, st);
      var nursed := NurseStep(st.extra, cfg.userId, o, ModelKnown(cfg, o.registry));
      CounsellorStage in out.visited ==>
        && nursed.Success?
        && out == Counsel(o, cfg, State(st.messages + [nursed.value.message], nursed.value.world))
  {
    assert CounsellorStage !in [];
    assert CounsellorStage !in [NurseStage];
  }

  // ---------------------------------------------------------------- the running agent

  /**
   * The compiled agent with its surroundings: the module-level `patient_info`
   * shared by every conversation, the database, and the checkpointer's saved
   * histories keyed by thread id.
   */
  class MainAgent {
    var patientInfo: Option<Db.Profile>
    const db: Db.Database
    var threads: map<string, seq<Message>>

    constructor (db: Db.Database)
      ensures this.db == db && patientInfo == None && threads == map[]
    {
      this.db := db;
      patientInfo := None;
      threads := map[];
    }

    function Current(): World
      reads this, db
    {
      World(patientInfo, db.cases)
    }

    function History(thread: string): seq<Message>
      reads this
    {
      if thread in threads then threads[thread] else []
    }

    /** `nurse`, acting on `patient_info` and the `cases` table in place. */
    method Nurse(cfg: Config, o: Oracle) returns (r: Result<Message, string>)
      modifies this, db
      ensures var n := NurseStep(old(Current()), cfg.userId, o, ModelKnown(cfg, o.registry));
        && (n.Success? ==> r == Success(n.value.message) && Current() == n.value.world)
        && (n.Failure? ==> r == Failure(n.error) && Current() == old(Current()))
      ensures threads == old(threads) && db.users == old(db.users) && db.conversations == old(db.conversations)
    {
      var existing := db.PatientByUserId(cfg.userId);
      if existing.Some? {
        patientInfo := existing;
        r := Success(AiText(WelcomeBack(existing.value)));
      } else {
        r := RecordIntake(cfg, o);
      }
    }

    /** The intake path of `nurse`: classify, overwrite `patient_info` and store the case when there is a user id. */
    method RecordIntake(cfg: Config, o: Oracle) returns (r: Result<Message, string>)
      modifies this, db
      ensures var n := Intake(old(Current()), cfg.userId, o, ModelKnown(cfg, o.registry));
        && (n.Success? ==> r == Success(n.value.message) && Current() == n.value.world)
        && (n.Failure? ==> r == Failure(n.error) && Current() == old(Current()))
      ensures threads == old(threads) && db.users == old(db.users) && db.conversations == old(db.conversations)
    {
      ghost var w := Current();
      ghost var n := Intake(w, cfg.userId, o, ModelKnown(cfg, o.registry));
      if !ModelKnown(cfg, o.registry) {
        r := Failure("KeyError");
        assert n == Failure(r.error);
      } else {
        match o.nurseAnswer {
          case ClassifierRaised(_) =>
            r := Success(AiText(ProcessingError));
            assert n == Success(Nursed(w, r.value));
          case Answered(a) =>
            if IsValid(a) {
              var p := ToProfile(a);
              patientInfo := Some(p);
              if Truthy(cfg.userId) && o.insertOk {
                db.InsertCase(cfg.userId.value, p);
              }
              r := Success(AiText(Recorded));
              assert n == Success(Nursed(Current(), r.value));
            } else {
              r := Success(if o.nurseReply.Reply? then o.nurseReply.message else AiText(ProcessingError));
              assert n == Success(Nursed(w, r.value));
            }
        }
      }
    }

    /** Runs the node function of stage `s` on the history `msgs`: the handler of the graph, acting in place. */
    method RunNode(cfg: Config, o: Oracle, s: Stage, k: nat, msgs: seq<Message>) returns (reply: Result<Message, string>)
      modifies this, db
      ensures MainHandler(o, cfg)(s, k, State(msgs, old(Current())))
           == if reply.Success? then Returned(Delta([reply.value], Current())) else Raised(reply.error)
      ensures reply.Failure? || s != NurseStage ==> Current() == old(Current())
      ensures threads == old(threads) && db.users == old(db.users) && db.conversations == old(db.conversations)
    {
      if s == NurseStage {
        reply := Nurse(cfg, o);
      } else {
        reply := OtherStage(o, cfg, s, patientInfo);
      }
    }

    /**
     * `ainvoke({"messages": [input]}, config)` on a thread: the input joins
     * the thread's saved history, the steps run in place, and the history
     * after the last completed step is saved for that thread.
     */
    method Invoke(thread: string, input: string, cfg: Config, o: Oracle, budget: nat) returns (out: Outcome<World>)
      modifies this, db
      ensures out == MainRun(o, cfg, State(old(History(thread)) + [HumanText(input)], old(Current())), budget)
      ensures Current() == out.state.extra
      ensures threads == old(threads)[thread := out.state.messages]
      ensures db.users == old(db.users) && db.conversations == old(db.conversations)
    {
      var g := MainGraph();
      var msgs := History(thread) + [HumanText(input)];
      ghost var spec := MainRun(o, cfg, State(msgs, Current()), budget);
      var at := Node(NurseStage);
      var k := 0;
      var visited: seq<Stage> := [];
      var stopped := false;
      out := Outcome(State(msgs, Current()), visited, Finished);
      while !stopped && at.Node? && k < budget
        invariant !stopped ==> spec == Run(g, MainHandler(o, cfg), MainRouter(o, cfg), at, State(msgs, Current()), k, budget, visited)
        invariant stopped ==> out == spec && out.state.extra == Current()
        invariant threads == old(threads) && db.users == old(db.users) && db.conversations == old(db.conversations)
        decreases budget - k, if stopped then 0 else 1
      {
        var s := at.stage;
        var prev := State(msgs, Current());
        var reply := RunNode(cfg, o, s, k, msgs);
        match reply {
          case Failure(e) =>
            out, stopped := Outcome(prev, visited, Failed(s, e)), true;
          case Success(m) =>
            NurseAlwaysRoutes(o, cfg, State(msgs + [m], Current()));
            var decision := if Routed(g, s) then Route(o, cfg, s, State(msgs + [m], Current())) else Chose(Null);
            match decision {
              case RouterRaised(e) =>
                out, stopped := Outcome(prev, visited, Failed(s, e)), true;
              case Chose(l) =>
                match Successor(g, s, l) {
                  case None =>
                    out, stopped := Outcome(prev, visited, NoRoute(s, l)), true;
                  case Some(t) =>
                    at, msgs, k, visited := t, msgs + [m], k + 1, visited + [s];
                }
            }
        }
      }
      if !stopped {
        out := Outcome(State(msgs, Current()), visited, if at.End? then Finished else OutOfSteps);
      }
      threads := threads[thread := out.state.messages];
    }
  }
}
