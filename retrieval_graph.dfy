/** The plan-driven research graph (`src/retrieval_graph/graph.py`): the
    post-processing of the query classifier, the routing functions, the
    state updates of the planning and research nodes, and the edges that
    wire them together. The language model's outputs and the retriever's
    results are inputs. */
module RetrievalGraph {
  import opened Common
  import opened Text
  import SharedState

  const LegalQuestion := "lovspørsmål"
  const MoreInfo := "mer-info"
  const General := "generelt"

  /** The logic recorded when classification raised. */
  const FallbackLogic := "Feilsituasjon oppstod, bruker lovspørsmål som standard"
  /** The logic recorded by the keyword override, before the quoted message. */
  const OverridePrefix := "Spørsmålet inneholder lovrelaterte nøkkelord: "

  /** The words whose presence in the lower-cased question overrides a
      `generelt` classification. */
  const Keywords: seq<string> :=
    ["lov", "lovverk", "paragraf", "forskrift", "juss", "rett", "rettslig", "innsyn", "offentlig"]

  /** The classification stored in the state under `router`. */
  datatype Router = Router(kind: string, logic: string)

  /** What the structured-output call returned; either field may be missing. */
  datatype RawRouter = RawRouter(kind: Option<string>, logic: Option<string>)

  predicate MentionsLaw(text: string)
  {
    exists i | 0 <= i < |Keywords| :: Contains(text, Keywords[i])
  }

  /** The classifier's answer after the defaults for missing fields and the
      keyword override, for the given last user message. */
  function Classify(raw: RawRouter, lastMessage: string): (r: Router)
    ensures raw.kind == None ==> r.kind == LegalQuestion
    ensures raw.kind.Some? && raw.kind.value != General ==> r.kind == raw.kind.value
    ensures raw.kind != Some(General) ==> r.logic == (if raw.logic.Some? then raw.logic.value else "")
    ensures raw.kind == Some(General) && MentionsLaw(Lower(lastMessage)) ==>
              r == Router(LegalQuestion, OverridePrefix + Lower(lastMessage))
    ensures raw.kind == Some(General) && !MentionsLaw(Lower(lastMessage)) ==>
              r == Router(General, if raw.logic.Some? then raw.logic.value else "")
    ensures r.kind == General ==> !MentionsLaw(Lower(lastMessage))
  {
    var kind := if raw.kind.Some? then raw.kind.value else LegalQuestion;
    var logic := if raw.logic.Some? then raw.logic.value else "";
    var lowered := Lower(lastMessage);
    if kind == General && MentionsLaw(lowered) then Router(LegalQuestion, OverridePrefix + lowered)
    else Router(kind, logic)
  }

  /** `analyze_and_route_query`: `classified` is `None` when the
      structured-output call raised. The last message is read before the
      `try`, so an empty conversation raises instead of falling back. */
  method AnalyzeAndRoute(messages: seq<string>, classified: Option<RawRouter>) returns (r: Result<Router>)
    ensures |messages| == 0 <==> r.Err?
    ensures |messages| == 0 ==> r == Err("IndexError")
    ensures |messages| > 0 && classified.None? ==> r == Ok(Router(LegalQuestion, FallbackLogic))
    ensures |messages| > 0 && classified.Some? ==>
              r == Ok(Classify(classified.value, messages[|messages| - 1]))
  {
    if |messages| == 0 {
      return Err("IndexError");
    }
    if classified.None? {
      return Ok(Router(LegalQuestion, FallbackLogic));
    }
    var response := classified.value;
    var kind: string;
    var logic: string;
    if response.kind.None? {
      kind := LegalQuestion;
    } else {
      kind := response.kind.value;
    }
    if response.logic.None? {
      logic := "";
    } else {
      logic := response.logic.value;
    }
    var lastMessage := Lower(messages[|messages| - 1]);
    if kind == General && MentionsLaw(lastMessage) {
      kind := LegalQuestion;
      logic := OverridePrefix + lastMessage;
    }
    return Ok(Router(kind, logic));
  }

  /** Two of the nine keywords are redundant: "lovverk" holds "lov" and
      "rettslig" holds "rett". */
  lemma MentionsLawSeven(text: string)
    ensures MentionsLaw(text) <==>
              Contains(text, "lov") || Contains(text, "paragraf") || Contains(text, "forskrift")
              || Contains(text, "juss") || Contains(text, "rett") || Contains(text, "innsyn")
              || Contains(text, "offentlig")
  {
    if Contains(text, "lovverk") {
      assert OccursAt("lovverk", "lov", 0);
      ContainsWithin(text, "lovverk", "lov", 0);
    }
    if Contains(text, "rettslig") {
      assert OccursAt("rettslig", "rett", 0);
      ContainsWithin(text, "rettslig", "rett", 0);
    }
    if Contains(text, "lov") { assert Contains(text, Keywords[0]); }
    if Contains(text, "paragraf") { assert Contains(text, Keywords[2]); }
    if Contains(text, "forskrift") { assert Contains(text, Keywords[3]); }
    if Contains(text, "juss") { assert Contains(text, Keywords[4]); }
    if Contains(text, "rett") { assert Contains(text, Keywords[5]); }
    if Contains(text, "innsyn") { assert Contains(text, Keywords[7]); }
    if Contains(text, "offentlig") { assert Contains(text, Keywords[8]); }
  }

  /** The question of the integration test is never left as `generelt`,
      whatever the classifier answers. */
  lemma OffentlighetslovenNotGeneral(raw: RawRouter)
    ensures Classify(raw, "Hva er hovedprinsippene i offentlighetsloven?").kind != General
  {
    var question := "Hva er hovedprinsippene i offentlighetsloven?";
    var lowered := Lower(question);
    assert question[26..35] == "offentlig";
    forall k | 26 <= k < 35 ensures lowered[k] == question[k] {
      assert LowerChar(question[k]) == question[k];
    }
    assert lowered[26..35] == "offentlig";
    assert OccursAt(lowered, Keywords[8], 26);
    assert MentionsLaw(lowered);
  }

  // ---------------------------------------------------------------------
  // Nodes, routing and edges

  datatype Node =
    | Start
    | AnalyzeAndRouteQuery
    | AskForMoreInfo
    | RespondToGeneralQuery
    | CreateResearchPlan
    | ConductResearch
    | Respond
    | End

  /** `route_query`: an unknown classification raises `ValueError`. */
  function RouteQuery(kind: string): (r: Result<Node>)
    ensures r == Ok(CreateResearchPlan) <==> kind == LegalQuestion
    ensures r == Ok(AskForMoreInfo) <==> kind == MoreInfo
    ensures r == Ok(RespondToGeneralQuery) <==> kind == General
    ensures r.Err? <==> kind != LegalQuestion && kind != MoreInfo && kind != General
    ensures r.Err? ==> r.error == "ValueError"
  {
    if kind == LegalQuestion then Ok(CreateResearchPlan)
    else if kind == MoreInfo then Ok(AskForMoreInfo)
    else if kind == General then Ok(RespondToGeneralQuery)
    else Err("ValueError")
  }

  /** `check_finished`: research continues while steps remain (`None`
      counts as no steps). */
  function CheckFinished(steps: Option<seq<string>>): (r: Node)
    ensures r == ConductResearch <==> steps.Some? && |steps.value| > 0
    ensures r != ConductResearch ==> r == Respond
  {
    if |(if steps.Some? then steps.value else [])| > 0 then ConductResearch else Respond
  }

  /** The steps `conduct_research` leaves for the next round. */
  function Remaining(steps: seq<string>): (r: seq<string>)
    requires |steps| > 0
    ensures r == steps[1..]
  {
    if |steps| > 1 then steps[1..] else []
  }

  /** The part of the graph state that routing reads. */
  datatype RouteState = RouteState(kind: string, steps: Option<seq<string>>)

  /** The edge taken after `node` has run, on the updated state. */
  function Next(node: Node, st: RouteState): (r: Result<Node>)
    requires node != End
    ensures r == Ok(End) <==> node in {Respond, AskForMoreInfo, RespondToGeneralQuery}
    ensures r.Err? ==> node == AnalyzeAndRouteQuery
    ensures r == Ok(ConductResearch) <==>
              node == CreateResearchPlan || (node == ConductResearch && CheckFinished(st.steps) == ConductResearch)
  {
    match node
    case Start => Ok(AnalyzeAndRouteQuery)
    case AnalyzeAndRouteQuery => RouteQuery(st.kind)
    case CreateResearchPlan => Ok(ConductResearch)
    case ConductResearch => Ok(CheckFinished(st.steps))
    case Respond => Ok(End)
    case AskForMoreInfo => Ok(End)
    case RespondToGeneralQuery => Ok(End)
  }

  /** `create_research_plan`'s update: the planner's steps, and the
      `"delete"` sentinel that clears the evidence of an earlier turn. */
  datatype PlanUpdate = PlanUpdate(steps: seq<string>, documents: SharedState.NewDocs)

  function CreateResearchPlanUpdate(plannerSteps: seq<string>): (r: PlanUpdate)
    ensures r.steps == plannerSteps
    ensures forall H, existing :: SharedState.Reduce(H, existing, r.documents) == []
  {
    PlanUpdate(plannerSteps, SharedState.Single("delete"))
  }

  /** What a node does to the routing state: the classification is stored,
      the plan replaces the steps and each research round consumes the
      first step (raising on an empty or missing plan). */
  function Effect(node: Node, st: RouteState, routed: Result<Router>, plan: seq<string>): (r: Result<RouteState>)
  {
    match node
    case AnalyzeAndRouteQuery =>
      (match routed
       case Err(e) => Err(e)
       case Ok(router) => Ok(st.(kind := router.kind)))
    case CreateResearchPlan => Ok(st.(steps := Some(plan)))
    case ConductResearch =>
      if st.steps.None? then Err("TypeError")
      else if |st.steps.value| == 0 then Err("IndexError")
      else Ok(st.(steps := Some(Remaining(st.steps.value))))
    case _ => Ok(st)
  }

  function Phase(node: Node): nat
  {
    if node in {Start, AnalyzeAndRouteQuery, CreateResearchPlan} then 1 else 0
  }

  function Rank(node: Node): nat
  {
    match node
    case Start => 5
    case AnalyzeAndRouteQuery => 4
    case CreateResearchPlan => 3
    case ConductResearch => 2
    case End => 0
    case _ => 1
  }

  function StepCount(st: RouteState): nat
  {
    if st.steps.Some? then |st.steps.value| else 0
  }

  /** The nodes a run visits from `node` to `END`, for a classification
      `routed` and a planner answer `plan`; the exception that ends it
      otherwise. */
  function Run(node: Node, st: RouteState, routed: Result<Router>, plan: seq<string>): Result<seq<Node>>
    decreases Phase(node), StepCount(st), Rank(node)
  {
    if node == End then Ok([End])
    else
      match Effect(node, st, routed, plan)
      case Err(e) => Err(e)
      case Ok(st') =>
        match Next(node, st')
        case Err(e) => Err(e)
        case Ok(next) =>
          match Run(next, st', routed, plan)
          case Err(e) => Err(e)
          case Ok(trace) => Ok([node] + trace)
  }

  function Rounds(n: nat): (r: seq<Node>)
    ensures |r| == n && forall i :: 0 <= i < n ==> r[i] == ConductResearch
  {
    if n == 0 then [] else [ConductResearch] + Rounds(n - 1)
  }

  /** With `n` steps left, research runs exactly `n` rounds and then answers. */
  lemma {:induction false} ResearchLoop(st: RouteState, routed: Result<Router>, plan: seq<string>)
    requires st.steps.Some? && |st.steps.value| > 0
    ensures Run(ConductResearch, st, routed, plan) == Ok(Rounds(|st.steps.value|) + [Respond, End])
    decreases |st.steps.value|
  {
    var n := |st.steps.value|;
    var st' := st.(steps := Some(Remaining(st.steps.value)));
    assert Effect(ConductResearch, st, routed, plan) == Ok(st');
    if n > 1 {
      assert Next(ConductResearch, st') == Ok(ConductResearch);
      ResearchLoop(st', routed, plan);
      assert Rounds(n) == [ConductResearch] + Rounds(n - 1);
      assert Rounds(n) + [Respond, End] == [ConductResearch] + (Rounds(n - 1) + [Respond, End]);
    } else {
      assert Next(ConductResearch, st') == Ok(Respond);
      assert Effect(Respond, st', routed, plan) == Ok(st');
      assert Run(End, st', routed, plan) == Ok([End]);
      assert [Respond] + [End] == [Respond, End];
      assert Run(Respond, st', routed, plan) == Ok([Respond, End]);
      assert Rounds(1) == [ConductResearch];
      assert Rounds(1) + [Respond, End] == [ConductResearch] + [Respond, End];
    }
  }

  /** A plan of N >= 1 steps gives exactly N research rounds before the
      answer; an empty plan raises in the first round, since the edge into
      research is unconditional. */
  lemma PlanRounds(st: RouteState, routed: Result<Router>, plan: seq<string>)
    ensures |plan| > 0 ==>
              Run(CreateResearchPlan, st, routed, plan) == Ok([CreateResearchPlan] + Rounds(|plan|) + [Respond, End])
    ensures |plan| == 0 ==> Run(CreateResearchPlan, st, routed, plan) == Err("IndexError")
  {
    var st' := st.(steps := Some(plan));
    assert Effect(CreateResearchPlan, st, routed, plan) == Ok(st');
    assert Next(CreateResearchPlan, st') == Ok(ConductResearch);
    if |plan| > 0 {
      ResearchLoop(st', routed, plan);
      assert [CreateResearchPlan] + (Rounds(|plan|) + [Respond, End])
          == [CreateResearchPlan] + Rounds(|plan|) + [Respond, End];
    } else {
      assert Run(ConductResearch, st', routed, plan) == Err("IndexError");
    }
  }

  /** Every complete run from START, by classification. */
  lemma RunFromStart(st: RouteState, routed: Result<Router>, plan: seq<string>)
    ensures routed.Err? ==> Run(Start, st, routed, plan) == Err(routed.error)
    ensures routed.Ok? && routed.value.kind == LegalQuestion && |plan| > 0 ==>
              Run(Start, st, routed, plan) ==
                Ok([Start, AnalyzeAndRouteQuery, CreateResearchPlan] + Rounds(|plan|) + [Respond, End])
    ensures routed.Ok? && routed.value.kind == LegalQuestion && |plan| == 0 ==>
              Run(Start, st, routed, plan) == Err("IndexError")
    ensures routed.Ok? && routed.value.kind == MoreInfo ==>
              Run(Start, st, routed, plan) == Ok([Start, AnalyzeAndRouteQuery, AskForMoreInfo, End])
    ensures routed.Ok? && routed.value.kind == General ==>
              Run(Start, st, routed, plan) == Ok([Start, AnalyzeAndRouteQuery, RespondToGeneralQuery, End])
    ensures routed.Ok? && routed.value.kind !in {LegalQuestion, MoreInfo, General} ==>
              Run(Start, st, routed, plan) == Err("ValueError")
  {
    assert Effect(Start, st, routed, plan) == Ok(st);
    assert Next(Start, st) == Ok(AnalyzeAndRouteQuery);
    if routed.Ok? {
      var kind := routed.value.kind;
      var st' := st.(kind := kind);
      assert Effect(AnalyzeAndRouteQuery, st, routed, plan) == Ok(st');
      assert Next(AnalyzeAndRouteQuery, st') == RouteQuery(kind);
      if kind == LegalQuestion {
        PlanRounds(st', routed, plan);
        if |plan| > 0 {
          var tail := [CreateResearchPlan] + Rounds(|plan|) + [Respond, End];
          assert [Start] + ([AnalyzeAndRouteQuery] + tail)
              == [Start, AnalyzeAndRouteQuery, CreateResearchPlan] + Rounds(|plan|) + [Respond, End];
        }
      } else if kind == MoreInfo || kind == General {
        var leaf := if kind == MoreInfo then AskForMoreInfo else RespondToGeneralQuery;
        assert Next(AnalyzeAndRouteQuery, st') == Ok(leaf);
        assert Effect(leaf, st', routed, plan) == Ok(st');
        assert Next(leaf, st') == Ok(End);
        assert Run(End, st', routed, plan) == Ok([End]);
        assert [leaf] + [End] == [leaf, End];
        assert Run(leaf, st', routed, plan) == Ok([leaf, End]);
        assert [Start] + ([AnalyzeAndRouteQuery] + [leaf, End]) == [Start, AnalyzeAndRouteQuery, leaf, End];
      }
    }
  }

  // ---------------------------------------------------------------------
  // One research round

  /** The research node's update: the deduplicated evidence and the steps
      left. */
  datatype ResearchUpdate = ResearchUpdate(documents: seq<Document>, steps: seq<string>)

  /** The documents gathered over the sub-queries: each entry is one
      retriever call, `None` when it raised. The first failure ends the
      loop and what was gathered before it is kept. */
  function Collected(outcomes: seq<Option<seq<Document>>>): seq<Document>
  {
    if |outcomes| == 0 then []
    else match outcomes[0]
      case None => []
      case Some(docs) => docs + Collected(outcomes[1..])
  }

  /** A failing retriever call discards nothing gathered before it and
      nothing after it is gathered. */
  lemma {:induction false} CollectedStopsAtFailure(outcomes: seq<Option<seq<Document>>>, i: nat)
    requires i < |outcomes| && outcomes[i].None?
    ensures Collected(outcomes) == Collected(outcomes[..i])
  {
    if i > 0 && outcomes[0].Some? {
      assert outcomes[1..][i - 1] == outcomes[i];
      CollectedStopsAtFailure(outcomes[1..], i - 1);
      assert outcomes[..i][1..] == outcomes[1..][..i - 1];
    }
  }

  function DocItems(docs: seq<Document>): (r: seq<SharedState.Item>)
    ensures |r| == |docs| && forall i :: 0 <= i < |docs| ==> r[i] == SharedState.DocItem(docs[i])
  {
    seq(|docs|, i requires 0 <= i < |docs| => SharedState.DocItem(docs[i]))
  }

  /** The retrieval loop of `conduct_research`: each sub-query's documents
      are appended, and an exception ends the loop keeping what was
      gathered. */
  method CollectDocs(outcomes: seq<Option<seq<Document>>>) returns (allDocs: seq<Document>)
    ensures allDocs == Collected(outcomes)
  {
    allDocs := [];
    var i := 0;
    var failed := false;
    while i < |outcomes| && !failed
      invariant 0 <= i <= |outcomes|
      invariant !failed ==> allDocs + Collected(outcomes[i..]) == Collected(outcomes)
      invariant failed ==> allDocs == Collected(outcomes)
      decreases |outcomes| - i
    {
      var rest := outcomes[i..];
      assert rest[1..] == outcomes[i + 1..];
      if outcomes[i].None? {
        assert Collected(rest) == [];
        failed := true;
      } else {
        var docs := outcomes[i].value;
        assert Collected(rest) == docs + Collected(outcomes[i + 1..]);
        allDocs := allDocs + docs;
      }
      i := i + 1;
    }
    if !failed {
      assert outcomes[i..] == [];
    }
  }

  /** `conduct_research`: reads the first step (raising on an empty plan),
      asks the model for sub-queries (`queries`, the exception it raised
      when it failed; this call is outside the `try`, so its failure ends
      the node), runs the retriever for every sub-query until one raises
      (`outcomes` holds one entry per sub-query), and returns the collected
      documents passed through `reduce_docs(None, ...)` together with the
      remaining steps. */
  method ConductResearchRound(H: string -> SharedState.UuidText, steps: seq<string>,
                              queries: Result<seq<string>>, outcomes: seq<Option<seq<Document>>>)
    returns (r: Result<ResearchUpdate>)
    requires queries.Ok? ==> |outcomes| == |queries.value|
    ensures r.Err? <==> |steps| == 0 || queries.Err?
    ensures |steps| == 0 ==> r == Err("IndexError")
    ensures |steps| > 0 && queries.Err? ==> r == Err(queries.error)
    ensures r.Ok? ==> r.value.steps == steps[1..]
    ensures r.Ok? ==>
              r.value.documents == SharedState.ReduceAsWritten(H, None, SharedState.Items(DocItems(Collected(outcomes))))
  {
    if |steps| == 0 {
      return Err("IndexError");
    }
    if queries.Err? {
      return Err(queries.error);
    }
    var allDocs := CollectDocs(outcomes);
    var candidates := SharedState.Items(DocItems(allDocs));
    var unique := SharedState.ReduceDocs(H, None, candidates);
    SharedState.AgreeWithoutExisting(H, None, candidates);
    return Ok(ResearchUpdate(unique, Remaining(steps)));
  }

  /** Every candidate kept from a list of Documents is one of them. */
  lemma AdmittedDocs(H: string -> SharedState.UuidText, seen: set<Value>, docs: seq<Document>)
    ensures forall it :: it in SharedState.Admitted(H, seen, DocItems(docs)) ==>
              it.DocItem? && it.doc in docs
  {
    var items := DocItems(docs);
    SharedState.AdmittedLength(H, seen, items);
    forall it | it in SharedState.Admitted(H, seen, items) ensures it.DocItem? && it.doc in docs {
      assert it in items;
      var m :| 0 <= m < |items| && items[m] == it;
      assert it.doc == docs[m];
    }
  }

  lemma FreshMerge(H: string -> SharedState.UuidText, items: seq<SharedState.Item>)
    ensures SharedState.ReduceAsWritten(H, None, SharedState.Items(items))
         == SharedState.EmitAll(H, SharedState.Admitted(H, {}, items))
  {
    assert SharedState.ExistingList(None) == [];
    assert SharedState.UuidSeed([]) == {};
    assert [] + SharedState.EmitAll(H, SharedState.Admitted(H, {}, items))
        == SharedState.EmitAll(H, SharedState.Admitted(H, {}, items));
  }

  /** The evidence of one round holds only retrieved documents, at most as
      many as were retrieved, with pairwise different fingerprints. */
  lemma ResearchEvidenceUnique(H: string -> SharedState.UuidText, docs: seq<Document>)
    ensures var r := SharedState.ReduceAsWritten(H, None, SharedState.Items(DocItems(docs)));
            |r| <= |docs|
            && (forall d :: d in r ==> d in docs)
            && forall i, j :: 0 <= i < j < |r| ==>
                 SharedState.Fingerprint(H, r[i]) != SharedState.Fingerprint(H, r[j])
  {
    var items := DocItems(docs);
    var a := SharedState.Admitted(H, {}, items);
    FreshMerge(H, items);
    var r := SharedState.EmitAll(H, a);
    SharedState.AdmittedLength(H, {}, items);
    SharedState.AdmittedKeyedUnique(H, {}, items);
    AdmittedDocs(H, {}, docs);
    forall k | 0 <= k < |a| ensures a[k].DocItem? && r[k] == a[k].doc && a[k].doc in docs
      && SharedState.ItemId(H, a[k]) == SharedState.Fingerprint(H, r[k])
    {
      assert a[k] in a;
    }
    forall d | d in r ensures d in docs {
      var k :| 0 <= k < |r| && r[k] == d;
    }
  }
}
