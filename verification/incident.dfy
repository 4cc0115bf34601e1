/** The interactive incident-response workflow: six nodes, two routing
    functions and the table-driven node updates of the security agent built
    for graph visualisation. The language-model calls become parameters: the
    classifier maps the incident text to a reply, the risk assessor maps the
    severity and the investigation result to a reply, and either may fail. */
module Incident {

  import opened Wrappers
  import opened Text
  import opened Messages
  import opened Engine

  datatype IncidentNode =
    | ClassifyIncident
    | InvestigateThreat
    | AssessRisk
    | ExecuteResponse
    | CreateReport
    | EscalateToAnalyst

  /** The name each node is registered under. */
  function NodeName(n: IncidentNode): string {
    match n
    case ClassifyIncident => "classify_incident"
    case InvestigateThreat => "investigate_threat"
    case AssessRisk => "assess_risk"
    case ExecuteResponse => "execute_response"
    case CreateReport => "create_report"
    case EscalateToAnalyst => "escalate_to_analyst"
  }

  /** The workflow state. Every field but `messages` may be absent, and the
      nodes and routers read an absent field through a default. */
  datatype IncidentState = IncidentState(
    messages: seq<Message>,
    incidentSeverity: Option<string>,
    requiresInvestigation: Option<bool>,
    investigationResults: Option<string>,
    threatLevel: Option<string>,
    actionsTaken: Option<seq<string>>,
    caseStatus: Option<string>)

  /** A partial update: the messages to append and the fields to overwrite. */
  datatype IncidentUpdate = IncidentUpdate(
    messages: seq<Message>,
    incidentSeverity: Option<string>,
    requiresInvestigation: Option<bool>,
    investigationResults: Option<string>,
    threatLevel: Option<string>,
    actionsTaken: Option<seq<string>>,
    caseStatus: Option<string>)

  /** The state merge: `messages` appends, every other field is last-write-wins. */
  function Merge(s: IncidentState, u: IncidentUpdate): (s': IncidentState)
    ensures s'.messages == s.messages + u.messages
    ensures s'.incidentSeverity == if u.incidentSeverity.Some? then u.incidentSeverity else s.incidentSeverity
    ensures s'.requiresInvestigation == if u.requiresInvestigation.Some? then u.requiresInvestigation else s.requiresInvestigation
    ensures s'.investigationResults == if u.investigationResults.Some? then u.investigationResults else s.investigationResults
    ensures s'.threatLevel == if u.threatLevel.Some? then u.threatLevel else s.threatLevel
    ensures s'.actionsTaken == if u.actionsTaken.Some? then u.actionsTaken else s.actionsTaken
    ensures s'.caseStatus == if u.caseStatus.Some? then u.caseStatus else s.caseStatus
  {
    IncidentState(
      AddMessages(s.messages, u.messages),
      Overwrite(s.incidentSeverity, u.incidentSeverity),
      Overwrite(s.requiresInvestigation, u.requiresInvestigation),
      Overwrite(s.investigationResults, u.investigationResults),
      Overwrite(s.threatLevel, u.threatLevel),
      Overwrite(s.actionsTaken, u.actionsTaken),
      Overwrite(s.caseStatus, u.caseStatus))
  }

  /** A language-model call: its reply text, or the error it raised. */
  datatype LlmReply = Replied(content: string) | Failed(error: string)

  // ---------------------------------------------------------------------
  // Parsing the model's replies
  // ---------------------------------------------------------------------

  /** `after` is the text that follows the last `marker` in `line`. */
  ghost predicate IsTextAfterLast(line: string, marker: string, after: string) {
    && |marker| + |after| <= |line|
    && line[|line| - |marker| - |after|..] == marker + after
    && !Contains(after, marker)
  }

  /** `line.split(marker)[-1].strip()` on the first line of `content` that
      contains `marker`, or `default` when no line does. */
  function MarkedValue(content: string, marker: string, default: string): string
    requires |marker| > 0 && '\n' !in marker
  {
    match FirstLineWith(content, marker)
    case None => default
    case Some(line) => Strip(Last(SplitOn(line, marker)))
  }

  /** A marked value is the default when the marker is absent, and otherwise
      the stripped text after the last marker on the first line holding one. */
  lemma MarkedValueSpec(content: string, marker: string, default: string)
    requires |marker| > 0 && '\n' !in marker
    ensures !Contains(content, marker) ==> MarkedValue(content, marker, default) == default
    ensures Contains(content, marker) ==>
              exists k, after :: IsFirstLineWith(Lines(content), k, marker) &&
                                 IsTextAfterLast(Lines(content)[k], marker, after) &&
                                 MarkedValue(content, marker, default) == Strip(after)
  {
    if Contains(content, marker) {
      var line := FirstLineWith(content, marker).value;
      FirstLineWithIsFirstHit(content, marker);
      SplitLastIsTextAfterLastMarker(line, marker);
      var k :| IsFirstLineWith(Lines(content), k, marker) && Lines(content)[k] == line;
      var after := Last(SplitOn(line, marker));
      assert MarkedValue(content, marker, default) == Strip(after);
      assert IsTextAfterLast(Lines(content)[k], marker, after);
    }
  }

  /** Reads severity and the investigate flag out of the classifier's reply. */
  function ParseClassification(content: string): (string, bool) {
    var severity := MarkedValue(content, "SEVERITY:", "Medium");
    var investigate :=
      match FirstLineWith(content, "INVESTIGATE:")
      case None => true
      case Some(line) => Contains(line, "Yes");
    (severity, investigate)
  }

  /** Severity defaults to "Medium" and the flag to true; otherwise severity
      is the stripped text after the last "SEVERITY:" on the first line
      holding one, and the flag is true exactly when the first
      "INVESTIGATE:" line contains "Yes". */
  lemma ClassificationParsing(content: string)
    ensures var r := ParseClassification(content);
            && (!Contains(content, "SEVERITY:") ==> r.0 == "Medium")
            && (!Contains(content, "INVESTIGATE:") ==> r.1)
            && (Contains(content, "SEVERITY:") ==>
                  exists k, after :: IsFirstLineWith(Lines(content), k, "SEVERITY:") &&
                                     IsTextAfterLast(Lines(content)[k], "SEVERITY:", after) &&
                                     r.0 == Strip(after))
            && (Contains(content, "INVESTIGATE:") ==>
                  exists k :: IsFirstLineWith(Lines(content), k, "INVESTIGATE:") &&
                              (r.1 <==> Contains(Lines(content)[k], "Yes")))
  {
    MarkedValueSpec(content, "SEVERITY:", "Medium");
    if Contains(content, "INVESTIGATE:") {
      var line := FirstLineWith(content, "INVESTIGATE:").value;
      FirstLineWithIsFirstHit(content, "INVESTIGATE:");
      var k :| IsFirstLineWith(Lines(content), k, "INVESTIGATE:") && Lines(content)[k] == line;
    }
  }

  /** Reads the threat level out of the risk assessor's reply. */
  function ParseThreatLevel(content: string): string {
    MarkedValue(content, "THREAT_LEVEL:", "Medium")
  }

  /** The level defaults to "Medium" when no line holds "THREAT_LEVEL:", and
      is otherwise the stripped text after the last "THREAT_LEVEL:" on the
      first line holding one. */
  lemma ThreatLevelParsing(content: string)
    ensures !Contains(content, "THREAT_LEVEL:") ==> ParseThreatLevel(content) == "Medium"
    ensures Contains(content, "THREAT_LEVEL:") ==>
              exists k, after :: IsFirstLineWith(Lines(content), k, "THREAT_LEVEL:") &&
                                 IsTextAfterLast(Lines(content)[k], "THREAT_LEVEL:", after) &&
                                 ParseThreatLevel(content) == Strip(after)
  {
    MarkedValueSpec(content, "THREAT_LEVEL:", "Medium");
  }

  // ---------------------------------------------------------------------
  // Node bodies
  // ---------------------------------------------------------------------

  function Blank(msgs: seq<Message>): IncidentUpdate {
    IncidentUpdate(msgs, None, None, None, None, None, None)
  }

  /** The text the classifier is asked about: the last message's content. */
  function IncidentText(s: IncidentState): string {
    if |s.messages| > 0 then Last(s.messages).content else "Unknown incident"
  }

  function ClassifyIncidentUpdate(classifier: string -> LlmReply, s: IncidentState): IncidentUpdate {
    match classifier(IncidentText(s))
    case Replied(content) =>
      var (severity, investigate) := ParseClassification(content);
      Blank([AiMessage("Incident classified: " + content)])
        .(incidentSeverity := Some(severity), requiresInvestigation := Some(investigate))
    case Failed(e) =>
      Blank([AiMessage("Classification failed: " + e)])
        .(incidentSeverity := Some("Unknown"), requiresInvestigation := Some(false))
  }

  /** The canned investigation result for a severity. */
  function InvestigationResult(severity: string): string {
    if severity == "Critical" then "Multiple indicators of compromise detected. Active threat confirmed."
    else if severity == "High" then "Suspicious activity patterns identified. Potential security breach."
    else if severity == "Medium" then "Anomalous behavior detected. Requires further monitoring."
    else if severity == "Low" then "Minor security event. Appears to be false positive."
    else "Investigation inconclusive."
  }

  function InvestigateThreatUpdate(s: IncidentState): IncidentUpdate {
    var result := InvestigationResult(s.incidentSeverity.GetOr("Medium"));
    Blank([AiMessage("Investigation complete: " + result)]).(investigationResults := Some(result))
  }

  function AssessRiskUpdate(assessor: (string, string) -> LlmReply, s: IncidentState): IncidentUpdate {
    match assessor(s.incidentSeverity.GetOr("Medium"), s.investigationResults.GetOr(""))
    case Replied(content) =>
      Blank([AiMessage("Risk assessment: " + content)])
        .(threatLevel := Some(ParseThreatLevel(content)))
    case Failed(e) =>
      Blank([AiMessage("Risk assessment failed: " + e)]).(threatLevel := Some("Unknown"))
  }

  /** The response playbook for a threat level. */
  function ResponseActions(threatLevel: string): seq<string> {
    if threatLevel == "Critical" then
      ["isolate_endpoints", "block_malicious_ips", "create_soar_case", "alert_soc_team"]
    else if threatLevel == "High" then ["quarantine_files", "update_firewall_rules", "create_soar_case"]
    else if threatLevel == "Medium" then ["log_event", "update_monitoring", "create_ticket"]
    else if threatLevel == "Low" then ["log_event", "update_baseline"]
    else ["log_event"]
  }

  function ExecuteResponseUpdate(s: IncidentState): IncidentUpdate {
    var actions := ResponseActions(s.threatLevel.GetOr("Medium"));
    Blank([AiMessage("Automated response executed: " + Join(actions, ", "))])
      .(actionsTaken := Some(actions), caseStatus := Some("automated_response_complete"))
  }

  function EscalateToAnalystUpdate(s: IncidentState): IncidentUpdate {
    Blank([AiMessage("Incident escalated to security analyst for manual review")])
      .(caseStatus := Some("escalated_to_analyst"), actionsTaken := Some(["escalate_to_analyst"]))
  }

  /** The report text: the fields read with their report defaults. */
  function ReportSummary(s: IncidentState): string {
    "SECURITY INCIDENT REPORT\nSeverity: " + s.incidentSeverity.GetOr("Unknown")
    + "\nThreat Level: " + s.threatLevel.GetOr("Unknown")
    + "\nActions Taken: " + NatToString(|s.actionsTaken.GetOr([])|) + " actions"
    + "\nStatus: " + s.caseStatus.GetOr("completed")
    + "\nInvestigation: " + s.investigationResults.GetOr("None")
  }

  function CreateReportUpdate(s: IncidentState): IncidentUpdate {
    Blank([AiMessage(ReportSummary(s))]).(caseStatus := Some("report_generated"))
  }

  /** The update node `n` returns on state `s`. */
  function Body(classifier: string -> LlmReply, assessor: (string, string) -> LlmReply,
                n: IncidentNode, s: IncidentState): (u: IncidentUpdate)
    ensures |u.messages| == 1
  {
    match n
    case ClassifyIncident => ClassifyIncidentUpdate(classifier, s)
    case InvestigateThreat => InvestigateThreatUpdate(s)
    case AssessRisk => AssessRiskUpdate(assessor, s)
    case ExecuteResponse => ExecuteResponseUpdate(s)
    case CreateReport => CreateReportUpdate(s)
    case EscalateToAnalyst => EscalateToAnalystUpdate(s)
  }

  // ---------------------------------------------------------------------
  // Routing
  // ---------------------------------------------------------------------

  /** After classification: escalate Critical incidents, investigate others
      that are flagged, escalate the rest. An absent severity reads as
      "Medium", an absent flag as false. */
  function ShouldInvestigate(s: IncidentState): (choice: string)
    ensures choice == "investigate" || choice == "escalate"
  {
    var requiresInvestigation := s.requiresInvestigation.GetOr(false);
    var severity := s.incidentSeverity.GetOr("Medium");
    if severity == "Critical" then "escalate"
    else if requiresInvestigation then "investigate"
    else "escalate"
  }

  /** After risk assessment: automate Low and Medium threats, hand the rest
      to an analyst. An absent threat level reads as "Medium". */
  function DetermineResponseLevel(s: IncidentState): (choice: string)
    ensures choice == "automated" || choice == "manual"
  {
    var threatLevel := s.threatLevel.GetOr("Medium");
    if threatLevel in ["Low", "Medium"] then "automated" else "manual"
  }

  /** Critical incidents always escalate; otherwise the router investigates
      exactly when the flag is present and true, so an absent flag escalates. */
  lemma ShouldInvestigateRule(s: IncidentState)
    ensures s.incidentSeverity == Some("Critical") ==> ShouldInvestigate(s) == "escalate"
    ensures s.incidentSeverity != Some("Critical") ==>
              (ShouldInvestigate(s) == "investigate" <==> s.requiresInvestigation == Some(true))
  {
  }

  /** The response is automated exactly when the threat level is "Low" or
      "Medium", an absent level counting as "Medium". */
  lemma DetermineResponseLevelRule(s: IncidentState)
    ensures DetermineResponseLevel(s) == "automated" <==>
              s.threatLevel == None || s.threatLevel == Some("Low") || s.threatLevel == Some("Medium")
  {
  }

  // ---------------------------------------------------------------------
  // The graph
  // ---------------------------------------------------------------------

  /** What every node returns on every state. */
  type NodeBodies = (IncidentNode, IncidentState) -> IncidentUpdate

  /** The workflow's node bodies, with the two model calls fixed. */
  function Bodies(classifier: string -> LlmReply, assessor: (string, string) -> LlmReply): NodeBodies {
    (n: IncidentNode, s: IncidentState) => Body(classifier, assessor, n, s)
  }

  /** The workflow's wiring around any node bodies: entry, two conditional
      edges with their label maps, and four static edges. */
  function WorkflowGraph(body: NodeBodies): Graph<IncidentNode, IncidentState, IncidentUpdate> {
    Graph(
      map[
        ClassifyIncident := (s: IncidentState) => Update(body(ClassifyIncident, s)),
        InvestigateThreat := (s: IncidentState) => Update(body(InvestigateThreat, s)),
        AssessRisk := (s: IncidentState) => Update(body(AssessRisk, s)),
        ExecuteResponse := (s: IncidentState) => Update(body(ExecuteResponse, s)),
        CreateReport := (s: IncidentState) => Update(body(CreateReport, s)),
        EscalateToAnalyst := (s: IncidentState) => Update(body(EscalateToAnalyst, s))],
      map[
        ClassifyIncident := Conditional(ShouldInvestigate,
          map["investigate" := To(InvestigateThreat), "escalate" := To(EscalateToAnalyst)]),
        InvestigateThreat := Static(To(AssessRisk)),
        AssessRisk := Conditional(DetermineResponseLevel,
          map["automated" := To(ExecuteResponse), "manual" := To(EscalateToAnalyst)]),
        ExecuteResponse := Static(To(CreateReport)),
        EscalateToAnalyst := Static(To(CreateReport)),
        CreateReport := Static(End)],
      ClassifyIncident)
  }

  /** The compiled interactive graph. */
  function IncidentGraph(classifier: string -> LlmReply, assessor: (string, string) -> LlmReply)
    : Graph<IncidentNode, IncidentState, IncidentUpdate>
  {
    WorkflowGraph(Bodies(classifier, assessor))
  }

  /** Distance to END, which strictly decreases along every edge. */
  function Rank(n: IncidentNode): nat {
    match n
    case ClassifyIncident => 4
    case InvestigateThreat => 3
    case AssessRisk => 2
    case ExecuteResponse => 1
    case EscalateToAnalyst => 1
    case CreateReport => 0
  }

  /** Every label either router can return is a key of its label map, every
      edge leads to a declared node or END, and every node has exactly one
      outgoing edge: compiling the graph cannot fail and no run meets an
      unmapped label. */
  lemma WorkflowGraphIsClosed(body: NodeBodies)
    ensures Closed(WorkflowGraph(body))
  {
    WorkflowNodesHaveEdges(body);
    WorkflowEdgesLeadToNodes(body);
    WorkflowRoutersAreMapped(body);
  }

  /** The entry is declared, and the declared nodes are the ones with edges. */
  lemma WorkflowNodesHaveEdges(body: NodeBodies)
    ensures WorkflowGraph(body).entry in WorkflowGraph(body).nodes
    ensures WorkflowGraph(body).nodes.Keys == WorkflowGraph(body).edges.Keys
  {
  }

  /** Every edge leads to a declared node or END. */
  lemma WorkflowEdgesLeadToNodes(body: NodeBodies)
    ensures var g := WorkflowGraph(body);
            forall n, m :: n in g.edges && To(m) in Destinations(g.edges[n]) ==> m in g.nodes
  {
  }

  /** Every label either router returns is a key of its label map. */
  lemma WorkflowRoutersAreMapped(body: NodeBodies)
    ensures var g := WorkflowGraph(body);
            forall n, s :: n in g.edges && g.edges[n].Conditional? ==> g.edges[n].route(s) in g.edges[n].branches
  {
    var g := WorkflowGraph(body);
    forall n, s | n in g.edges && g.edges[n].Conditional?
      ensures g.edges[n].route(s) in g.edges[n].branches
    {
      if n == ClassifyIncident {
        assert g.edges[n].route(s) == ShouldInvestigate(s);
      } else {
        assert g.edges[n].route(s) == DetermineResponseLevel(s);
      }
    }
  }

  /** `Rank` strictly decreases along every edge: the graph has no cycle. */
  lemma WorkflowGraphIsAcyclic(body: NodeBodies)
    ensures Ranked(WorkflowGraph(body), Rank)
  {
  }

  // ---------------------------------------------------------------------
  // The route a run takes, stated directly from the routers
  // ---------------------------------------------------------------------

  /** Where a run goes after node `n`, once its update has produced `s`:
      the routers decide after classification and after risk assessment,
      every other node has one successor. */
  function Successor(n: IncidentNode, s: IncidentState): (d: Dest<IncidentNode>)
    ensures d.To? ==> Rank(d.node) < Rank(n)
    ensures d == End <==> n == CreateReport
  {
    match n
    case ClassifyIncident =>
      if ShouldInvestigate(s) == "escalate" then To(EscalateToAnalyst) else To(InvestigateThreat)
    case InvestigateThreat => To(AssessRisk)
    case AssessRisk =>
      if DetermineResponseLevel(s) == "automated" then To(ExecuteResponse) else To(EscalateToAnalyst)
    case ExecuteResponse => To(CreateReport)
    case EscalateToAnalyst => To(CreateReport)
    case CreateReport => End
  }

  /** The state once node `n` has run on `s` and its update is merged. */
  function After(body: NodeBodies, n: IncidentNode, s: IncidentState): IncidentState {
    Merge(s, body(n, s))
  }

  /** The steps a run takes from `n` on, read off the bodies and the
      routers rather than the graph's edge table. */
  function Steps(body: NodeBodies, n: IncidentNode, s: IncidentState)
    : (steps: seq<Step<IncidentNode, IncidentUpdate>>)
    ensures 0 < |steps| <= Rank(n) + 1
    ensures steps[0] == Step(n, body(n, s))
    decreases Rank(n)
  {
    var s' := After(body, n, s);
    match Successor(n, s')
    case End => [Step(n, body(n, s))]
    case To(m) => [Step(n, body(n, s))] + Steps(body, m, s')
  }

  /** The nodes a run visits from `n` on. */
  function RouteFrom(body: NodeBodies, n: IncidentNode, s: IncidentState): seq<IncidentNode> {
    Visited(Steps(body, n, s))
  }

  /** The state a run from `n` ends in. */
  function EndState(body: NodeBodies, n: IncidentNode, s: IncidentState): IncidentState
    decreases Rank(n)
  {
    var s' := After(body, n, s);
    match Successor(n, s')
    case End => s'
    case To(m) => EndState(body, m, s')
  }

  /** Every workflow node is declared in the graph. */
  lemma GraphHasNode(body: NodeBodies, n: IncidentNode)
    ensures n in WorkflowGraph(body).nodes
  {
  }

  /** Each node of the graph runs its body and returns its update. */
  lemma GraphNodeRunsBody(body: NodeBodies, n: IncidentNode, s: IncidentState)
    ensures n in WorkflowGraph(body).nodes
    ensures WorkflowGraph(body).nodes[n](s) == Update(body(n, s))
  {
  }

  /** The graph's edge table routes exactly as `Successor` does. */
  lemma GraphEdgesAgreeWithSuccessor(body: NodeBodies, n: IncidentNode, s: IncidentState)
    ensures Next(WorkflowGraph(body), n, s) == Ok(Successor(n, s))
  {
  }

  /** `g` runs `body` at every node and routes as `Successor` does. */
  ghost predicate Implements(g: Graph<IncidentNode, IncidentState, IncidentUpdate>, body: NodeBodies) {
    && (forall n: IncidentNode :: n in g.nodes)
    && (forall n: IncidentNode, s: IncidentState {:trigger g.nodes[n](s)} :: n in g.nodes ==> g.nodes[n](s) == Update(body(n, s)))
    && (forall n: IncidentNode, s: IncidentState {:trigger Next(g, n, s)} :: Next(g, n, s) == Ok(Successor(n, s)))
  }

  /** The workflow graph implements its bodies and the routers. */
  lemma WorkflowGraphImplements(body: NodeBodies)
    ensures Implements(WorkflowGraph(body), body)
  {
    var g := WorkflowGraph(body);
    forall n: IncidentNode
      ensures n in g.nodes
    {
      GraphHasNode(body, n);
    }
    forall n: IncidentNode, s: IncidentState
      ensures g.nodes[n](s) == Update(body(n, s))
    {
      GraphNodeRunsBody(body, n, s);
    }
    forall n: IncidentNode, s: IncidentState
      ensures Next(g, n, s) == Ok(Successor(n, s))
    {
      GraphEdgesAgreeWithSuccessor(body, n, s);
    }
  }

  /** One step of a graph that implements the bodies and the routers: the
      node's body runs, and the run ends or continues where `Successor`
      says. */
  lemma ImplementedStep(
    g: Graph<IncidentNode, IncidentState, IncidentUpdate>, body: NodeBodies,
    n: IncidentNode, s: IncidentState, fuel: nat)
    requires Implements(g, body) && fuel > 0
    ensures var s' := After(body, n, s);
            Run(g, Merge, n, s, fuel) ==
              if Successor(n, s').End? then Finished(s', [Step(n, body(n, s))])
              else Prepend(Step(n, body(n, s)), Run(g, Merge, Successor(n, s').node, s', fuel - 1))
  {
    var s' := After(body, n, s);
    assert n in g.nodes;
    assert g.nodes[n](s) == Update(body(n, s));
    assert Next(g, n, s') == Ok(Successor(n, s'));
    RunStep(g, Merge, n, s, fuel, body(n, s), Successor(n, s'));
  }

  /** The route from `n` is `n`'s own step followed by the route from its
      successor, and it ends where that route ends. */
  lemma StepsUnfold(body: NodeBodies, n: IncidentNode, s: IncidentState)
    ensures var s' := After(body, n, s);
            Successor(n, s').End? ==>
              Steps(body, n, s) == [Step(n, body(n, s))] && EndState(body, n, s) == s'
    ensures var s' := After(body, n, s);
            Successor(n, s').To? ==>
              && Steps(body, n, s) == [Step(n, body(n, s))] + Steps(body, Successor(n, s').node, s')
              && EndState(body, n, s) == EndState(body, Successor(n, s').node, s')
  {
  }

  /** The executor, driven by a graph that implements the bodies and the
      routers, takes exactly the route the routers pick and finishes in the
      state that route produces, given fuel for one more step than the
      starting node's rank. */
  lemma {:induction false} RunFollowsRoute(
    g: Graph<IncidentNode, IncidentState, IncidentUpdate>, body: NodeBodies,
    n: IncidentNode, s: IncidentState, fuel: nat)
    requires Implements(g, body) && fuel > Rank(n)
    ensures Run(g, Merge, n, s, fuel) == Finished(EndState(body, n, s), Steps(body, n, s))
    decreases Rank(n)
  {
    var s' := After(body, n, s);
    ImplementedStep(g, body, n, s, fuel);
    StepsUnfold(body, n, s);
    if Successor(n, s').To? {
      RunFollowsRoute(g, body, Successor(n, s').node, s', fuel - 1);
    }
  }

  // ---------------------------------------------------------------------
  // The three routes
  // ---------------------------------------------------------------------

  /** Critical or unflagged incidents go straight to an analyst. */
  const EscalatePath: seq<IncidentNode> := [ClassifyIncident, EscalateToAnalyst, CreateReport]

  /** Investigated incidents with a Low or Medium threat are handled automatically. */
  const AutomatedPath: seq<IncidentNode> :=
    [ClassifyIncident, InvestigateThreat, AssessRisk, ExecuteResponse, CreateReport]

  /** Investigated incidents with any other threat level go to an analyst. */
  const ManualPath: seq<IncidentNode> :=
    [ClassifyIncident, InvestigateThreat, AssessRisk, EscalateToAnalyst, CreateReport]

  /** From classification the routers pick one of exactly three routes, and
      each route ends in the state its nodes' updates produce in order. */
  lemma ThreeRoutes(body: NodeBodies, s: IncidentState)
    ensures var s1 := After(body, ClassifyIncident, s);
            var s3 := After(body, AssessRisk, After(body, InvestigateThreat, s1));
            && (ShouldInvestigate(s1) == "escalate" ==>
                  && RouteFrom(body, ClassifyIncident, s) == EscalatePath
                  && EndState(body, ClassifyIncident, s) ==
                     After(body, CreateReport, After(body, EscalateToAnalyst, s1)))
            && (ShouldInvestigate(s1) == "investigate" && DetermineResponseLevel(s3) == "automated" ==>
                  && RouteFrom(body, ClassifyIncident, s) == AutomatedPath
                  && EndState(body, ClassifyIncident, s) ==
                     After(body, CreateReport, After(body, ExecuteResponse, s3)))
            && (ShouldInvestigate(s1) == "investigate" && DetermineResponseLevel(s3) == "manual" ==>
                  && RouteFrom(body, ClassifyIncident, s) == ManualPath
                  && EndState(body, ClassifyIncident, s) ==
                     After(body, CreateReport, After(body, EscalateToAnalyst, s3)))
  {
    if ShouldInvestigate(After(body, ClassifyIncident, s)) == "escalate" {
      EscalatedRoute(body, s);
    } else {
      InvestigatedRoutes(body, s);
    }
  }

  /** The escalation branch of ThreeRoutes. */
  lemma EscalatedRoute(body: NodeBodies, s: IncidentState)
    requires ShouldInvestigate(After(body, ClassifyIncident, s)) == "escalate"
    ensures var s1 := After(body, ClassifyIncident, s);
            && RouteFrom(body, ClassifyIncident, s) == EscalatePath
            && EndState(body, ClassifyIncident, s) == After(body, CreateReport, After(body, EscalateToAnalyst, s1))
  {
    var s1 := After(body, ClassifyIncident, s);
    var s4 := After(body, EscalateToAnalyst, s1);
    var tail := Steps(body, EscalateToAnalyst, s1);
    assert tail == [Step(EscalateToAnalyst, body(EscalateToAnalyst, s1))] + Steps(body, CreateReport, s4);
    assert Steps(body, ClassifyIncident, s) == [Step(ClassifyIncident, body(ClassifyIncident, s))] + tail;
  }

  /** The investigation branches of ThreeRoutes. */
  lemma InvestigatedRoutes(body: NodeBodies, s: IncidentState)
    requires ShouldInvestigate(After(body, ClassifyIncident, s)) != "escalate"
    ensures var s1 := After(body, ClassifyIncident, s);
            var s3 := After(body, AssessRisk, After(body, InvestigateThreat, s1));
            && (DetermineResponseLevel(s3) == "automated" ==>
                  && RouteFrom(body, ClassifyIncident, s) == AutomatedPath
                  && EndState(body, ClassifyIncident, s) ==
                     After(body, CreateReport, After(body, ExecuteResponse, s3)))
            && (DetermineResponseLevel(s3) == "manual" ==>
                  && RouteFrom(body, ClassifyIncident, s) == ManualPath
                  && EndState(body, ClassifyIncident, s) ==
                     After(body, CreateReport, After(body, EscalateToAnalyst, s3)))
  {
    var s1 := After(body, ClassifyIncident, s);
    var s2 := After(body, InvestigateThreat, s1);
    var s3 := After(body, AssessRisk, s2);
    var m := Successor(AssessRisk, s3).node;
    var s4 := After(body, m, s3);
    StepsUnfold(body, ClassifyIncident, s);
    StepsUnfold(body, InvestigateThreat, s1);
    StepsUnfold(body, AssessRisk, s2);
    StepsUnfold(body, m, s3);
    StepsUnfold(body, CreateReport, s4);
    var steps := Steps(body, ClassifyIncident, s);
    assert |steps| == 5;
    assert Visited(steps) == [ClassifyIncident, InvestigateThreat, AssessRisk, m, CreateReport];
  }

  /** The messages a trace's updates carry, in step order. */
  function TraceMessages(trace: seq<Step<IncidentNode, IncidentUpdate>>): seq<Message>
    decreases |trace|
  {
    if |trace| == 0 then [] else trace[0].update.messages + TraceMessages(trace[1..])
  }

  /** Folding a trace appends its messages, in step order, after the ones
      already there: nothing is dropped, reordered or replaced. */
  lemma {:induction false} ReplayAppendsMessages(s: IncidentState, trace: seq<Step<IncidentNode, IncidentUpdate>>)
    ensures Replay(Merge, s, trace).messages == s.messages + TraceMessages(trace)
    decreases |trace|
  {
    if |trace| > 0 {
      var s' := Merge(s, trace[0].update);
      ReplayAppendsMessages(s', trace[1..]);
      AddMessagesAssociative(s.messages, trace[0].update.messages, TraceMessages(trace[1..]));
    }
  }

  /** A trace whose every update carries one message carries one message per step. */
  lemma {:induction false} OneMessagePerStep(trace: seq<Step<IncidentNode, IncidentUpdate>>)
    requires forall i :: 0 <= i < |trace| ==> |trace[i].update.messages| == 1
    ensures |TraceMessages(trace)| == |trace|
    ensures forall i :: 0 <= i < |trace| ==> TraceMessages(trace)[i] == trace[i].update.messages[0]
    decreases |trace|
  {
    if |trace| > 0 {
      OneMessagePerStep(trace[1..]);
      forall i | 0 <= i < |trace|
        ensures TraceMessages(trace)[i] == trace[i].update.messages[0]
      {
        if i > 0 {
          assert trace[1..][i - 1] == trace[i];
        }
      }
    }
  }

  // ---------------------------------------------------------------------
  // Runs of the interactive graph
  // ---------------------------------------------------------------------

  /** The severity and investigate flag classification records: the parsed
      reply, or "Unknown" and no investigation when the model call failed. */
  function Verdict(reply: LlmReply): (string, bool) {
    match reply
    case Replied(content) => ParseClassification(content)
    case Failed(_) => ("Unknown", false)
  }

  /** The threat level risk assessment records: the parsed reply, or
      "Unknown" when the model call failed. */
  function AssessedThreat(reply: LlmReply): string {
    match reply
    case Replied(content) => ParseThreatLevel(content)
    case Failed(_) => "Unknown"
  }

  /** Every workflow node returns exactly one message. */
  ghost predicate OneMessageEach(body: NodeBodies) {
    forall n: IncidentNode, s: IncidentState :: |body(n, s).messages| == 1
  }

  /** When every node returns one message, so does every step of a route. */
  lemma {:induction false} StepsCarryOneMessage(body: NodeBodies, n: IncidentNode, s: IncidentState)
    requires OneMessageEach(body)
    ensures forall i :: 0 <= i < |Steps(body, n, s)| ==> |Steps(body, n, s)[i].update.messages| == 1
    decreases Rank(n)
  {
    var s' := After(body, n, s);
    match Successor(n, s')
    case End =>
    case To(m) =>
      StepsCarryOneMessage(body, m, s');
      assert Steps(body, n, s) == [Step(n, body(n, s))] + Steps(body, m, s');
  }

  /** A run of the interactive graph from its entry, with a budget of at
      least five steps, is exactly the routers' route. */
  lemma IncidentRunFollowsRoute(classifier: string -> LlmReply, assessor: (string, string) -> LlmReply,
                                init: IncidentState, fuel: nat)
    requires fuel >= 5
    ensures Invoke(IncidentGraph(classifier, assessor), Merge, init, fuel) ==
            Finished(EndState(Bodies(classifier, assessor), ClassifyIncident, init),
                     Steps(Bodies(classifier, assessor), ClassifyIncident, init))
  {
    var body := Bodies(classifier, assessor);
    WorkflowGraphImplements(body);
    assert IncidentGraph(classifier, assessor).entry == ClassifyIncident;
    RunFollowsRoute(IncidentGraph(classifier, assessor), body, ClassifyIncident, init, fuel);
  }

  /** Classification records the verdict and escalates exactly Critical or
      unflagged incidents. */
  lemma ClassificationStep(classifier: string -> LlmReply, assessor: (string, string) -> LlmReply,
                           init: IncidentState)
    ensures var s1 := After(Bodies(classifier, assessor), ClassifyIncident, init);
            var v := Verdict(classifier(IncidentText(init)));
            && s1.incidentSeverity == Some(v.0)
            && s1.requiresInvestigation == Some(v.1)
            && s1.threatLevel == init.threatLevel && s1.investigationResults == init.investigationResults
            && (ShouldInvestigate(s1) == "escalate" <==> v.0 == "Critical" || !v.1)
  {
  }

  /** Investigation and risk assessment record the threat level the assessor
      returns for the recorded severity and its canned investigation result,
      and leave the response fields alone. */
  lemma AssessmentSteps(classifier: string -> LlmReply, assessor: (string, string) -> LlmReply,
                        s1: IncidentState)
    ensures var body := Bodies(classifier, assessor);
            var s3 := After(body, AssessRisk, After(body, InvestigateThreat, s1));
            var severity := s1.incidentSeverity.GetOr("Medium");
            && s3.threatLevel == Some(AssessedThreat(assessor(severity, InvestigationResult(severity))))
            && s3.incidentSeverity == s1.incidentSeverity
  {
  }

  /** With a budget of at least five steps every run of the interactive
      graph finishes, along one of the three routes, with the report last,
      and its state holds the initial messages followed by one message per
      step, in step order. */
  lemma IncidentRunsTerminate(classifier: string -> LlmReply, assessor: (string, string) -> LlmReply,
                              init: IncidentState, fuel: nat)
    requires fuel >= 5
    ensures var o := Invoke(IncidentGraph(classifier, assessor), Merge, init, fuel);
            && o.Finished?
            && (Visited(o.trace) == EscalatePath || Visited(o.trace) == AutomatedPath ||
                Visited(o.trace) == ManualPath)
            && o.state.messages == init.messages + TraceMessages(o.trace)
            && |TraceMessages(o.trace)| == |o.trace|
  {
    var body := Bodies(classifier, assessor);
    IncidentRunFollowsRoute(classifier, assessor, init, fuel);
    ThreeRoutes(body, init);
    assert OneMessageEach(body);
    var o := Invoke(IncidentGraph(classifier, assessor), Merge, init, fuel);
    var s1 := After(body, ClassifyIncident, init);
    var s3 := After(body, AssessRisk, After(body, InvestigateThreat, s1));
    assert ShouldInvestigate(s1) == "escalate" || ShouldInvestigate(s1) == "investigate";
    assert DetermineResponseLevel(s3) == "automated" || DetermineResponseLevel(s3) == "manual";
    StepsCarryOneMessage(body, ClassifyIncident, init);
    OneMessagePerStep(o.trace);
    RunStateIsReplay(IncidentGraph(classifier, assessor), Merge, ClassifyIncident, init, fuel);
    ReplayAppendsMessages(init, o.trace);
  }

  /** The route is decided by the two verdicts alone: escalate at once
      exactly for Critical or unflagged incidents, otherwise automate exactly
      for a Low or Medium threat and hand the rest to an analyst. */
  lemma RouteIsDecidedByVerdicts(classifier: string -> LlmReply, assessor: (string, string) -> LlmReply,
                                 init: IncidentState, fuel: nat)
    requires fuel >= 5
    ensures var o := Invoke(IncidentGraph(classifier, assessor), Merge, init, fuel);
            var v := Verdict(classifier(IncidentText(init)));
            var threat := AssessedThreat(assessor(v.0, InvestigationResult(v.0)));
            && (Visited(o.trace) == EscalatePath <==> v.0 == "Critical" || !v.1)
            && (Visited(o.trace) == AutomatedPath <==>
                  v.0 != "Critical" && v.1 && (threat == "Low" || threat == "Medium"))
            && (Visited(o.trace) == ManualPath <==>
                  v.0 != "Critical" && v.1 && threat != "Low" && threat != "Medium")
  {
    var body := Bodies(classifier, assessor);
    IncidentRunFollowsRoute(classifier, assessor, init, fuel);
    ThreeRoutes(body, init);
    ClassificationStep(classifier, assessor, init);
    var s1 := After(body, ClassifyIncident, init);
    AssessmentSteps(classifier, assessor, s1);
    var s3 := After(body, AssessRisk, After(body, InvestigateThreat, s1));
    DetermineResponseLevelRule(s3);
    assert EscalatePath != AutomatedPath && EscalatePath != ManualPath;
    assert AutomatedPath[3] != ManualPath[3];
  }

  /** The report appends a summary of the state it was given, closes the
      case, and changes no other field. */
  lemma ReportStep(classifier: string -> LlmReply, assessor: (string, string) -> LlmReply, x: IncidentState)
    ensures var y := After(Bodies(classifier, assessor), CreateReport, x);
            && y.messages == x.messages + [AiMessage(ReportSummary(x))]
            && y.caseStatus == Some("report_generated")
            && y.incidentSeverity == x.incidentSeverity && y.requiresInvestigation == x.requiresInvestigation
            && y.investigationResults == x.investigationResults && y.threatLevel == x.threatLevel
            && y.actionsTaken == x.actionsTaken
  {
  }

  /** Escalation records the single escalation action and the escalated
      status, and changes no classification or assessment field. */
  lemma EscalationStep(classifier: string -> LlmReply, assessor: (string, string) -> LlmReply, x: IncidentState)
    ensures var y := After(Bodies(classifier, assessor), EscalateToAnalyst, x);
            && y.actionsTaken == Some(["escalate_to_analyst"])
            && y.caseStatus == Some("escalated_to_analyst")
            && y.incidentSeverity == x.incidentSeverity && y.requiresInvestigation == x.requiresInvestigation
            && y.investigationResults == x.investigationResults && y.threatLevel == x.threatLevel
  {
  }

  /** The automated response records the playbook for the recorded threat
      level, and changes no classification or assessment field. */
  lemma ResponseStep(classifier: string -> LlmReply, assessor: (string, string) -> LlmReply, x: IncidentState)
    ensures var y := After(Bodies(classifier, assessor), ExecuteResponse, x);
            && y.actionsTaken == Some(ResponseActions(x.threatLevel.GetOr("Medium")))
            && y.caseStatus == Some("automated_response_complete")
            && y.incidentSeverity == x.incidentSeverity && y.requiresInvestigation == x.requiresInvestigation
            && y.investigationResults == x.investigationResults && y.threatLevel == x.threatLevel
  {
  }

  /** What the route's end state records, read off the route itself. */
  ghost predicate EndRecords(classifier: string -> LlmReply, assessor: (string, string) -> LlmReply,
                             init: IncidentState, route: seq<IncidentNode>, end: IncidentState)
  {
    var v := Verdict(classifier(IncidentText(init)));
    var threat := AssessedThreat(assessor(v.0, InvestigationResult(v.0)));
    && end.caseStatus == Some("report_generated")
    && end.incidentSeverity == Some(v.0)
    && (route == AutomatedPath ==>
          end.threatLevel == Some(threat) && end.actionsTaken == Some(ResponseActions(threat)))
    && (route != AutomatedPath ==> end.actionsTaken == Some(["escalate_to_analyst"]))
    && (route == EscalatePath ==>
          end.threatLevel == init.threatLevel && end.investigationResults == init.investigationResults)
  }

  /** The three routes are different. */
  lemma PathsDiffer()
    ensures EscalatePath != AutomatedPath && EscalatePath != ManualPath && AutomatedPath != ManualPath
  {
    assert |EscalatePath| != |AutomatedPath|;
    assert |EscalatePath| != |ManualPath|;
    assert AutomatedPath[3] != ManualPath[3];
  }

  /** A run escalated at once ends with what `EndRecords` says of the
      escalation route. */
  lemma EscalatedEndRecords(classifier: string -> LlmReply, assessor: (string, string) -> LlmReply,
                            init: IncidentState)
    requires ShouldInvestigate(After(Bodies(classifier, assessor), ClassifyIncident, init)) == "escalate"
    ensures var body := Bodies(classifier, assessor);
            var s1 := After(body, ClassifyIncident, init);
            EndRecords(classifier, assessor, init, EscalatePath,
                       After(body, CreateReport, After(body, EscalateToAnalyst, s1)))
  {
    var body := Bodies(classifier, assessor);
    var s1 := After(body, ClassifyIncident, init);
    ClassificationStep(classifier, assessor, init);
    EscalationStep(classifier, assessor, s1);
    ReportStep(classifier, assessor, After(body, EscalateToAnalyst, s1));
    PathsDiffer();
  }

  /** An investigated run whose assessment is automated ends with what
      `EndRecords` says of the automated route. */
  lemma AutomatedEndRecords(classifier: string -> LlmReply, assessor: (string, string) -> LlmReply,
                            init: IncidentState)
    ensures var body := Bodies(classifier, assessor);
            var s1 := After(body, ClassifyIncident, init);
            var s3 := After(body, AssessRisk, After(body, InvestigateThreat, s1));
            EndRecords(classifier, assessor, init, AutomatedPath,
                       After(body, CreateReport, After(body, ExecuteResponse, s3)))
  {
    var body := Bodies(classifier, assessor);
    var s1 := After(body, ClassifyIncident, init);
    var s3 := After(body, AssessRisk, After(body, InvestigateThreat, s1));
    ClassificationStep(classifier, assessor, init);
    AssessmentSteps(classifier, assessor, s1);
    ResponseStep(classifier, assessor, s3);
    ReportStep(classifier, assessor, After(body, ExecuteResponse, s3));
  }

  /** An investigated run whose assessment is manual ends with what
      `EndRecords` says of the manual route. */
  lemma ManualEndRecords(classifier: string -> LlmReply, assessor: (string, string) -> LlmReply,
                         init: IncidentState)
    ensures var body := Bodies(classifier, assessor);
            var s1 := After(body, ClassifyIncident, init);
            var s3 := After(body, AssessRisk, After(body, InvestigateThreat, s1));
            EndRecords(classifier, assessor, init, ManualPath,
                       After(body, CreateReport, After(body, EscalateToAnalyst, s3)))
  {
    var body := Bodies(classifier, assessor);
    var s1 := After(body, ClassifyIncident, init);
    var s3 := After(body, AssessRisk, After(body, InvestigateThreat, s1));
    ClassificationStep(classifier, assessor, init);
    AssessmentSteps(classifier, assessor, s1);
    EscalationStep(classifier, assessor, s3);
    ReportStep(classifier, assessor, After(body, EscalateToAnalyst, s3));
    PathsDiffer();
  }

  /** The end state of the routers' route records what `EndRecords` says. */
  lemma RouteEndRecords(classifier: string -> LlmReply, assessor: (string, string) -> LlmReply, init: IncidentState)
    ensures EndRecords(classifier, assessor, init,
                       RouteFrom(Bodies(classifier, assessor), ClassifyIncident, init),
                       EndState(Bodies(classifier, assessor), ClassifyIncident, init))
  {
    var body := Bodies(classifier, assessor);
    ThreeRoutes(body, init);
    var s1 := After(body, ClassifyIncident, init);
    var s3 := After(body, AssessRisk, After(body, InvestigateThreat, s1));
    if ShouldInvestigate(s1) == "escalate" {
      EscalatedEndRecords(classifier, assessor, init);
    } else if DetermineResponseLevel(s3) == "automated" {
      AutomatedEndRecords(classifier, assessor, init);
    } else {
      ManualEndRecords(classifier, assessor, init);
    }
  }

  /** Every run ends with the case marked "report_generated" and the
      severity classification recorded; an automated run records the
      playbook for the assessed threat, any other run records the single
      escalation action; and a run escalated at once leaves the threat level
      and investigation results as they were. */
  lemma IncidentRunOutcome(classifier: string -> LlmReply, assessor: (string, string) -> LlmReply,
                           init: IncidentState, fuel: nat)
    requires fuel >= 5
    ensures var o := Invoke(IncidentGraph(classifier, assessor), Merge, init, fuel);
            var v := Verdict(classifier(IncidentText(init)));
            var threat := AssessedThreat(assessor(v.0, InvestigationResult(v.0)));
            && o.state.caseStatus == Some("report_generated")
            && o.state.incidentSeverity == Some(v.0)
            && (Visited(o.trace) == AutomatedPath ==>
                  o.state.threatLevel == Some(threat) && o.state.actionsTaken == Some(ResponseActions(threat)))
            && (Visited(o.trace) != AutomatedPath ==> o.state.actionsTaken == Some(["escalate_to_analyst"]))
            && (Visited(o.trace) == EscalatePath ==>
                  o.state.threatLevel == init.threatLevel &&
                  o.state.investigationResults == init.investigationResults)
  {
    var o := Invoke(IncidentGraph(classifier, assessor), Merge, init, fuel);
    IncidentRunFollowsRoute(classifier, assessor, init, fuel);
    RouteEndRecords(classifier, assessor, init);
    assert EndRecords(classifier, assessor, init, Visited(o.trace), o.state);
  }
}
