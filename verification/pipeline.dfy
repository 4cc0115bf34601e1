/** The linear response pipeline: a Splunk search, an endpoint isolation, a
    SOAR case and a database record, run one after the other on a state
    that holds only the message list. Each node reads the message list and
    appends one tool message.

    The four tools are parameters: each takes the text the node hands it and
    returns the text of its result, as the node renders it with `str`. */
module Pipeline {

  import opened Wrappers
  import opened Text
  import opened Messages
  import opened Engine

  datatype AgentNode = SplunkMcp | CiscoSecureEndpoint | SplunkSoar | Database

  /** The name each node is registered under. */
  function NodeName(n: AgentNode): string {
    match n
    case SplunkMcp => "splunk_mcp"
    case CiscoSecureEndpoint => "cisco_secure_endpoint"
    case SplunkSoar => "splunk_soar"
    case Database => "database"
  }

  /** The pipeline state: the message list, merged with `add_messages`. */
  datatype AgentState = AgentState(messages: seq<Message>)

  /** Every node's update is the list of messages it appends. */
  function Merge(s: AgentState, update: seq<Message>): (s': AgentState)
    ensures |s'.messages| == |s.messages| + |update|
    ensures s'.messages[..|s.messages|] == s.messages && s'.messages[|s.messages|..] == update
  {
    AgentState(AddMessages(s.messages, update))
  }

  /** The four tool calls, each from the text it is given to the text of
      its result. */
  datatype Tools = Tools(
    search: string -> string,
    isolate: string -> string,
    createCase: string -> string,
    saveContext: string -> string)

  /** The address the endpoint node isolates, whatever the search found. */
  const DeviceIp: string := "1.2.3.4"

  /** What reading the last message of an empty list raises. */
  const EmptyMessages: string := "IndexError: list index out of range"

  /** Searches on the last message's content. */
  function SplunkMcpNode(tools: Tools, s: AgentState): (r: NodeResult<seq<Message>>)
    ensures r.Raise? <==> |s.messages| == 0
    ensures r.Update? ==> r.update == [ToolMessage(tools.search(Last(s.messages).content), "splunk_mcp_search")]
  {
    if |s.messages| == 0 then Raise(EmptyMessages)
    else Update([ToolMessage(tools.search(Last(s.messages).content), "splunk_mcp_search")])
  }

  /** Reads the last message (and so raises on an empty list), then
      isolates the fixed device address regardless of what it read. */
  function CiscoSecureEndpointNode(tools: Tools, s: AgentState): (r: NodeResult<seq<Message>>)
    ensures r.Raise? <==> |s.messages| == 0
    ensures r.Update? ==> r.update == [ToolMessage(tools.isolate(DeviceIp), "cisco_isolate_endpoint")]
  {
    if |s.messages| == 0 then Raise(EmptyMessages)
    else Update([ToolMessage(tools.isolate(DeviceIp), "cisco_isolate_endpoint")])
  }

  /** Opens a case from the last message's content. */
  function SplunkSoarNode(tools: Tools, s: AgentState): (r: NodeResult<seq<Message>>)
    ensures r.Raise? <==> |s.messages| == 0
    ensures r.Update? ==> r.update == [ToolMessage(tools.createCase(Last(s.messages).content), "splunk_soar_create_case")]
  {
    if |s.messages| == 0 then Raise(EmptyMessages)
    else Update([ToolMessage(tools.createCase(Last(s.messages).content), "splunk_soar_create_case")])
  }

  /** The historical context: every message's content, newline-joined. */
  function History(msgs: seq<Message>): string {
    Join(Contents(msgs), "\n")
  }

  /** No message's content holds a line break. */
  predicate SingleLineContents(msgs: seq<Message>) {
    forall i :: 0 <= i < |msgs| ==> '\n' !in msgs[i].content
  }

  /** Saves the historical context; it reads every message and never raises.
      The saved text gives back every message's content, in order, when it
      is split into lines and no content holds a line break. */
  function DatabaseNode(tools: Tools, s: AgentState): (r: NodeResult<seq<Message>>)
    ensures r.Update? && |r.update| == 1
    ensures r.update[0].role == Tool && r.update[0].name == Some("save_context_to_db")
    ensures exists history :: r.update[0].content == tools.saveContext(history) &&
              (|s.messages| > 0 && SingleLineContents(s.messages) ==> Lines(history) == Contents(s.messages))
  {
    var history := History(s.messages);
    if |s.messages| > 0 && SingleLineContents(s.messages) then
      HistoryRoundTrip(s.messages);
      Update([ToolMessage(tools.saveContext(history), "save_context_to_db")])
    else
      Update([ToolMessage(tools.saveContext(history), "save_context_to_db")])
  }

  /** The compiled pipeline: four nodes, entry at the search, and a static
      edge from each node to the next and from the last to END. */
  function AgentGraph(tools: Tools): Graph<AgentNode, AgentState, seq<Message>> {
    Graph(
      map[
        SplunkMcp := (s: AgentState) => SplunkMcpNode(tools, s),
        CiscoSecureEndpoint := (s: AgentState) => CiscoSecureEndpointNode(tools, s),
        SplunkSoar := (s: AgentState) => SplunkSoarNode(tools, s),
        Database := (s: AgentState) => DatabaseNode(tools, s)],
      map[
        SplunkMcp := Static(To(CiscoSecureEndpoint)),
        CiscoSecureEndpoint := Static(To(SplunkSoar)),
        SplunkSoar := Static(To(Database)),
        Database := Static(End)],
      SplunkMcp)
  }

  /** Distance to END along the chain. */
  function Rank(n: AgentNode): nat {
    match n
    case SplunkMcp => 3
    case CiscoSecureEndpoint => 2
    case SplunkSoar => 1
    case Database => 0
  }

  /** The order the nodes run in. */
  const Chain: seq<AgentNode> := [SplunkMcp, CiscoSecureEndpoint, SplunkSoar, Database]

  /** The compiled pipeline is closed (every edge leads to a declared node
      or END, every node has one outgoing edge) and acyclic. */
  lemma AgentGraphIsClosedAndAcyclic(tools: Tools)
    ensures Closed(AgentGraph(tools))
    ensures Ranked(AgentGraph(tools), Rank)
  {
  }

  /** The four messages a run appends to a non-empty list, in order: the
      search on the last input message, the isolation of the fixed address,
      the case opened from the isolation result, and the save of the history
      of everything before it. */
  function Appended(tools: Tools, init: seq<Message>): seq<Message>
    requires |init| > 0
  {
    var m1 := ToolMessage(tools.search(Last(init).content), "splunk_mcp_search");
    var m2 := ToolMessage(tools.isolate(DeviceIp), "cisco_isolate_endpoint");
    var m3 := ToolMessage(tools.createCase(m2.content), "splunk_soar_create_case");
    var m4 := ToolMessage(tools.saveContext(History(init + [m1, m2, m3])), "save_context_to_db");
    [m1, m2, m3, m4]
  }

  /** With a non-empty message list and a budget of at least four steps the
      pipeline runs its four nodes in order, each appending one message, and
      finishes with the input followed by those four messages. */
  lemma PipelineRun(tools: Tools, init: AgentState, fuel: nat)
    requires |init.messages| > 0 && fuel >= 4
    ensures var o := Invoke(AgentGraph(tools), Merge, init, fuel);
            && o.Finished?
            && Visited(o.trace) == Chain
            && o.state.messages == init.messages + Appended(tools, init.messages)
  {
    var g := AgentGraph(tools);
    var ms := Appended(tools, init.messages);
    var s1 := Merge(init, [ms[0]]);
    var s2 := Merge(s1, [ms[1]]);
    var s3 := Merge(s2, [ms[2]]);
    var s4 := Merge(s3, [ms[3]]);
    assert Last(s2.messages) == ms[1];
    assert s3.messages == init.messages + [ms[0], ms[1], ms[2]];
    RunStep(g, Merge, Database, s3, fuel - 3, [ms[3]], End);
    RunStep(g, Merge, SplunkSoar, s2, fuel - 2, [ms[2]], To(Database));
    RunStep(g, Merge, CiscoSecureEndpoint, s1, fuel - 1, [ms[1]], To(SplunkSoar));
    RunStep(g, Merge, SplunkMcp, init, fuel, [ms[0]], To(CiscoSecureEndpoint));
    assert s4.messages == init.messages + ms;
  }

  /** With an empty message list the first node's read of the last message
      raises, and the run stops there with nothing appended. */
  lemma EmptyInputRaises(tools: Tools, init: AgentState, fuel: nat)
    requires |init.messages| == 0 && fuel > 0
    ensures Invoke(AgentGraph(tools), Merge, init, fuel) ==
            Aborted(NodeRaised(SplunkMcp, EmptyMessages), init, [])
  {
    assert AgentGraph(tools).nodes[SplunkMcp](init) == Raise(EmptyMessages);
  }

  /** The saved history is lossless when no message holds a newline:
      splitting it into lines gives back every message's content, in order. */
  lemma HistoryRoundTrip(msgs: seq<Message>)
    requires |msgs| > 0
    requires SingleLineContents(msgs)
    ensures Lines(History(msgs)) == Contents(msgs)
  {
    JoinSplit(Contents(msgs), '\n');
  }
}
