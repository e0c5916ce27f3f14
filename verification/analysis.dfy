/**
 * The analysis run of the MAESTRO page: seven layers are walked in order,
 * each asking the AI for threats and then for mitigations, while the user
 * may press Stop at any moment; an executive summary follows when at least
 * one layer completed and nobody pressed Stop.
 *
 * The asynchronous run is modelled as a pure function of an `Environment`
 * that scripts, for every call the run makes, what the call returns (or
 * throws) and whether the user pressed Stop while it was in flight. The page
 * state that React keeps in hooks is one `Page` value.
 */
module Analysis {
  import opened Wrappers
  import opened Errors

  datatype LayerStatus = Pending | Analyzing | Complete | Error

  /** The three fields of a mitigation recommendation. */
  datatype Mitigation = Mitigation(recommendation: string, reasoning: string, caveats: string)

  /** One entry of the MAESTRO catalogue. */
  datatype Layer = Layer(id: string, name: string, description: string)

  /** The per-layer record the page shows; `None` stands for `null`. */
  datatype LayerData = LayerData(
    id: string,
    name: string,
    description: string,
    threat: Option<string>,
    mitigation: Option<Mitigation>,
    status: LayerStatus)

  /** The seven MAESTRO layers, in analysis order. */
  const MaestroLayers: seq<Layer> := [
    Layer("foundation-models", "Foundation Models",
          "Core AI models (e.g., large language models, custom-trained AI)."),
    Layer("data-operations", "Data Operations",
          "Data handling for agents, including storage, processing, and vector embeddings."),
    Layer("agent-frameworks", "Agent Frameworks",
          "Software frameworks and APIs used to create, orchestrate, and manage agents."),
    Layer("deployment-infrastructure", "Deployment & Infrastructure",
          "Servers, networks, containers, and the underlying resources hosting agents and APIs."),
    Layer("evaluation-observability", "Evaluation & Observability",
          "Systems to monitor, evaluate, and debug agent behavior."),
    Layer("security-compliance", "Security & Compliance",
          "Security controls and compliance measures for the entire agent system."),
    Layer("agent-ecosystem", "Agent Ecosystem",
          "The broader environment where multiple agents interact, collaborate, and potentially compete.")
  ]

  /** Layer ids identify layers: the updates by id touch one layer only. */
  predicate DistinctIds(catalog: seq<Layer>) {
    forall a, b | 0 <= a < b < |catalog| :: catalog[a].id != catalog[b].id
  }

  lemma MaestroLayersDistinct()
    ensures |MaestroLayers| == 7
    ensures DistinctIds(MaestroLayers)
  {
  }

  // ---------------------------------------------------------------------
  // Layer records

  function InitialLayer(layer: Layer): LayerData {
    LayerData(layer.id, layer.name, layer.description, None, None, Pending)
  }

  /** `INITIAL_LAYERS`: every catalogue layer, pending, with no results. */
  function InitialLayers(catalog: seq<Layer>): (r: seq<LayerData>)
    ensures |r| == |catalog|
    ensures forall j | 0 <= j < |r| ::
              && r[j].id == catalog[j].id && r[j].name == catalog[j].name
              && r[j].description == catalog[j].description
              && r[j].status == Pending && r[j].threat.None? && r[j].mitigation.None?
  {
    seq(|catalog|, j requires 0 <= j < |catalog| => InitialLayer(catalog[j]))
  }

  /** `prev.map(l => l.id === id ? f(l) : l)`. */
  function UpdateById(layers: seq<LayerData>, id: string, f: LayerData -> LayerData): (r: seq<LayerData>)
    ensures |r| == |layers|
    ensures forall j | 0 <= j < |r| :: r[j] == if layers[j].id == id then f(layers[j]) else layers[j]
  {
    seq(|layers|, j requires 0 <= j < |layers| =>
      if layers[j].id == id then f(layers[j]) else layers[j])
  }

  /** `updateLayerStatus`: sets the status of the layers with the given id. */
  function UpdateLayerStatus(layers: seq<LayerData>, id: string, status: LayerStatus): (r: seq<LayerData>)
    ensures |r| == |layers|
    ensures forall j | 0 <= j < |r| && layers[j].id == id :: r[j] == layers[j].(status := status)
    ensures forall j | 0 <= j < |r| && layers[j].id != id :: r[j] == layers[j]
  {
    UpdateById(layers, id, (l: LayerData) => l.(status := status))
  }

  /** Stores a threat analysis in the layer with the given id. */
  function SetThreat(layers: seq<LayerData>, id: string, threat: string): (r: seq<LayerData>)
    ensures |r| == |layers|
    ensures forall j | 0 <= j < |r| && layers[j].id == id :: r[j] == layers[j].(threat := Some(threat))
    ensures forall j | 0 <= j < |r| && layers[j].id != id :: r[j] == layers[j]
  {
    UpdateById(layers, id, (l: LayerData) => l.(threat := Some(threat)))
  }

  /** Stores a mitigation in the layer with the given id and marks it complete. */
  function SetMitigation(layers: seq<LayerData>, id: string, m: Mitigation): (r: seq<LayerData>)
    ensures |r| == |layers|
    ensures forall j | 0 <= j < |r| && layers[j].id == id ::
              r[j] == layers[j].(mitigation := Some(m), status := Complete)
    ensures forall j | 0 <= j < |r| && layers[j].id != id :: r[j] == layers[j]
  {
    UpdateById(layers, id, (l: LayerData) => l.(mitigation := Some(m), status := Complete))
  }

  /** The layers line up with the catalogue, index by index. */
  predicate IdsMatch(layers: seq<LayerData>, catalog: seq<Layer>) {
    |layers| == |catalog| && forall j | 0 <= j < |catalog| :: layers[j].id == catalog[j].id
  }

  /** With distinct ids, each update by the id of layer `i` is a point update. */
  lemma StatusAt(layers: seq<LayerData>, catalog: seq<Layer>, i: nat, s: LayerStatus)
    requires DistinctIds(catalog) && i < |catalog| && IdsMatch(layers, catalog)
    ensures UpdateLayerStatus(layers, catalog[i].id, s) == layers[i := layers[i].(status := s)]
  {
  }

  lemma ThreatAt(layers: seq<LayerData>, catalog: seq<Layer>, i: nat, t: string)
    requires DistinctIds(catalog) && i < |catalog| && IdsMatch(layers, catalog)
    ensures SetThreat(layers, catalog[i].id, t) == layers[i := layers[i].(threat := Some(t))]
  {
  }

  lemma MitigationAt(layers: seq<LayerData>, catalog: seq<Layer>, i: nat, m: Mitigation)
    requires DistinctIds(catalog) && i < |catalog| && IdsMatch(layers, catalog)
    ensures SetMitigation(layers, catalog[i].id, m) == layers[i := layers[i].(mitigation := Some(m), status := Complete)]
  {
  }

  /** Setting a status twice is setting it once (the later one wins). */
  lemma {:induction false} UpdateLayerStatusTwice(layers: seq<LayerData>, id: string, s1: LayerStatus, s2: LayerStatus)
    ensures UpdateLayerStatus(UpdateLayerStatus(layers, id, s1), id, s2) == UpdateLayerStatus(layers, id, s2)
  {
    var a := UpdateLayerStatus(UpdateLayerStatus(layers, id, s1), id, s2);
    var b := UpdateLayerStatus(layers, id, s2);
    assert |a| == |b|;
    forall j | 0 <= j < |a| ensures a[j] == b[j] {
      if layers[j].id == id {
        assert UpdateLayerStatus(layers, id, s1)[j] == layers[j].(status := s1);
      }
    }
  }

  /** `layers.some(l => l.status === 'complete')`: a scan from the front that
      stops at the first completed layer; it answers whether any layer is
      complete. */
  function AnyComplete(layers: seq<LayerData>): (b: bool)
    ensures b <==> exists j | 0 <= j < |layers| :: layers[j].status == Complete
    decreases |layers|
  {
    if layers == [] then false
    else layers[0].status == Complete || AnyComplete(layers[1..])
  }

  // ---------------------------------------------------------------------
  // Log lines and external requests

  /** The lines the run appends to the on-screen log; the comment on each is
      the text the page shows, `<n>` being the layer's name. */
  datatype LogLine =
    | AnalysisStarting                                  // Starting MAESTRO threat analysis...
    | StopRequested                                     // Analysis stop requested. Finishing current step...
    | StoppedByUser                                     // Analysis stopped by user.
    | LayerStarted(layer: string)                       // [<n>] Analysis started...
    | CallingThreats(layer: string)                     // [<n>] Calling AI to suggest threats...
    | StoppedBeforeMitigation(layer: string)            // [<n>] Analysis stopped before mitigation step.
    | ThreatReceived(layer: string)                     // [<n>] Threat analysis received.
    | CallingMitigation(layer: string)                  // [<n>] Calling AI for mitigation strategies...
    | MitigationReceived(layer: string)                 // [<n>] Mitigation recommendation received.
    | LayerComplete(layer: string)                      // [<n>] Analysis complete.
    | LayerFailed(layer: string, message: string)       // [<n>] Error: <message>
    | GeneratingSummary                                 // Generating executive summary...
    | SummaryGenerated                                  // Executive summary generated.
    | SummaryFailed                                     // Could not generate executive summary.
    | AnalysisComplete                                  // Full analysis complete.

  /** A call the run makes to the server actions, with its arguments. */
  datatype Request =
    | ThreatRequest(architecture: string, layerName: string, layerDescription: string)
    | MitigationRequest(threat: string, layerName: string)
    | SummaryRequest(architecture: string, results: seq<LayerData>)

  /** What an awaited call produced, and whether Stop was pressed while it ran. */
  datatype Reply<T> = Reply(result: Result<T, Thrown>, stopPressed: bool)

  /** The script of one run: the threat and mitigation replies for the layer
      at each catalogue index, and the summary reply. */
  datatype Environment = Environment(
    threat: nat -> Reply<string>,
    mitigation: nat -> Reply<Mitigation>,
    summary: Reply<string>)

  // ---------------------------------------------------------------------
  // Page state and the run

  /** The page's state: layers, log, the cancellation flag, the executive
      summary, the architecture last analysed, the diagram source, and the
      requests issued by the current run. */
  datatype Page = Page(
    layers: seq<LayerData>,
    logs: seq<LogLine>,
    cancelled: bool,
    summary: Option<string>,
    architecture: string,
    mermaidCode: string,
    requests: seq<Request>)

  /** `addLog`: appends a line to the log. */
  function AddLog(p: Page, line: LogLine): Page {
    p.(logs := p.logs + [line])
  }

  /** Logging keeps every earlier line in place, puts the new one last, and
      changes nothing else on the page. */
  lemma AddLogAppends(p: Page, line: LogLine)
    ensures var q := AddLog(p, line);
            && |q.logs| == |p.logs| + 1 && q.logs[..|p.logs|] == p.logs && q.logs[|p.logs|] == line
            && q.(logs := p.logs) == p
  {
  }

  /** `handleStop`: raises the cancellation flag and logs the request. */
  function HandleStop(p: Page): (q: Page)
    ensures q.cancelled
    ensures q.logs == p.logs + [StopRequested]
    ensures q.layers == p.layers && q.summary == p.summary && q.requests == p.requests
    ensures q.architecture == p.architecture && q.mermaidCode == p.mermaidCode
  {
    AddLog(p.(cancelled := true), StopRequested)
  }

  function ApplyStop(p: Page, pressed: bool): Page {
    if pressed then HandleStop(p) else p
  }

  /** The reset at the start of `handleAnalyze`: fresh layers, one log line,
      flag cleared, no summary, the diagram kept. */
  function StartRun(p: Page, catalog: seq<Layer>, architecture: string): (q: Page)
    ensures q.layers == InitialLayers(catalog)
    ensures q.logs == [AnalysisStarting]
    ensures !q.cancelled && q.summary.None? && q.requests == []
    ensures q.architecture == architecture && q.mermaidCode == p.mermaidCode
  {
    Page(InitialLayers(catalog), [AnalysisStarting], false, None, architecture, p.mermaidCode, [])
  }

  /** The run in progress: the page and the `finalLayers` snapshot. */
  datatype Progress = Progress(page: Page, finalLayers: seq<LayerData>)

  /** The message the catch block logs for a thrown value. */
  function CaughtMessage(err: Thrown): (m: string)
    ensures err.NonError? ==> m == "An unknown error occurred."
    ensures err.Plain? ==> m == err.message
    ensures err.Maestro? ==> m == err.err.message
  {
    ErrorMessage(err).GetOr("An unknown error occurred.")
  }

  /** `r` only added log lines other than the closing one to `p`, and kept
      the summary, diagram, architecture and number of layers. */
  predicate Extends(p: Page, r: Page) {
    && p.logs <= r.logs
    && (forall k | |p.logs| <= k < |r.logs| :: r.logs[k] != AnalysisComplete)
    && p.requests <= r.requests
    && |r.layers| == |p.layers|
    && r.summary == p.summary && r.mermaidCode == p.mermaidCode && r.architecture == p.architecture
  }

  /** The catch block of one layer: unless Stop was pressed, log the error
      and mark the layer as failed. */
  function Catch(p: Page, layer: Layer, err: Thrown): (q: Page)
    ensures p.cancelled ==> q == p
    ensures !p.cancelled ==>
              q == p.(logs := p.logs + [LayerFailed(layer.name, CaughtMessage(err))],
                      layers := UpdateLayerStatus(p.layers, layer.id, Error))
  {
    if !p.cancelled then
      AddLog(p, LayerFailed(layer.name, CaughtMessage(err))).(layers := UpdateLayerStatus(p.layers, layer.id, Error))
    else p
  }

  /** The rest of a layer's iteration once the mitigation call settled. */
  function AfterMitigation(layer: Layer, p: Page, result: Result<Mitigation, Thrown>, finalLayers: seq<LayerData>): (r: Progress)
    ensures Extends(p, r.page) && r.page.cancelled == p.cancelled && r.page.requests == p.requests
    ensures r.finalLayers == if result.Success? then r.page.layers else finalLayers
  {
    match result
    case Failure(err) => Progress(Catch(p, layer, err), finalLayers)
    case Success(m) =>
      var completed := SetMitigation(p.layers, layer.id, m);
      var q := AddLog(p, MitigationReceived(layer.name)).(layers := completed);
      Progress(AddLog(q, LayerComplete(layer.name)), completed)
  }

  /** The rest of a layer's iteration once the threat call settled;
      `mitigation` is the reply the mitigation call would get. */
  function AfterThreats(layer: Layer, mitigation: Reply<Mitigation>, p: Page, result: Result<string, Thrown>, finalLayers: seq<LayerData>): (r: Progress)
    ensures Extends(p, r.page)
    ensures r.page.cancelled == (p.cancelled || (result.Success? && mitigation.stopPressed))
    ensures r.finalLayers == if result.Success? && !p.cancelled && mitigation.result.Success? then r.page.layers else finalLayers
  {
    match result
    case Failure(err) => Progress(Catch(p, layer, err), finalLayers)
    case Success(threat) =>
      if p.cancelled then
        var q := AddLog(p, StoppedBeforeMitigation(layer.name));
        Progress(q.(layers := UpdateLayerStatus(q.layers, layer.id, Error)), finalLayers)
      else
        var q := AddLog(p, ThreatReceived(layer.name)).(layers := SetThreat(p.layers, layer.id, threat));
        if q.cancelled then Progress(q, finalLayers)
        else
          var q2 := AddLog(q, CallingMitigation(layer.name)).(requests := q.requests + [MitigationRequest(threat, layer.name)]);
          AfterMitigation(layer, ApplyStop(q2, mitigation.stopPressed), mitigation.result, finalLayers)
  }

  /** Stop was pressed while layer `i` was being analysed (and seen before
      the layer's next await). */
  predicate StopsDuring(env: Environment, i: nat) {
    env.threat(i).stopPressed || (env.threat(i).result.Success? && env.mitigation(i).stopPressed)
  }

  /** One iteration of the loop body for the layer at catalogue index `i`
      (the part after the check at the head of the loop). */
  function LayerStep(layer: Layer, i: nat, architecture: string, env: Environment, prog: Progress): (r: Progress)
    ensures Extends(prog.page, r.page) && prog.page.logs < r.page.logs
    ensures r.page.cancelled == (prog.page.cancelled || StopsDuring(env, i))
  {
    var p := prog.page;
    var p1 := AddLog(p, LayerStarted(layer.name)).(layers := UpdateLayerStatus(p.layers, layer.id, Analyzing));
    if p1.cancelled then Progress(p1, prog.finalLayers)
    else
      var p2 := AddLog(p1, CallingThreats(layer.name))
                  .(requests := p1.requests + [ThreatRequest(architecture, layer.name, layer.description)]);
      var reply := env.threat(i);
      AfterThreats(layer, env.mitigation(i), ApplyStop(p2, reply.stopPressed), reply.result, prog.finalLayers)
  }

  /** The `for` loop from catalogue index `i` on. */
  function Loop(catalog: seq<Layer>, i: nat, architecture: string, env: Environment, prog: Progress): (r: Progress)
    requires i <= |catalog|
    ensures Extends(prog.page, r.page)
    decreases |catalog| - i
  {
    if i == |catalog| then prog
    else if prog.page.cancelled then Progress(AddLog(prog.page, StoppedByUser), prog.finalLayers)
    else Loop(catalog, i + 1, architecture, env, LayerStep(catalog[i], i, architecture, env, prog))
  }

  /** The summary step and the closing log line, after the loop. */
  function Finish(architecture: string, env: Environment, prog: Progress): (p: Page)
    ensures p.layers == prog.page.layers && p.mermaidCode == prog.page.mermaidCode
    ensures p.architecture == prog.page.architecture
    ensures var asked := !prog.page.cancelled && AnyComplete(prog.finalLayers);
            && p.requests == prog.page.requests + (if asked then [SummaryRequest(architecture, prog.finalLayers)] else [])
            && p.summary == (if asked && env.summary.result.Success? then Some(env.summary.result.value)
                             else prog.page.summary)
            && p.cancelled == (prog.page.cancelled || (asked && env.summary.stopPressed))
    ensures prog.page.logs <= p.logs
    ensures !p.cancelled ==> |p.logs| > |prog.page.logs| && p.logs[|p.logs| - 1] == AnalysisComplete
    ensures forall k | |prog.page.logs| <= k < |p.logs| && p.logs[k] == AnalysisComplete ::
              !p.cancelled && k == |p.logs| - 1
  {
    var q := prog.page;
    var q2 :=
      if !q.cancelled && AnyComplete(prog.finalLayers) then
        var a := AddLog(q, GeneratingSummary).(requests := q.requests + [SummaryRequest(architecture, prog.finalLayers)]);
        var b := ApplyStop(a, env.summary.stopPressed);
        match env.summary.result
        case Success(s) => AddLog(b.(summary := Some(s)), SummaryGenerated)
        case Failure(_) => AddLog(b, SummaryFailed)
      else q;
    if !q2.cancelled then AddLog(q2, AnalysisComplete) else q2
  }

  /** `handleAnalyze` over a catalogue of layers. */
  function Analyze(catalog: seq<Layer>, p: Page, architecture: string, env: Environment): (q: Page)
    ensures |q.layers| == |catalog|
    ensures q.architecture == architecture && q.mermaidCode == p.mermaidCode
  {
    Finish(architecture, env, Loop(catalog, 0, architecture, env, Progress(StartRun(p, catalog, architecture), [])))
  }

  /** `handleAnalyze` as the page runs it, over the seven MAESTRO layers. */
  function HandleAnalyze(p: Page, architecture: string, env: Environment): (q: Page)
    ensures |q.layers| == 7
    ensures q.architecture == architecture && q.mermaidCode == p.mermaidCode
  {
    Analyze(MaestroLayers, p, architecture, env)
  }

  // ---------------------------------------------------------------------
  // Reference description of a run

  /** No layer before index `i` saw Stop: layer `i` is analysed. */
  predicate NoStopBefore(env: Environment, i: nat) {
    forall j: nat | j < i :: !StopsDuring(env, j)
  }

  /** The record of a layer after its own iteration, entered with the flag
      clear, given the replies of its threat and mitigation calls. */
  function SettledBy(layer: Layer, t: Reply<string>, m: Reply<Mitigation>): LayerData {
    match t.result
    case Failure(_) => InitialLayer(layer).(status := if t.stopPressed then Analyzing else Error)
    case Success(threat) =>
      if t.stopPressed then InitialLayer(layer).(status := Error)
      else
        match m.result
        case Failure(_) =>
          InitialLayer(layer).(threat := Some(threat), status := if m.stopPressed then Analyzing else Error)
        case Success(mit) =>
          InitialLayer(layer).(threat := Some(threat), mitigation := Some(mit), status := Complete)
  }

  function Settled(layer: Layer, env: Environment, i: nat): LayerData {
    SettledBy(layer, env.threat(i), env.mitigation(i))
  }

  /** The record of layer `j` at the end of a run: settled when it was
      reached, still initial when Stop came earlier. */
  function Expected(catalog: seq<Layer>, env: Environment, j: nat): LayerData
    requires j < |catalog|
  {
    if NoStopBefore(env, j) then Settled(catalog[j], env, j) else InitialLayer(catalog[j])
  }

  function ExpectedLayers(catalog: seq<Layer>, env: Environment): (r: seq<LayerData>)
    ensures |r| == |catalog|
  {
    seq(|catalog|, j requires 0 <= j < |catalog| => Expected(catalog, env, j))
  }

  /** The layers while the loop stands at index `i`. */
  function LayersAt(catalog: seq<Layer>, env: Environment, i: nat): (r: seq<LayerData>)
    ensures |r| == |catalog|
  {
    seq(|catalog|, j requires 0 <= j < |catalog| =>
      if j < i then Expected(catalog, env, j) else InitialLayer(catalog[j]))
  }

  /** The `finalLayers` snapshot while the loop stands at index `i`: the
      layers as they were when the last layer before `i` completed, or empty
      when none did. Layers after that one still show as pending in it. */
  function SnapshotAt(catalog: seq<Layer>, env: Environment, i: nat): seq<LayerData>
    requires i <= |catalog|
  {
    if i == 0 then []
    else if Expected(catalog, env, i - 1).status == Complete then LayersAt(catalog, env, i)
    else SnapshotAt(catalog, env, i - 1)
  }

  /** The threat requests in a trace, in order. */
  function ThreatRequests(requests: seq<Request>): seq<Request>
    decreases |requests|
  {
    if requests == [] then []
    else
      var rest := ThreatRequests(requests[..|requests| - 1]);
      if requests[|requests| - 1].ThreatRequest? then rest + [requests[|requests| - 1]] else rest
  }

  /** The threat requests for the first `n` catalogue layers. */
  function ThreatRequestsFor(catalog: seq<Layer>, architecture: string, n: nat): seq<Request>
    requires n <= |catalog|
  {
    seq(n, j requires 0 <= j < n => ThreatRequest(architecture, catalog[j].name, catalog[j].description))
  }

  predicate NoSummaryRequest(requests: seq<Request>) {
    forall k | 0 <= k < |requests| :: !requests[k].SummaryRequest?
  }

  // ---------------------------------------------------------------------
  // Properties of a run

  lemma ThreatRequestsAppend(requests: seq<Request>, r: Request)
    ensures ThreatRequests(requests + [r]) ==
              if r.ThreatRequest? then ThreatRequests(requests) + [r] else ThreatRequests(requests)
  {
    assert (requests + [r])[..|requests + [r]| - 1] == requests;
  }

  lemma AfterMitigationLayers(catalog: seq<Layer>, i: nat, p: Page, result: Result<Mitigation, Thrown>, finalLayers: seq<LayerData>)
    requires DistinctIds(catalog) && i < |catalog| && IdsMatch(p.layers, catalog)
    ensures AfterMitigation(catalog[i], p, result, finalLayers).page.layers ==
              p.layers[i := if result.Success? then p.layers[i].(mitigation := Some(result.value), status := Complete)
                            else if p.cancelled then p.layers[i]
                            else p.layers[i].(status := Error)]
  {
    if result.Success? {
      MitigationAt(p.layers, catalog, i, result.value);
    } else if !p.cancelled {
      StatusAt(p.layers, catalog, i, Error);
    }
  }

  lemma AfterThreatsLayers(catalog: seq<Layer>, i: nat, t: Reply<string>, m: Reply<Mitigation>, p: Page, finalLayers: seq<LayerData>)
    requires DistinctIds(catalog) && i < |catalog| && IdsMatch(p.layers, catalog)
    requires p.layers[i] == InitialLayer(catalog[i]).(status := Analyzing)
    requires p.cancelled == t.stopPressed
    ensures AfterThreats(catalog[i], m, p, t.result, finalLayers).page.layers ==
              p.layers[i := SettledBy(catalog[i], t, m)]
  {
    var layer := catalog[i];
    match t.result
    case Failure(_) =>
      if !p.cancelled {
        StatusAt(p.layers, catalog, i, Error);
      }
    case Success(threat) =>
      if p.cancelled {
        StatusAt(p.layers, catalog, i, Error);
      } else {
        var withThreat := SetThreat(p.layers, layer.id, threat);
        ThreatAt(p.layers, catalog, i, threat);
        var q := AddLog(p, ThreatReceived(layer.name)).(layers := withThreat);
        var q2 := AddLog(q, CallingMitigation(layer.name)).(requests := q.requests + [MitigationRequest(threat, layer.name)]);
        AfterMitigationLayers(catalog, i, ApplyStop(q2, m.stopPressed), m.result, finalLayers);
      }
  }

  /** One layer's iteration, entered with the flag clear, settles that layer
      and nothing else; the snapshot is retaken exactly when it completes. */
  lemma StepLayers(catalog: seq<Layer>, i: nat, architecture: string, env: Environment, prog: Progress)
    requires DistinctIds(catalog) && i < |catalog| && IdsMatch(prog.page.layers, catalog)
    requires !prog.page.cancelled
    requires prog.page.layers[i] == InitialLayer(catalog[i])
    ensures var r := LayerStep(catalog[i], i, architecture, env, prog);
            && r.page.layers == prog.page.layers[i := Settled(catalog[i], env, i)]
            && r.finalLayers == if Settled(catalog[i], env, i).status == Complete then r.page.layers else prog.finalLayers
  {
    var layer := catalog[i];
    var p := prog.page;
    StatusAt(p.layers, catalog, i, Analyzing);
    var p1 := AddLog(p, LayerStarted(layer.name)).(layers := UpdateLayerStatus(p.layers, layer.id, Analyzing));
    var p2 := AddLog(p1, CallingThreats(layer.name))
                .(requests := p1.requests + [ThreatRequest(architecture, layer.name, layer.description)]);
    var p3 := ApplyStop(p2, env.threat(i).stopPressed);
    AfterThreatsLayers(catalog, i, env.threat(i), env.mitigation(i), p3, prog.finalLayers);
    assert p3.layers[i := Settled(layer, env, i)] == p.layers[i := Settled(layer, env, i)];
  }

  /** One iteration issues the layer's threat request unless the flag was
      already raised, and never a summary request. */
  lemma StepRequests(catalog: seq<Layer>, i: nat, architecture: string, env: Environment, prog: Progress)
    requires i < |catalog|
    ensures var r := LayerStep(catalog[i], i, architecture, env, prog);
            && ThreatRequests(r.page.requests) ==
                 ThreatRequests(prog.page.requests)
                 + (if prog.page.cancelled then [] else [ThreatRequest(architecture, catalog[i].name, catalog[i].description)])
            && (NoSummaryRequest(prog.page.requests) ==> NoSummaryRequest(r.page.requests))
  {
    var r := LayerStep(catalog[i], i, architecture, env, prog);
    if !prog.page.cancelled {
      var tr := ThreatRequest(architecture, catalog[i].name, catalog[i].description);
      var issued := prog.page.requests + [tr];
      ThreatRequestsAppend(prog.page.requests, tr);
      if |r.page.requests| > |issued| {
        var last := r.page.requests[|issued|];
        assert r.page.requests == issued + [last];
        ThreatRequestsAppend(issued, last);
      } else {
        assert r.page.requests == issued;
      }
    }
  }

  lemma LayersAtShape(catalog: seq<Layer>, env: Environment, i: nat)
    requires i < |catalog|
    ensures IdsMatch(LayersAt(catalog, env, i), catalog)
    ensures LayersAt(catalog, env, i)[i] == InitialLayer(catalog[i])
  {
  }

  lemma LayersAtAdvance(catalog: seq<Layer>, env: Environment, i: nat)
    requires i < |catalog| && NoStopBefore(env, i)
    ensures LayersAt(catalog, env, i)[i := Settled(catalog[i], env, i)] == LayersAt(catalog, env, i + 1)
  {
  }

  lemma LayersAtStopped(catalog: seq<Layer>, env: Environment, i: nat)
    requires i <= |catalog| && !NoStopBefore(env, i)
    ensures LayersAt(catalog, env, i) == ExpectedLayers(catalog, env)
  {
    forall j | i <= j < |catalog| ensures !NoStopBefore(env, j) {
    }
  }

  lemma LayersAtEnd(catalog: seq<Layer>, env: Environment)
    ensures LayersAt(catalog, env, |catalog|) == ExpectedLayers(catalog, env)
  {
  }

  /** Once a layer saw Stop, no later layer is reached, so the snapshot stays. */
  lemma {:induction false} SnapshotAfterStop(catalog: seq<Layer>, env: Environment, i: nat, n: nat)
    requires i <= n <= |catalog|
    requires !NoStopBefore(env, i)
    ensures SnapshotAt(catalog, env, n) == SnapshotAt(catalog, env, i)
    decreases n - i
  {
    if n > i {
      assert !NoStopBefore(env, n - 1);
      SnapshotAfterStop(catalog, env, i, n - 1);
    }
  }

  /** The snapshot holds a completed layer exactly when some layer before
      index `i` completed. */
  lemma {:induction false} SnapshotComplete(catalog: seq<Layer>, env: Environment, i: nat)
    requires i <= |catalog|
    ensures AnyComplete(SnapshotAt(catalog, env, i)) <==>
              exists k | 0 <= k < i :: Expected(catalog, env, k).status == Complete
  {
    if i > 0 {
      if Expected(catalog, env, i - 1).status == Complete {
        assert LayersAt(catalog, env, i)[i - 1].status == Complete;
        if AnyComplete(SnapshotAt(catalog, env, i)) {
          assert Expected(catalog, env, i - 1).status == Complete;
        }
      } else {
        SnapshotComplete(catalog, env, i - 1);
        if exists k | 0 <= k < i :: Expected(catalog, env, k).status == Complete {
          var k :| 0 <= k < i && Expected(catalog, env, k).status == Complete;
          assert k < i - 1;
        }
      }
    }
  }

  /** At the end of the loop the snapshot holds a completed layer exactly
      when the run completed one. */
  lemma FinalSnapshotComplete(catalog: seq<Layer>, env: Environment)
    ensures AnyComplete(SnapshotAt(catalog, env, |catalog|)) <==> AnyComplete(ExpectedLayers(catalog, env))
  {
    SnapshotComplete(catalog, env, |catalog|);
    var e := ExpectedLayers(catalog, env);
    if AnyComplete(e) {
      var k :| 0 <= k < |catalog| && e[k].status == Complete;
      assert Expected(catalog, env, k).status == Complete;
    }
    if exists k | 0 <= k < |catalog| :: Expected(catalog, env, k).status == Complete {
      var k :| 0 <= k < |catalog| && Expected(catalog, env, k).status == Complete;
      assert e[k].status == Complete;
    }
  }

  /** The loop stops at once when the flag is raised at its head. */
  lemma LoopLayersStopped(catalog: seq<Layer>, i: nat, architecture: string, env: Environment, prog: Progress)
    requires i < |catalog| && prog.page.cancelled
    requires prog.page.layers == LayersAt(catalog, env, i)
    requires !NoStopBefore(env, i)
    requires prog.finalLayers == SnapshotAt(catalog, env, i)
    ensures var r := Loop(catalog, i, architecture, env, prog);
            && r.page.layers == ExpectedLayers(catalog, env)
            && r.page.cancelled && !NoStopBefore(env, |catalog|)
            && r.finalLayers == SnapshotAt(catalog, env, |catalog|)
  {
    LayersAtStopped(catalog, env, i);
    SnapshotAfterStop(catalog, env, i, |catalog|);
  }

  lemma LoopUnfold(catalog: seq<Layer>, i: nat, architecture: string, env: Environment, prog: Progress)
    requires i < |catalog| && !prog.page.cancelled
    ensures Loop(catalog, i, architecture, env, prog)
            == Loop(catalog, i + 1, architecture, env, LayerStep(catalog[i], i, architecture, env, prog))
  {
  }

  /** An iteration entered with the flag clear carries the loop's layer
      invariant from index `i` to index `i + 1`. */
  lemma StepKeepsLayers(catalog: seq<Layer>, i: nat, architecture: string, env: Environment, prog: Progress)
    requires DistinctIds(catalog) && i < |catalog| && !prog.page.cancelled
    requires prog.page.layers == LayersAt(catalog, env, i)
    requires NoStopBefore(env, i)
    requires prog.finalLayers == SnapshotAt(catalog, env, i)
    ensures var next := LayerStep(catalog[i], i, architecture, env, prog);
            && next.page.layers == LayersAt(catalog, env, i + 1)
            && (next.page.cancelled <==> !NoStopBefore(env, i + 1))
            && next.finalLayers == SnapshotAt(catalog, env, i + 1)
  {
    var next := LayerStep(catalog[i], i, architecture, env, prog);
    LayersAtShape(catalog, env, i);
    StepLayers(catalog, i, architecture, env, prog);
    LayersAtAdvance(catalog, env, i);
    assert Expected(catalog, env, i) == Settled(catalog[i], env, i);
    assert NoStopBefore(env, i + 1) <==> !StopsDuring(env, i);
  }

  /** The loop from index `i` ends with the reference layers, the flag raised
      exactly when some layer saw Stop, and the reference snapshot. */
  lemma {:induction false} LoopLayers(catalog: seq<Layer>, i: nat, architecture: string, env: Environment, prog: Progress)
    requires DistinctIds(catalog) && i <= |catalog|
    requires prog.page.layers == LayersAt(catalog, env, i)
    requires prog.page.cancelled <==> !NoStopBefore(env, i)
    requires prog.finalLayers == SnapshotAt(catalog, env, i)
    ensures var r := Loop(catalog, i, architecture, env, prog);
            && r.page.layers == ExpectedLayers(catalog, env)
            && (r.page.cancelled <==> !NoStopBefore(env, |catalog|))
            && r.finalLayers == SnapshotAt(catalog, env, |catalog|)
    decreases |catalog| - i
  {
    if i == |catalog| {
      LayersAtEnd(catalog, env);
    } else if prog.page.cancelled {
      LoopLayersStopped(catalog, i, architecture, env, prog);
    } else {
      var next := LayerStep(catalog[i], i, architecture, env, prog);
      StepKeepsLayers(catalog, i, architecture, env, prog);
      LoopUnfold(catalog, i, architecture, env, prog);
      LoopLayers(catalog, i + 1, architecture, env, next);
    }
  }

  /** Where the loop ends (at the end of the catalogue, or at a raised flag)
      exactly the layers before index `i` were reached. */
  lemma LoopRequestsEnd(catalog: seq<Layer>, i: nat, architecture: string, env: Environment, prog: Progress)
    requires i <= |catalog| && (i == |catalog| || prog.page.cancelled)
    requires prog.page.cancelled <==> !NoStopBefore(env, i)
    requires i == 0 || NoStopBefore(env, i - 1)
    requires ThreatRequests(prog.page.requests) == ThreatRequestsFor(catalog, architecture, i)
    requires NoSummaryRequest(prog.page.requests)
    ensures var r := Loop(catalog, i, architecture, env, prog);
            && NoSummaryRequest(r.page.requests)
            && ThreatRequests(r.page.requests) == ThreatRequestsFor(catalog, architecture, i)
            && forall j | 0 <= j < |catalog| :: j < i <==> NoStopBefore(env, j)
  {
    forall j | 0 <= j < i ensures NoStopBefore(env, j) {
      assert i > 0 && j <= i - 1;
    }
  }

  /** An iteration carries the request invariant from index `i` to `i + 1`. */
  lemma StepKeepsRequests(catalog: seq<Layer>, i: nat, architecture: string, env: Environment, prog: Progress)
    requires i < |catalog| && !prog.page.cancelled
    requires NoStopBefore(env, i)
    requires ThreatRequests(prog.page.requests) == ThreatRequestsFor(catalog, architecture, i)
    requires NoSummaryRequest(prog.page.requests)
    ensures var next := LayerStep(catalog[i], i, architecture, env, prog);
            && (next.page.cancelled <==> !NoStopBefore(env, i + 1))
            && ThreatRequests(next.page.requests) == ThreatRequestsFor(catalog, architecture, i + 1)
            && NoSummaryRequest(next.page.requests)
  {
    StepRequests(catalog, i, architecture, env, prog);
    assert NoStopBefore(env, i + 1) <==> !StopsDuring(env, i);
    assert ThreatRequestsFor(catalog, architecture, i + 1)
        == ThreatRequestsFor(catalog, architecture, i) + [ThreatRequest(architecture, catalog[i].name, catalog[i].description)];
  }

  /** The loop from index `i` issues no summary request, and the threat
      requests of exactly the layers reached, in catalogue order. */
  lemma {:induction false} LoopRequests(catalog: seq<Layer>, i: nat, architecture: string, env: Environment, prog: Progress)
    requires i <= |catalog|
    requires prog.page.cancelled <==> !NoStopBefore(env, i)
    requires i == 0 || NoStopBefore(env, i - 1)
    requires ThreatRequests(prog.page.requests) == ThreatRequestsFor(catalog, architecture, i)
    requires NoSummaryRequest(prog.page.requests)
    ensures var r := Loop(catalog, i, architecture, env, prog);
            && NoSummaryRequest(r.page.requests)
            && var n := |ThreatRequests(r.page.requests)|;
               && n <= |catalog|
               && ThreatRequests(r.page.requests) == ThreatRequestsFor(catalog, architecture, n)
               && forall j | 0 <= j < |catalog| :: j < n <==> NoStopBefore(env, j)
    decreases |catalog| - i
  {
    if i == |catalog| || prog.page.cancelled {
      LoopRequestsEnd(catalog, i, architecture, env, prog);
    } else {
      var next := LayerStep(catalog[i], i, architecture, env, prog);
      StepKeepsRequests(catalog, i, architecture, env, prog);
      LoopUnfold(catalog, i, architecture, env, prog);
      LoopRequests(catalog, i + 1, architecture, env, next);
    }
  }

  /** Whether the run asks for an executive summary: no layer saw Stop and
      some layer completed. */
  predicate SummaryAsked(catalog: seq<Layer>, env: Environment) {
    NoStopBefore(env, |catalog|) && AnyComplete(ExpectedLayers(catalog, env))
  }

  /** The layers a run ends with are the reference ones; the diagram is kept. */
  lemma RunLayers(catalog: seq<Layer>, p: Page, architecture: string, env: Environment)
    requires DistinctIds(catalog)
    ensures var q := Analyze(catalog, p, architecture, env);
            && q.layers == ExpectedLayers(catalog, env)
            && q.mermaidCode == p.mermaidCode
            && q.architecture == architecture
  {
    RunLoopLayers(catalog, p, architecture, env);
    RunLoopPage(catalog, p, architecture, env);
  }

  /** The summary is requested, with the snapshot, exactly when no layer saw
      Stop and some layer completed, and shown exactly when that request
      succeeded. */
  lemma RunSummary(catalog: seq<Layer>, p: Page, architecture: string, env: Environment)
    requires DistinctIds(catalog)
    ensures var q := Analyze(catalog, p, architecture, env);
            && (SummaryAsked(catalog, env) ==>
                  SummaryRequest(architecture, SnapshotAt(catalog, env, |catalog|)) in q.requests)
            && (!SummaryAsked(catalog, env) ==> NoSummaryRequest(q.requests))
            && q.summary == (if SummaryAsked(catalog, env) && env.summary.result.Success?
                             then Some(env.summary.result.value) else None)
  {
    RunLoopLayers(catalog, p, architecture, env);
    RunLoopRequests(catalog, p, architecture, env);
    RunLoopPage(catalog, p, architecture, env);
    var r := Loop(catalog, 0, architecture, env, Progress(StartRun(p, catalog, architecture), []));
    var q := Finish(architecture, env, r);
    if SummaryAsked(catalog, env) {
      assert q.requests[|q.requests| - 1] == SummaryRequest(architecture, r.finalLayers);
    }
  }

  /** "Full analysis complete." is logged exactly when Stop was never pressed. */
  lemma RunClosingLog(catalog: seq<Layer>, p: Page, architecture: string, env: Environment)
    requires DistinctIds(catalog)
    ensures var q := Analyze(catalog, p, architecture, env);
            AnalysisComplete in q.logs <==>
              NoStopBefore(env, |catalog|) && !(SummaryAsked(catalog, env) && env.summary.stopPressed)
  {
    RunLoopLayers(catalog, p, architecture, env);
    RunLoopPage(catalog, p, architecture, env);
    var r := Loop(catalog, 0, architecture, env, Progress(StartRun(p, catalog, architecture), []));
    FinishClosingLog(architecture, env, r);
  }

  /** The layers are entered in catalogue order, up to and including the
      first one that saw Stop. */
  lemma RunThreatRequests(catalog: seq<Layer>, p: Page, architecture: string, env: Environment)
    requires DistinctIds(catalog)
    ensures var q := Analyze(catalog, p, architecture, env);
            var n := |ThreatRequests(q.requests)|;
            && n <= |catalog|
            && ThreatRequests(q.requests) == ThreatRequestsFor(catalog, architecture, n)
            && forall j | 0 <= j < |catalog| :: j < n <==> NoStopBefore(env, j)
  {
    RunLoopRequests(catalog, p, architecture, env);
    var r := Loop(catalog, 0, architecture, env, Progress(StartRun(p, catalog, architecture), []));
    var q := Finish(architecture, env, r);
    if q.requests != r.page.requests {
      ThreatRequestsAppend(r.page.requests, SummaryRequest(architecture, r.finalLayers));
    }
  }

  /** The layers the loop of a run leaves, started from the reset page. */
  lemma RunLoopLayers(catalog: seq<Layer>, p: Page, architecture: string, env: Environment)
    requires DistinctIds(catalog)
    ensures var r := Loop(catalog, 0, architecture, env, Progress(StartRun(p, catalog, architecture), []));
            && r.page.layers == ExpectedLayers(catalog, env)
            && (r.page.cancelled <==> !NoStopBefore(env, |catalog|))
            && r.finalLayers == SnapshotAt(catalog, env, |catalog|)
            && (AnyComplete(r.finalLayers) <==> AnyComplete(ExpectedLayers(catalog, env)))
  {
    var start := Progress(StartRun(p, catalog, architecture), []);
    assert start.page.layers == LayersAt(catalog, env, 0);
    LoopLayers(catalog, 0, architecture, env, start);
    FinalSnapshotComplete(catalog, env);
  }

  /** The requests the loop of a run issues, started from the reset page. */
  lemma RunLoopRequests(catalog: seq<Layer>, p: Page, architecture: string, env: Environment)
    ensures var r := Loop(catalog, 0, architecture, env, Progress(StartRun(p, catalog, architecture), []));
            && NoSummaryRequest(r.page.requests)
            && var n := |ThreatRequests(r.page.requests)|;
               && n <= |catalog|
               && ThreatRequests(r.page.requests) == ThreatRequestsFor(catalog, architecture, n)
               && forall j | 0 <= j < |catalog| :: j < n <==> NoStopBefore(env, j)
  {
    var start := Progress(StartRun(p, catalog, architecture), []);
    assert ThreatRequests(start.page.requests) == [];
    LoopRequests(catalog, 0, architecture, env, start);
  }

  /** The loop of a run logs no closing line and keeps the summary cleared. */
  lemma RunLoopPage(catalog: seq<Layer>, p: Page, architecture: string, env: Environment)
    ensures var r := Loop(catalog, 0, architecture, env, Progress(StartRun(p, catalog, architecture), []));
            && AnalysisComplete !in r.page.logs
            && r.page.summary.None? && r.page.mermaidCode == p.mermaidCode && r.page.architecture == architecture
  {
    var start := Progress(StartRun(p, catalog, architecture), []);
    var r := Loop(catalog, 0, architecture, env, start);
    assert r.page.logs[0] == AnalysisStarting;
  }

  /** The closing line is logged by the final step exactly when the flag is
      still clear at its end. */
  lemma FinishClosingLog(architecture: string, env: Environment, prog: Progress)
    requires AnalysisComplete !in prog.page.logs
    ensures var q := Finish(architecture, env, prog);
            AnalysisComplete in q.logs <==> !q.cancelled
  {
    var q := Finish(architecture, env, prog);
    if AnalysisComplete in q.logs {
      var k :| 0 <= k < |q.logs| && q.logs[k] == AnalysisComplete;
      assert k >= |prog.page.logs|;
    }
  }

  /** A completed layer carries both its threat analysis and its mitigation. */
  lemma CompleteHasResults(catalog: seq<Layer>, p: Page, architecture: string, env: Environment, j: nat)
    requires DistinctIds(catalog) && j < |catalog|
    ensures var q := Analyze(catalog, p, architecture, env);
            q.layers[j].status == Complete ==> q.layers[j].threat.Some? && q.layers[j].mitigation.Some?
  {
    RunLayers(catalog, p, architecture, env);
    var l := Expected(catalog, env, j);
    assert Analyze(catalog, p, architecture, env).layers[j] == l;
    if NoStopBefore(env, j) {
      SettledComplete(catalog[j], env.threat(j), env.mitigation(j));
    }
  }

  /** A layer settles as complete only with both results. */
  lemma SettledComplete(layer: Layer, t: Reply<string>, m: Reply<Mitigation>)
    ensures SettledBy(layer, t, m).status == Complete ==>
              SettledBy(layer, t, m).threat.Some? && SettledBy(layer, t, m).mitigation.Some?
  {
  }

  /** Without Stop, one layer's failure does not hold up the others: every
      layer ends complete when both of its calls succeed and failed otherwise. */
  lemma FailuresAreIsolated(catalog: seq<Layer>, p: Page, architecture: string, env: Environment)
    requires DistinctIds(catalog)
    requires forall j: nat :: !env.threat(j).stopPressed && !env.mitigation(j).stopPressed
    ensures var q := Analyze(catalog, p, architecture, env);
            forall j | 0 <= j < |catalog| ::
              q.layers[j].status == (if env.threat(j).result.Success? && env.mitigation(j).result.Success?
                                     then Complete else Error)
  {
    RunLayers(catalog, p, architecture, env);
    forall j | 0 <= j < |catalog| ensures NoStopBefore(env, j) { }
  }

  /** Stop pressed while layer `k`'s threat call succeeds: that layer is
      marked failed without its threat, every later layer stays pending, and
      no summary is produced. */
  lemma StopDuringThreats(catalog: seq<Layer>, p: Page, architecture: string, env: Environment, k: nat)
    requires DistinctIds(catalog) && k < |catalog|
    requires NoStopBefore(env, k)
    requires env.threat(k).stopPressed && env.threat(k).result.Success?
    ensures var q := Analyze(catalog, p, architecture, env);
            && q.layers[k].status == Error && q.layers[k].threat.None?
            && (forall j | k < j < |catalog| :: q.layers[j] == InitialLayer(catalog[j]))
            && q.summary.None?
  {
    RunLayers(catalog, p, architecture, env);
    RunSummary(catalog, p, architecture, env);
    assert StopsDuring(env, k);
    assert !NoStopBefore(env, |catalog|);
    forall j | k < j < |catalog| ensures !NoStopBefore(env, j) {
      assert StopsDuring(env, k);
    }
  }
}
