/**
 * The agent's tool registry (tools.py) and the rule that says which read confirms
 * which write (loop.py, _same_resource).
 */
module AgentTools {
  import opened Sequences

  datatype ToolName =
    | TicketReadMessages | KnowledgeSearch | KnowledgeFetch
    | ClusterReadPods | ClusterReadDeployment | ClusterPatchImage
    | DeviceReadState | DeviceRunAction | DeviceComputerUse | DeviceProposeCommand
    | CmdbRecordObservation | CmdbImpact

  datatype Surface = Ticket | Cluster | Device | Cmdb | Knowledge

  datatype Effect = Read | Write

  function SurfaceOf(t: ToolName): Surface {
    match t
    case TicketReadMessages => Ticket
    case KnowledgeSearch | KnowledgeFetch => Knowledge
    case ClusterReadPods | ClusterReadDeployment | ClusterPatchImage => Cluster
    case DeviceReadState | DeviceRunAction | DeviceComputerUse | DeviceProposeCommand => Device
    case CmdbRecordObservation | CmdbImpact => Cmdb
  }

  function EffectOf(t: ToolName): Effect {
    match t
    case ClusterPatchImage | DeviceRunAction | DeviceComputerUse | DeviceProposeCommand | CmdbRecordObservation => Write
    case _ => Read
  }

  /** The read tool that confirms a write landed. */
  function VerifiedBy(t: ToolName): Option<ToolName> {
    match t
    case ClusterPatchImage => Some(ClusterReadDeployment)
    case DeviceRunAction | DeviceComputerUse => Some(DeviceReadState)
    case _ => None
  }

  datatype Facet =
    | Resolver | Adapters | Reachability | Proxy | Identity | Processes
    | Certificates | Storage | AppCache | Printing | Screen

  datatype DeviceAction =
    | FlushDns | RenewDhcpLease | ClearProxyOverride | ResetCredentialCache | RestartUserProcess
    | DisableProxy | RefreshCertificateStore | ClearTempFiles | ClearOutlookCache | ClearTeamsCache
    | ClearIconCache | ClearPrintQueue | GuiInvokeControl | GuiSetControlValue | GuiToggleControl
    | GuiSelectItem | GuiExpandControl
    | Unlisted(name: string)

  /** The facets that observe an action; an unlisted one is observed by nothing. */
  function ActionFacets(a: DeviceAction): set<Facet> {
    match a
    case FlushDns => {Resolver}
    case RenewDhcpLease => {Adapters}
    case ClearProxyOverride | DisableProxy => {Proxy}
    case ResetCredentialCache => {Identity}
    case RestartUserProcess => {Processes}
    case RefreshCertificateStore => {Certificates}
    case ClearTempFiles => {Storage}
    case ClearOutlookCache | ClearTeamsCache | ClearIconCache => {AppCache}
    case ClearPrintQueue => {Printing}
    case GuiInvokeControl | GuiSetControlValue | GuiToggleControl | GuiSelectItem | GuiExpandControl => {Screen}
    case Unlisted(_) => {}
  }

  datatype Field =
    | Reasoning | Facets | Parameters | TimeoutSeconds | Objective | Action | Image | ContainerIndex
    | Environment | DeviceId | Namespace | Name | Other(key: string)

  datatype Value = Text(text: string) | Number(n: int) | FacetList(facets: seq<Facet>) | ActionName(action: DeviceAction)

  type Payload = map<Field, Value>

  /** Keys that say how a call was made, not which resource it touched. */
  const NOT_IDENTIFYING: set<Field> :=
    {Reasoning, Facets, Parameters, TimeoutSeconds, Objective, Action, Image, ContainerIndex}

  predicate ObservesAction(action: Value, facets: Option<Value>) {
    && action.ActionName? && facets.Some? && facets.value.FacetList?
    && exists f :: f in facets.value.facets && f in ActionFacets(action.action)
  }

  function Get(p: Payload, f: Field): Option<Value> { if f in p then Some(p[f]) else None }

  /** A run environment counts when it is set and not empty. */
  predicate Targeted(environment: Option<string>) { environment.Some? && environment.value != "" }

  predicate SameResource(write: Payload, read: Payload, environment: Option<string>) {
    if Action in write && !ObservesAction(write[Action], Get(read, Facets)) then false
    else
      var shared := write.Keys * (read.Keys - NOT_IDENTIFYING);
      if shared == {} then false
      else if Targeted(environment) && (Environment in write || Environment in read)
              && (Get(write, Environment) != Some(Text(environment.value))
                  || Get(read, Environment) != Some(Text(environment.value))) then false
      else forall key :: key in shared ==> write[key] == read[key]
  }

  /** Environment defaulting before a cluster call is sent. */
  function WithEnvironment(t: ToolName, p: Payload, environment: Option<string>): Payload {
    if SurfaceOf(t) == Cluster && Targeted(environment)
       && (Environment !in p || p[Environment] == Text(""))
    then p[Environment := Text(environment.value)]
    else p
  }

  /** A read that clears a device write looked at a facet that observes the action. */
  lemma ClearingReadSeesAction(write: Payload, read: Payload, environment: Option<string>)
    requires SameResource(write, read, environment) && Action in write
    ensures write[Action].ActionName? && Facets in read && read[Facets].FacetList?
    ensures exists f :: f in read[Facets].facets && f in ActionFacets(write[Action].action)
  {}

  /** In a targeted run a cleared write and its read both named the run's environment, or neither named any. */
  lemma ClearingReadStaysInEnvironment(write: Payload, read: Payload, environment: Option<string>)
    requires SameResource(write, read, environment) && Targeted(environment)
    requires Environment in write || Environment in read
    ensures Get(write, Environment) == Get(read, Environment) == Some(Text(environment.value))
  {}

  /** A read clears a device action when it names the same device, shares no other resource
      key with it, and asks for a facet that observes the action. */
  lemma ObservingReadClears(write: Payload, read: Payload, environment: Option<string>, facet: Facet)
    requires DeviceId in write && DeviceId in read && write[DeviceId] == read[DeviceId]
    requires forall key :: key in write && key in read ==> key in NOT_IDENTIFYING + {DeviceId}
    requires Action in write && write[Action].ActionName? && facet in ActionFacets(write[Action].action)
    requires Facets in read && read[Facets].FacetList? && facet in read[Facets].facets
    requires Environment !in write && Environment !in read
    ensures SameResource(write, read, environment)
  {
    assert DeviceId in write.Keys * (read.Keys - NOT_IDENTIFYING);
  }

  /** A deployment read clears a patch of the same deployment, in the run's environment. */
  lemma DeploymentReadClears(write: Payload, read: Payload, environment: string)
    requires Action !in write
    requires Environment in write && Environment in read
    requires write[Environment] == read[Environment] == Text(environment)
    requires forall key :: key in write && key in read && key !in NOT_IDENTIFYING ==> write[key] == read[key]
    ensures SameResource(write, read, Some(environment)) && SameResource(write, read, None)
  {
    assert Environment in write.Keys * (read.Keys - NOT_IDENTIFYING);
  }

  /** Two calls that differ in a shared resource key, or share none, concern different resources. */
  lemma OtherResource(write: Payload, read: Payload, environment: Option<string>)
    requires (forall key :: key in write && key in read ==> key in {Reasoning, Facets, Parameters, TimeoutSeconds, Objective,
                                                                    Action, Image, ContainerIndex})
             || exists key :: key in write && key in read && write[key] != read[key]
                              && key !in {Reasoning, Facets, Parameters, TimeoutSeconds, Objective, Action, Image, ContainerIndex}
    ensures !SameResource(write, read, environment)
  {
    if key :| key in write && key in read && write[key] != read[key]
              && key !in {Reasoning, Facets, Parameters, TimeoutSeconds, Objective, Action, Image, ContainerIndex} {
      assert key in write.Keys * (read.Keys - NOT_IDENTIFYING);
    }
  }

  /** A cluster call of a targeted run names an environment: its own, or else the run's.
      Nothing else about a payload changes. */
  lemma EnvironmentIsDefaulted(t: ToolName, p: Payload, environment: Option<string>)
    ensures var q := WithEnvironment(t, p, environment);
      && (forall f :: f != Environment ==> (f in q <==> f in p) && (f in p ==> q[f] == p[f]))
      && (t in {ClusterReadPods, ClusterReadDeployment, ClusterPatchImage} && environment.Some? && environment.value != "" ==>
            Environment in q && q[Environment] == if Environment in p && p[Environment] != Text("") then p[Environment]
                                                  else Text(environment.value))
      && (t !in {ClusterReadPods, ClusterReadDeployment, ClusterPatchImage} || environment.None? || environment.value == "" ==>
            q == p)
  {}

  /** What is verified are writes, by a read of the same surface. */
  lemma VerifiersRead(t: ToolName)
    ensures EffectOf(t) == Write <==>
            t in {ClusterPatchImage, DeviceRunAction, DeviceComputerUse, DeviceProposeCommand, CmdbRecordObservation}
    ensures VerifiedBy(t).Some? <==> t in {ClusterPatchImage, DeviceRunAction, DeviceComputerUse}
    ensures VerifiedBy(t).Some? ==>
      EffectOf(t) == Write && EffectOf(VerifiedBy(t).value) == Read && SurfaceOf(VerifiedBy(t).value) == SurfaceOf(t)
  {}
}
