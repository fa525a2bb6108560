/** Values shared by the browser panel, the lazy tree and the dashboard
    resolver: OPC UA browse results, dashboard records, the outbound calls the
    core makes, and the oracles that answer those calls. */
module UaTypes {

  datatype Option<+T> = None | Some(value: T)

  /** What the code awaiting a JavaScript promise eventually sees.
      `Pending` is a promise whose executor never calls `resolve`: nothing
      after an `await` on it ever runs. */
  datatype Promise<+T> = Pending | Resolved(value: T)

  /** A namespaced label; a browse path is a sequence of them. */
  datatype QualifiedName = QualifiedName(name: string, namespaceUrl: string)

  /** One browse result of the automation server; `nodeId` is its identity. */
  datatype Node = Node(
    nodeId: string,
    browseName: QualifiedName,
    displayName: string,
    isForward: bool,
    nodeClass: int)

  /** OPC UA NodeClass bits used by the core. */
  const NodeClassObject: bv32 := 1
  const NodeClassObjectType: bv32 := 8

  /** The dashboard hint the backend keeps for a node; either field may be
      missing from the reply. */
  datatype DashboardInfo = DashboardInfo(name: Option<string>, dashKeys: Option<seq<string>>)

  /** One hit of the dashboard repository search. */
  datatype DashboardData = DashboardData(
    id: int,
    uid: string,
    title: string,
    url: string,
    dashKeys: Option<seq<string>>)

  /** The parameters of an `adddashboardmapping` request. */
  datatype MappingParams = MappingParams(
    nodeId: string,
    typeNodeId: string,
    useType: bool,
    interfaces: string,
    dashboard: string,
    existingDashboard: Option<string>,
    perspective: string)

  /** Every outbound call the core makes, in the order it makes them:
      backend resources, the dashboard search over HTTP, and the host's
      data-source registry. */
  datatype Request =
    | BrowseReq(nodeId: string, nodeClassMask: Option<int>)
    | ReferenceTargetsReq(nodeId: string, referenceId: string)
    | NodePresentReq(nodeId: string)
    | NamespacesReq
    | DashboardInfoReq(nodeId: string, perspective: string)
    | MappingReq(params: MappingParams)
    | SearchReq(url: string)
    | DataSourceLookupReq(name: string)

  /** The connected backend, as the answers it gives to each resource.
      `None` stands for a falsy (null or missing) reply body. */
  datatype Backend = Backend(
    browse: (string, Option<int>) -> seq<Node>,
    referenceTargets: (string, string) -> Option<seq<Node>>,
    nodePresent: string -> Option<bool>,
    namespaces: Option<seq<string>>,
    dashboardInfo: (string, string) -> Option<DashboardInfo>,
    addMapping: MappingParams -> bool)

  /** The browser runtime: `encodeURI`, `fetch` followed by `json()` on the
      dashboard search, and `JSON.stringify` on a list of strings. */
  datatype Host = Host(
    encodeUri: string -> string,
    search: string -> Option<seq<DashboardData>>,
    stringify: seq<string> -> string)

  /** A reply body, or the empty list when the body is falsy. */
  function OrEmpty<T>(body: Option<seq<T>>): (r: seq<T>)
    ensures body.Some? ==> r == body.value
    ensures body.None? ==> r == []
  {
    if body.Some? then body.value else []
  }

  /** The outcome of one asynchronous chain together with the calls it made. */
  datatype Traced<+T> = Traced(result: Promise<T>, calls: seq<Request>)
}
