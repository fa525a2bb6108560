/** Dashboard resolution for a node: the backend's dashboard hint is looked
    up, the dashboard repository is searched by the hint's name, and the
    first hit is returned with the hint's dash keys laid over it. Every
    function returns the promise outcome together with the calls it made. */
module DashboardResolver {
  import opened UaTypes

  /** The only perspective the resolver asks for. */
  const Perspective := "Operator"

  /** The dashboard search endpoint; the query string follows it. */
  const SearchPrefix := "/api/search?query="

  /** The descriptor carries a name that is present and not empty. */
  predicate HasName(info: Option<DashboardInfo>)
  {
    info.Some? && info.value.name.Some? && |info.value.name.value| > 0
  }

  /** The first hit of a parsed search body; a falsy body or an empty list
      gives no hit. */
  function FirstHit(body: Option<seq<DashboardData>>): (r: Option<DashboardData>)
    ensures r.Some? <==> body.Some? && |body.value| > 0
    ensures r.Some? ==> r.value == body.value[0]
  {
    if body.Some? && |body.value| > 0 then Some(body.value[0]) else None
  }

  /** A hit with its `dashKeys` overwritten by the descriptor's. */
  function Overlay(hit: Option<DashboardData>, dashKeys: Option<seq<string>>): Option<DashboardData>
  {
    if hit.Some? then Some(hit.value.(dashKeys := dashKeys)) else None
  }

  /** `getDashboard`: without a data source nothing is called and the promise
      never settles. Otherwise the descriptor is fetched; only a non-empty
      name leads to a search, and only a search with hits leads to a
      dashboard, which is the first hit with the descriptor's dash keys. */
  function GetDashboard(nodeId: string, dataSource: Option<Backend>, host: Host)
    : (r: Traced<Option<DashboardData>>)
    ensures dataSource.None? ==> r == Traced(Pending, [])
    ensures dataSource.Some? ==>
      var info := dataSource.value.dashboardInfo(nodeId, Perspective);
      && r.result.Resolved?
      && (!HasName(info) ==>
            r.calls == [DashboardInfoReq(nodeId, Perspective)] && r.result.value.None?)
      && (HasName(info) ==>
            var url := SearchPrefix + host.encodeUri(info.value.name.value);
            var body := host.search(url);
            && r.calls == [DashboardInfoReq(nodeId, Perspective), SearchReq(url)]
            && (r.result.value.Some? <==> body.Some? && |body.value| > 0)
            && (r.result.value.Some? ==>
                  r.result.value.value == body.value[0].(dashKeys := info.value.dashKeys)))
  {
    if dataSource.None? then Traced(Pending, [])
    else
      var info := dataSource.value.dashboardInfo(nodeId, Perspective);
      var asked := [DashboardInfoReq(nodeId, Perspective)];
      if !HasName(info) then Traced(Resolved(None), asked)
      else
        var url := SearchPrefix + host.encodeUri(info.value.name.value);
        Traced(Resolved(Overlay(FirstHit(host.search(url)), info.value.dashKeys)), asked + [SearchReq(url)])
  }

  /** `getDashboardData`: always one search, by the given name (even an
      empty one); the first hit is returned as found. */
  function GetDashboardData(dashboardName: string, host: Host): (r: Traced<Option<DashboardData>>)
    ensures r.result.Resolved?
    ensures r.calls == [SearchReq(SearchPrefix + host.encodeUri(dashboardName))]
    ensures var body := host.search(SearchPrefix + host.encodeUri(dashboardName));
      && (r.result.value.Some? <==> body.Some? && |body.value| > 0)
      && (r.result.value.Some? ==> r.result.value.value == body.value[0])
  {
    var url := SearchPrefix + host.encodeUri(dashboardName);
    Traced(Resolved(FirstHit(host.search(url))), [SearchReq(url)])
  }

  /** `addDashboardMapping`: the backend is asked only when there is a data
      source and a dashboard; the request always carries the `Operator`
      perspective and the serialised interface list, and the reply's
      `success` is the answer. Otherwise the promise never settles. */
  function AddDashboardMapping(
    nodeId: string, typeNodeId: string, useType: bool, interfaces: seq<string>,
    dashboard: Option<string>, existingDashboard: Option<string>,
    dataSource: Option<Backend>, host: Host): (r: Traced<bool>)
    ensures r.result.Resolved? <==> dataSource.Some? && dashboard.Some?
    ensures r.result.Pending? ==> r.calls == []
    ensures r.result.Resolved? ==>
      |r.calls| == 1 && r.calls[0].MappingReq?
      && var p := r.calls[0].params;
      && p == MappingParams(nodeId, typeNodeId, useType, host.stringify(interfaces),
                            dashboard.value, existingDashboard, Perspective)
      && r.result.value == dataSource.value.addMapping(p)
  {
    if dataSource.Some? && dashboard.Some? then
      var p := MappingParams(nodeId, typeNodeId, useType, host.stringify(interfaces),
                             dashboard.value, existingDashboard, Perspective);
      Traced(Resolved(dataSource.value.addMapping(p)), [MappingReq(p)])
    else
      Traced(Pending, [])
  }

  /** `getAllDashboards`: one search with an empty query; the parsed list,
      or the empty list for a falsy body. */
  function GetAllDashboards(host: Host): (r: Traced<seq<DashboardData>>)
    ensures r.calls == [SearchReq(SearchPrefix)]
    ensures r.result.Resolved?
    ensures host.search(SearchPrefix).Some? ==> r.result.value == host.search(SearchPrefix).value
    ensures host.search(SearchPrefix).None? ==> r.result.value == []
  {
    var body := host.search(SearchPrefix);
    Traced(Resolved(OrEmpty(body)), [SearchReq(SearchPrefix)])
  }

  /** With a data source and a named descriptor, `getDashboard` is the
      descriptor lookup followed by exactly what `getDashboardData` does for
      that name, with the descriptor's dash keys laid over the hit. */
  lemma GetDashboardExtendsGetDashboardData(nodeId: string, dataSource: Option<Backend>, host: Host)
    requires dataSource.Some?
    requires HasName(dataSource.value.dashboardInfo(nodeId, Perspective))
    ensures var info := dataSource.value.dashboardInfo(nodeId, Perspective);
      var data := GetDashboardData(info.value.name.value, host);
      && GetDashboard(nodeId, dataSource, host).calls == [DashboardInfoReq(nodeId, Perspective)] + data.calls
      && GetDashboard(nodeId, dataSource, host).result == Resolved(Overlay(data.result.value, info.value.dashKeys))
  {
  }
}
