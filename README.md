# OPC UA browser panel and dashboard resolver — a Dafny model

This project models three pieces of decision logic from two Grafana panels
for an OPC UA automation server.

The first is the **browser panel**, `UaBrowserPanel`. It hands a lazy tree a
`browse` function. It drops duplicate browse results by node id, keeping the
first occurrence. It picks the root folder (`Objects` i=85, or `Types` i=86).
When the user selects a node it does the following:

- looks up the node's type through HasTypeDefinition (`i=40`);
- resolves the node's operator dashboard;
- sends a merge-update of the shared query parameters;
- in configuration mode, collects the node's HasInterface (`i=17603`) targets
  and its ISA-95 DefinedByEquipmentClass (`i=4919`) targets. Each reference is
  fetched only when its presence probe answered true.

The second is the **lazy tree root**, `Browser`. It stores a root, its
children, and a flag saying whether they have been fetched. A new root id
resets the cache. While nothing has been fetched, each render issues a
browse of the root. When the answer arrives, the children latch. Selections
are forwarded to the host, and the tree is closed on select when configured
to. The theme is written once.

The third is **dashboard resolution**, `UaDashboardResolver`. It fetches the
backend's dashboard descriptor for the node under the `Operator`
perspective. Only a non-empty descriptor name leads to a search of the
dashboard repository. The first hit is returned with the descriptor's
`dashKeys` laid over it. The same file has the simpler search,
mapping-creation and list-all wrappers.

How the model represents the source:

- Every backend `getResource` answer, the `fetch` + `json()` of the
  dashboard search, `encodeURI` and `JSON.stringify` are oracle functions
  (`UaTypes.Backend`, `UaTypes.Host`).
- Each operation returns its outcome together with the list of calls it
  made (`UaTypes.Traced`).
- The source often returns `new Promise(() => x)` when no data source is
  present. Its executor never resolves, so that promise never settles. The
  model writes it as `Promise.Pending` with no calls, not as an empty or
  false result.
- `removeDuplicates` is a loop over a mutable "encountered" set. It is
  proved equal to the specification function `Deduplicated`. The lemmas
  about `Deduplicated` state what the stable filter guarantees.
- Both components whose state changes in place are classes. `Browser` has
  `rootNode`, `children`, `fetchedChildren`, `theme` and a log of
  notifications. `UaBrowserPanel` has the stored selection, type, dashboard
  and interfaces, plus the call and location-update logs.

Behaviour of the code that is easy to misread:

- Without a data source, `browseReferenceTargets`, `isNodePresentAtServer`,
  `getNamespaces`, `browse` and `getDashboard` never settle. They do not
  return an empty or negative result, and they raise no distinguishable
  failure. As a consequence, `nodeSelectedChanged` without a data source
  stops at its first `await`, and nothing changes.
- The tree guarantees only that no browse is issued once the children have
  been fetched. A render while the request is still in flight issues
  another browse, so "at most one browse per root" does not hold and is not
  claimed. Mounting alone already renders twice before any answer, so it
  issues two browses.
- The root reset in `Browser.render` is a `setState` call, which takes
  effect only after that render. The render that first sees a new root id
  therefore still works on the old state. If the previous root's children
  had latched, it shows them and issues no browse (`BrowserTree.RootChange`).
  If they had not, it already browses the new root and shows nothing. Either
  way, the re-render that follows the reset browses the new root (again).
- An empty type lookup always leaves the stored type null. The source clears
  it only when it was set, which ends in the same state.
- The root shown and the browse mask are chosen by different tests. The
  root is `Objects` only for `root == 'Objects'`. The mask is sent only for
  `root == "Types"`. Any other configured root shows the Types folder but
  browses it without the mask (`BrowserPanel.TypesFolderWithoutMask`).

## Model

| member | source | states |
|---|---|---|
| `BrowserPanel.Deduplicated` | ua-browser/src/UaBrowserPanel.tsx:279-294 | the stable node-id filter never grows its input |
| `BrowserPanel.DeduplicatedIds` | ua-browser/src/UaBrowserPanel.tsx:283-291 | the output holds every node id of the input and no other |
| `BrowserPanel.DeduplicatedDistinct` | ua-browser/src/UaBrowserPanel.tsx:279-294 | no two output elements share a node id |
| `BrowserPanel.DeduplicatedKeepsFirstOccurrences` | ua-browser/src/UaBrowserPanel.tsx:283-291 | the output is exactly the first occurrence of each id, as an order-preserving subsequence of the input (increasing positions, each a first occurrence, every first occurrence included) |
| `BrowserPanel.DeduplicatedOfDistinct` | ua-browser/src/UaBrowserPanel.tsx:283-291 | input with distinct ids is returned unchanged |
| `BrowserPanel.DeduplicatedIdempotent` | ua-browser/src/UaBrowserPanel.tsx:283-291 | deduplicating twice equals deduplicating once |
| `BrowserPanel.DeduplicatedExample` | ua-browser/src/UaBrowserPanel.tsx:283-291 | [A, B, A', C, B'] with repeated ids becomes [A, B, C] |
| `BrowserPanel.RemoveDuplicates` | ua-browser/src/UaBrowserPanel.tsx:279-294 | the loop over the encountered set computes the stable filter; its result has distinct ids and the same id set as the input |
| `BrowserPanel.RootNode` | ua-browser/src/UaBrowserPanel.tsx:203-218 | node i=85 "Objects" exactly when root is `Objects`, i=86 "Types" otherwise; forward, node class 1, standard namespace |
| `BrowserPanel.BrowseChildren` | ua-browser/src/UaBrowserPanel.tsx:244-277 | no data source: a data-source lookup and a promise that never settles; otherwise one browse of the parent, with mask 9 (ObjectType\|Object) and the reply unfiltered exactly when root is `Types`, else no mask and the deduplicated reply (distinct ids, same id set) |
| `BrowserPanel.TypesFolderWithoutMask` | ua-browser/src/UaBrowserPanel.tsx:203-264 | a root other than `Objects` or `Types` shows the Types folder yet browses it without the mask |
| `BrowserPanel.IsNodePresentAtServer` | ua-browser/src/UaBrowserPanel.tsx:184-201 | never settles without a data source; otherwise one probe, true exactly when the backend answered true |
| `BrowserPanel.BrowseReferenceTargets` | ua-browser/src/UaBrowserPanel.tsx:316-340 | never settles without a data source; otherwise one request, the reply's targets or [] for a falsy reply |
| `BrowserPanel.GetNamespaces` | ua-browser/src/UaBrowserPanel.tsx:296-314 | never settles without a data source; otherwise one request, the namespace list or [] for a falsy reply |
| `BrowserPanel.ProbeThenBrowse` | ua-browser/src/UaBrowserPanel.tsx:153-175 | the reference targets are requested only after a probe that answered true; otherwise only the probe is sent and nothing is collected |
| `BrowserPanel.Capabilities` | ua-browser/src/UaBrowserPanel.tsx:146-180 | the interface list is the HasInterface targets followed by the equipment-class targets; the calls are exactly the HasInterface probe, its targets request only when it answered true, the ISA-95 probe (always sent), and its targets request only when it answered true, in that order |
| `BrowserPanel.CollectInterfaces` | ua-browser/src/UaBrowserPanel.tsx:148-175 | the two probe-and-push loops build exactly the gated interface list and make exactly its calls |
| `BrowserPanel.UaBrowserPanel.constructor` | ua-browser/src/UaBrowserPanel.tsx:29-43 | every stored field starts null and nothing has been called |
| `BrowserPanel.UaBrowserPanel.DataSourceArrived` | ua-browser/src/UaBrowserPanel.tsx:248-252 | the looked-up data source is stored |
| `BrowserPanel.UaBrowserPanel.Browse` | ua-browser/src/UaBrowserPanel.tsx:244-277 | the tree's `browse` returns the outcome of `BrowseChildren` on the stored data source and records its calls |
| `BrowserPanel.UaBrowserPanel.NodeSelectedChanged` | ua-browser/src/UaBrowserPanel.tsx:101-182 | without a data source nothing changes; otherwise the type is the first i=40 target or null, the selection, path and resolved dashboard are stored, one location update carries display name, node id and dashboard url with partial and replace set, in configuration mode the interface list is replaced by the gated capability targets, and the calls come in source order; the last location update always matches the stored selection |
| `BrowserPanel.UaBrowserPanel.LookUpType` | ua-browser/src/UaBrowserPanel.tsx:105-120 | one HasTypeDefinition request; the stored type becomes the first target, or null when there is none |
| `BrowserPanel.UaBrowserPanel.ShowDashboard` | ua-browser/src/UaBrowserPanel.tsx:122-142 | the resolved dashboard's calls are made, one partial, replace location update carries display name, node id and dashboard url, and selection, path and dashboard are stored |
| `BrowserPanel.UaBrowserPanel.UpdateInterfaces` | ua-browser/src/UaBrowserPanel.tsx:144-180 | the interface list is replaced by the gated capability targets, and exactly the capability calls are made |
| `DashboardResolver.FirstHit` | ua-dashboard-container/src/UaDashboardResolver.tsx:37-45 | a hit exists exactly when the body is truthy and non-empty, and it is the first element |
| `DashboardResolver.GetDashboard` | ua-dashboard-container/src/UaDashboardResolver.tsx:6-53 | no data source: no call and never settles; a missing or empty descriptor name: only the descriptor request and a null result; otherwise exactly one search for `/api/search?query=` + encodeURI(name), a result exactly when the search has hits, and that result is the first hit with `dashKeys` replaced by the descriptor's |
| `DashboardResolver.GetDashboardData` | ua-dashboard-container/src/UaDashboardResolver.tsx:55-84 | one search by the encoded name; the first hit unchanged, or null for no hits or a falsy body |
| `DashboardResolver.GetDashboardExtendsGetDashboardData` | ua-dashboard-container/src/UaDashboardResolver.tsx:13-45 | for a named descriptor, `getDashboard` is the descriptor request followed by `getDashboardData`'s search, with the dash-keys overlay on its result |
| `DashboardResolver.AddDashboardMapping` | ua-dashboard-container/src/UaDashboardResolver.tsx:150-159 | the backend is called exactly when there is a data source and a dashboard, with perspective `Operator` and the serialised interfaces, and the reply's `success` is returned; otherwise no call and never settles |
| `DashboardResolver.GetAllDashboards` | ua-dashboard-container/src/UaDashboardResolver.tsx:161-174 | one search with an empty query; the parsed list, or [] for a falsy body |
| `BrowserTree.Browser.constructor` | ua-browser/src/Browser.tsx:49-59 | the tree starts with the placeholder root of id "", no children, nothing fetched and no theme |
| `BrowserTree.Browser.HandleClose` | ua-browser/src/Browser.tsx:61-63 | the close control asks the host to close the tree |
| `BrowserTree.Browser.NodeSelect` | ua-browser/src/Browser.tsx:71-75 | the selection and its browse path are always forwarded, followed by a close request exactly when `closeOnSelect` is set |
| `BrowserTree.Browser.OnTheme` | ua-browser/src/Browser.tsx:105-109 | the theme is write-once: set only while unset, and only to a non-null theme |
| `BrowserTree.Browser.Render` | ua-browser/src/Browser.tsx:90-118 | the root alone is shown when `ignoreRootNode` is false; otherwise the children held before the render are shown, and a browse of the prop root is issued exactly when they had not been fetched; after the render, a root with a different id has reset children, the fetched flag and the stored root |
| `BrowserTree.Browser.RenderNodes` | ua-browser/src/Browser.tsx:90-103 | the three rendering cases, and a browse only when children are wanted and not yet fetched |
| `BrowserTree.Browser.OnBrowseResponse` | ua-browser/src/Browser.tsx:96 | the response latches: children become the response and the fetched flag is set, keeping the invariant that unfetched trees hold no children |
| `BrowserTree.FetchOnce` | ua-browser/src/Browser.tsx:90-118 | on a fresh tree, each of the k ≥ 1 renders before the answer issues a browse of the root and shows nothing, so exactly k are sent; once the answer latches, every later render with the same root issues none and shows exactly the answer |
| `BrowserTree.RootChange` | ua-browser/src/Browser.tsx:90-118 | for any tree whose children have latched, the first render for a root with another id still shows those children and issues nothing; the next render browses the new root and shows nothing, and the tree is left reset to the new root with nothing fetched and its theme unchanged |

## Left out

- Rendering: JSX, `SplitPane`, styles, `ThemeGetter`, `TreeNode`, `convertRemToPixels`, `splitbarChanged`, `setInitHeights` and `resizeIframe`. They are layout and DOM work with no decision logic.
- Backend and HTTP failures: every `getResource` and `fetch` is modelled as answering. A rejected promise, and the unhandled errors it leaves in the chains, are not modelled.
- Reply shapes: replies are typed. A null `browse` reply, which would make `removeDuplicates` throw, is not modelled. Neither is a null `adddashboardmapping` reply, nor a non-boolean truthy `isnodepresent` reply.
- `encodeURI`, `JSON.stringify`, `fetch` + `json()`, `getResource`, `getDataSourceSrv` and `getLocationSrv` are oracle inputs or logged calls, not implementations. `getLocationSrv()` is assumed present. `console` output is not modelled.
- React scheduling: the `setState` in `Browser.render` takes effect after that render and the host calls `Render` again for the re-render it causes; every other `setState` takes effect at once, each promise chain runs as one sequential step, and overlapping selections are not interleaved.
- BrowserTree.Browser.OnBrowseResponse: accepts any response, including one issued for a previous root. The model does not tie a response to the request that caused it, because that depends on promise scheduling.
- BrowserPanel.UaBrowserPanel.ShowDashboard: the panel imports `getDashboard` from its own package's ua-browser/src/UaDashboardResolver.tsx (UaBrowserPanel.tsx:8), and that file is not part of this model. The model assumes it behaves like the dashboard container's `getDashboard` (`DashboardResolver.GetDashboard`), which is what `ShowDashboard` and `NodeSelectedChanged` call.
- BrowserPanel.UaBrowserPanel.DataSourceArrived: the late data-source acquisition is one step. When the lookup completes relative to renders is not modelled.
- The panel's own `addDashboardMapping` (UaBrowserPanel.tsx:348-360) and its `dashboards` field. They only store `getAllDashboards` output for a mapping panel that is not part of this model.
- Theme contents: only whether a theme is present matters. The background colour taken from it is presentation.
- The commented-out code in `Browser.tsx` and `UaDashboardResolver.tsx` is dead. The NodeClass bit values are taken from the comment at Browser.tsx:11-21.
