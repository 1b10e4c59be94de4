/**
 * The v3 fetch with its label maps on the heap: structs are copied, the maps in them are shared
 * (internal/client/cloudfoundry/client.go).
 */
module CloudFoundry {
  import opened Sequences
  import opened AppJoin

  /** A Go map from label to value. */
  class LabelMap {
    var entries: Labels

    constructor (entries: Labels)
      ensures this.entries == entries
    {
      this.entries := entries;
    }

    /** Ranges over the inherited map in any order and writes the keys that this one does not have. */
    method AddMissing(inherited: LabelMap)
      requires inherited != this
      modifies this
      ensures entries == inherited.entries + old(entries)
    {
      var todo := inherited.entries.Keys;
      while todo != {}
        invariant todo <= inherited.entries.Keys
        invariant entries == (map key | key in inherited.entries.Keys - todo :: inherited.entries[key]) + old(entries)
      {
        var key :| key in todo;
        todo := todo - {key};
        if key !in entries {
          entries := entries[key := inherited.entries[key]];
        }
      }
    }
  }

  type AppStruct = AppData<LabelMap>

  type SpaceStruct = SpaceResource<LabelMap>

  type OrgStruct = OrgResource<LabelMap>

  // ---------------------------------------------------------------- what the structs show

  ghost function AppView(a: AppStruct): App
    reads a.labels, a.annotations
  {
    AppData(a.guid, a.name, a.spaceGUID, a.spaceName, a.orgName, a.orgGUID, a.instances, a.buildpacks, a.diskQuota,
            a.totalDiskQuota, a.memory, a.totalMemory, a.labels.entries, a.annotations.entries, a.sidecars)
  }

  ghost function SpaceView(s: SpaceStruct): Space
    reads s.labels, s.annotations
  {
    SpaceResource(s.guid, s.name, s.orgGUID, s.labels.entries, s.annotations.entries)
  }

  ghost function OrgView(o: OrgStruct): Org
    reads o.labels, o.annotations
  {
    OrgResource(o.guid, o.name, o.labels.entries, o.annotations.entries)
  }

  ghost function MapsOf(a: AppStruct): set<LabelMap> {
    {a.labels, a.annotations}
  }

  ghost function AppMaps(apps: seq<AppStruct>): set<LabelMap> {
    (set a | a in apps :: a.labels) + (set a | a in apps :: a.annotations)
  }

  ghost function SpaceMaps(spaces: seq<SpaceStruct>): set<LabelMap> {
    (set s | s in spaces :: s.labels) + (set s | s in spaces :: s.annotations)
  }

  ghost function OrgMaps(orgs: seq<OrgStruct>): set<LabelMap> {
    (set o | o in orgs :: o.labels) + (set o | o in orgs :: o.annotations)
  }

  ghost function SpaceViews(spaces: seq<SpaceStruct>): seq<Space>
    reads SpaceMaps(spaces)
  {
    if spaces == [] then [] else SpaceViews(spaces[..|spaces| - 1]) + [SpaceView(spaces[|spaces| - 1])]
  }

  ghost function OrgViews(orgs: seq<OrgStruct>): seq<Org>
    reads OrgMaps(orgs)
  {
    if orgs == [] then [] else OrgViews(orgs[..|orgs| - 1]) + [OrgView(orgs[|orgs| - 1])]
  }

  ghost function SpaceViewOf(space: Option<SpaceStruct>): Option<Space>
    reads if space.Some? then {space.value.labels, space.value.annotations} else {}
  {
    if space.Some? then Some(SpaceView(space.value)) else None
  }

  ghost function OrgViewOf(org: Option<OrgStruct>): Option<Org>
    reads if org.Some? then {org.value.labels, org.value.annotations} else {}
  {
    if org.Some? then Some(OrgView(org.value)) else None
  }

  lemma {:induction false} SpaceOfViews(spaces: seq<SpaceStruct>, guid: string)
    ensures SpaceOf(SpaceViews(spaces), guid) == SpaceViewOf(SpaceOf(spaces, guid))
    ensures SpaceOf(spaces, guid).Some? ==> SpaceOf(spaces, guid).value in spaces
  {
    if spaces == [] {
    } else {
      var n := |spaces| - 1;
      SpaceOfViews(spaces[..n], guid);
      assert SpaceViews(spaces)[..|SpaceViews(spaces)| - 1] == SpaceViews(spaces[..n]);
    }
  }

  lemma {:induction false} OrgOfViews(orgs: seq<OrgStruct>, guid: string)
    ensures OrgOf(OrgViews(orgs), guid) == OrgViewOf(OrgOf(orgs, guid))
    ensures OrgOf(orgs, guid).Some? ==> OrgOf(orgs, guid).value in orgs
  {
    if orgs == [] {
    } else {
      var n := |orgs| - 1;
      OrgOfViews(orgs[..n], guid);
      assert OrgViews(orgs)[..|OrgViews(orgs)| - 1] == OrgViews(orgs[..n]);
    }
  }

  // ---------------------------------------------------------------- CFApplication

  class CFApplication {
    var app: AppStruct

    /** The zero value followed by setV3AppData: shares the resource's maps, and makes a map for each nil one. */
    constructor SetV3AppData(data: AppResource<LabelMap>)
      ensures app == AppData(data.guid, data.name, data.spaceGUID, "", "", "", 0, data.buildpacks, 0, 0, 0, 0,
                             app.labels, app.annotations, None)
      ensures if data.labels.Some? then app.labels == data.labels.value
              else fresh(app.labels) && app.labels.entries == map[]
      ensures if data.annotations.Some? then app.annotations == data.annotations.value
              else fresh(app.annotations) && app.annotations.entries == map[]
      ensures data.labels.None? || data.annotations.None? ==> app.labels != app.annotations
    {
      var annotations, labels;
      if data.annotations.Some? {
        annotations := data.annotations.value;
      } else {
        annotations := new LabelMap(map[]);
      }
      if data.labels.Some? {
        labels := data.labels.value;
      } else {
        labels := new LabelMap(map[]);
      }
      app := AppData(data.guid, data.name, data.spaceGUID, "", "", "", 0, data.buildpacks, 0, 0, 0, 0,
                     labels, annotations, None);
    }

    /** A struct copy: the maps are shared with the original. */
    constructor Copy(app: AppStruct)
      ensures this.app == app
    {
      this.app := app;
    }

    method SetV3ProcessData(data: seq<Process>)
      modifies this
      ensures app == WithProcesses(old(app), data)
    {
      if |data| <= 0 {
        return;
      }
      var totalInstances, totalDiskConfigured, totalDiskProvisioned := 0, 0, 0;
      var totalMemoryConfigured, totalMemoryProvisioned := 0, 0;
      for i := 0 to |data|
        invariant totalInstances == SumOf(InstancesOf, data[..i])
        invariant totalDiskConfigured == SumOf(DiskOf, data[..i])
        invariant totalDiskProvisioned == SumOf(TotalDiskOf, data[..i])
        invariant totalMemoryConfigured == SumOf(MemoryOf, data[..i])
        invariant totalMemoryProvisioned == SumOf(TotalMemoryOf, data[..i])
        invariant app == old(app)
      {
        var instances := data[i].instances;
        var diskProvisioned := instances * data[i].diskInMB;
        var memoryProvisioned := instances * data[i].memoryInMB;
        totalInstances := totalInstances + instances;
        totalDiskConfigured := totalDiskConfigured + data[i].diskInMB;
        totalDiskProvisioned := totalDiskProvisioned + diskProvisioned;
        totalMemoryConfigured := totalMemoryConfigured + data[i].memoryInMB;
        totalMemoryProvisioned := totalMemoryProvisioned + memoryProvisioned;
        assert data[..i + 1][..i] == data[..i];
      }
      assert data[..|data|] == data;
      app := app.(instances := totalInstances, diskQuota := totalDiskConfigured, memory := totalMemoryConfigured,
                  totalDiskQuota := totalDiskProvisioned, totalMemory := totalMemoryProvisioned);
    }

    /** Writes into the app's own two maps, never into the space's. */
    method SetV3SpaceData(data: SpaceStruct)
      requires app.labels != app.annotations && {data.labels, data.annotations} !! MapsOf(app)
      modifies this, app.labels, app.annotations
      ensures app == old(app).(spaceName := data.name, orgGUID := data.orgGUID)
      ensures AppView(app) == WithSpace(old(AppView(app)), Some(SpaceView(data)))
    {
      app := app.(spaceName := data.name, orgGUID := data.orgGUID);
      app.annotations.AddMissing(data.annotations);
      app.labels.AddMissing(data.labels);
    }

    /** Writes into the app's own two maps, never into the organisation's. */
    method SetV3OrgData(data: OrgStruct)
      requires app.labels != app.annotations && {data.labels, data.annotations} !! MapsOf(app)
      modifies this, app.labels, app.annotations
      ensures app == old(app).(orgName := data.name)
      ensures AppView(app) == WithOrg(old(AppView(app)), Some(OrgView(data)))
    {
      app := app.(orgName := data.name);
      app.annotations.AddMissing(data.annotations);
      app.labels.AddMissing(data.labels);
    }
  }

  // ---------------------------------------------------------------- getV3Apps

  ghost function ResourceMaps(r: AppResource<LabelMap>): set<LabelMap> {
    (if r.labels.Some? then {r.labels.value} else {}) + (if r.annotations.Some? then {r.annotations.value} else {})
  }

  ghost function ResourceView(r: AppResource<LabelMap>): AppResource<Labels>
    reads ResourceMaps(r)
  {
    AppResource(r.guid, r.name, r.spaceGUID, r.buildpacks,
                if r.labels.Some? then Some(r.labels.value.entries) else None,
                if r.annotations.Some? then Some(r.annotations.value.entries) else None)
  }

  /** Every JSON object was decoded into maps of its own. */
  ghost predicate OwnResourceMaps(rs: seq<AppResource<LabelMap>>) {
    && (forall i :: 0 <= i < |rs| && rs[i].labels.Some? && rs[i].annotations.Some? ==>
          rs[i].labels.value != rs[i].annotations.value)
    && (forall i, j :: 0 <= i < j < |rs| ==> ResourceMaps(rs[i]) !! ResourceMaps(rs[j]))
  }

  /** No app shares a map with another, and none has one map for labels and annotations. */
  ghost predicate OwnMaps(apps: seq<AppStruct>) {
    && (forall i :: 0 <= i < |apps| ==> apps[i].labels != apps[i].annotations)
    && (forall i, j :: 0 <= i < j < |apps| ==> MapsOf(apps[i]) !! MapsOf(apps[j]))
  }

  method GetV3App(r: AppResource<LabelMap>, advancedTagging: bool, sidecars: SidecarFetch)
    returns (result: Result<AppStruct>, ghost made: set<LabelMap>)
    requires OwnResourceMaps([r])
    ensures result.Ok? <==> SidecarsOf(r, advancedTagging, sidecars).Ok?
    ensures result.Ok? ==> Fetched(ResourceView(r), advancedTagging, sidecars, AppView(result.value))
    ensures result.Ok? ==> result.value.labels != result.value.annotations
    ensures fresh(made) && (result.Ok? ==> MapsOf(result.value) <= ResourceMaps(r) + made)
  {
    var cfapp := new CFApplication.SetV3AppData(r);
    assert [r][0] == r;
    made := MapsOf(cfapp.app) - ResourceMaps(r);
    if advancedTagging {
      var found := sidecars(cfapp.app.guid);
      if found.Err? {
        return Err(found.error), made;
      }
      cfapp.app := cfapp.app.(sidecars := if found.value == [] then None else Some(found.value));
    }
    return Ok(cfapp.app), made;
  }

  ghost predicate FetchedAll(rs: seq<AppResource<LabelMap>>, advancedTagging: bool, sidecars: SidecarFetch,
                             apps: seq<AppStruct>)
    requires |apps| <= |rs|
    reads set i | 0 <= i < |apps| :: apps[i].labels, set i | 0 <= i < |apps| :: apps[i].annotations
    reads set i, m | 0 <= i < |apps| && m in ResourceMaps(rs[i]) :: m
  {
    forall i :: 0 <= i < |apps| ==> Fetched(ResourceView(rs[i]), advancedTagging, sidecars, AppView(apps[i]))
  }

  /** Each app so far has maps of its own, its resource's or made for it. */
  ghost predicate Sourced(rs: seq<AppResource<LabelMap>>, apps: seq<AppStruct>, made: set<LabelMap>) {
    && |apps| <= |rs| && OwnMaps(apps)
    && forall i :: 0 <= i < |apps| ==> MapsOf(apps[i]) <= ResourceMaps(rs[i]) + made
  }

  lemma SourcedNext(rs: seq<AppResource<LabelMap>>, apps: seq<AppStruct>, made: set<LabelMap>, a: AppStruct,
                    more: set<LabelMap>)
    requires OwnResourceMaps(rs) && Sourced(rs, apps, made) && |apps| < |rs|
    requires a.labels != a.annotations && MapsOf(a) <= ResourceMaps(rs[|apps|]) + more
    requires more !! made && forall i :: 0 <= i < |rs| ==> ResourceMaps(rs[i]) !! made + more
    ensures Sourced(rs, apps + [a], made + more)
  {
    forall j | 0 <= j < |apps| ensures MapsOf(apps[j]) !! MapsOf(a) {
      assert ResourceMaps(rs[j]) !! ResourceMaps(rs[|apps|]);
      assert ResourceMaps(rs[j]) !! more && ResourceMaps(rs[|apps|]) !! made;
    }
  }

  ghost predicate AllSidecars(rs: seq<AppResource<LabelMap>>, advancedTagging: bool, sidecars: SidecarFetch) {
    forall i :: 0 <= i < |rs| ==> SidecarsOf(rs[i], advancedTagging, sidecars).Ok?
  }

  method GetV3Apps(resources: seq<AppResource<LabelMap>>, advancedTagging: bool, sidecars: SidecarFetch)
    returns (result: Result<seq<AppStruct>>, ghost made: set<LabelMap>)
    requires OwnResourceMaps(resources)
    ensures result.Ok? <==> AllSidecars(resources, advancedTagging, sidecars)
    ensures result.Ok? ==> |result.value| == |resources| && Sourced(resources, result.value, made) && fresh(made)
    ensures result.Ok? ==> FetchedAll(resources, advancedTagging, sidecars, result.value)
  {
    var cfapps := [];
    made := {};
    for i := 0 to |resources|
      invariant |cfapps| == i && fresh(made) && Sourced(resources, cfapps, made)
      invariant AllSidecars(resources[..i], advancedTagging, sidecars)
      invariant FetchedAll(resources, advancedTagging, sidecars, cfapps)
    {
      var cfapp;
      ghost var more;
      cfapp, more := GetV3App(resources[i], advancedTagging, sidecars);
      if cfapp.Err? {
        return Err(cfapp.error), made;
      }
      SourcedNext(resources, cfapps, made, cfapp.value, more);
      cfapps, made := cfapps + [cfapp.value], made + more;
    }
    assert resources[..|resources|] == resources;
    return Ok(cfapps), made;
  }

  // ---------------------------------------------------------------- the join

  /** Space data where there is a space, written into the maps of the app alone. */
  method FillSpace(updatedApp: CFApplication, space: Option<SpaceStruct>)
    requires updatedApp.app.labels != updatedApp.app.annotations
    requires space.Some? ==> {space.value.labels, space.value.annotations} !! MapsOf(updatedApp.app)
    modifies updatedApp, updatedApp.app.labels, updatedApp.app.annotations
    ensures updatedApp.app.labels == old(updatedApp.app.labels)
    ensures updatedApp.app.annotations == old(updatedApp.app.annotations)
    ensures AppView(updatedApp.app) == WithSpace(old(AppView(updatedApp.app)), SpaceViewOf(space))
  {
    if space.Some? {
      updatedApp.SetV3SpaceData(space.value);
    }
  }

  method FillOrg(updatedApp: CFApplication, org: Option<OrgStruct>)
    requires updatedApp.app.labels != updatedApp.app.annotations
    requires org.Some? ==> {org.value.labels, org.value.annotations} !! MapsOf(updatedApp.app)
    modifies updatedApp, updatedApp.app.labels, updatedApp.app.annotations
    ensures updatedApp.app.labels == old(updatedApp.app.labels)
    ensures updatedApp.app.annotations == old(updatedApp.app.annotations)
    ensures AppView(updatedApp.app) == WithOrg(old(AppView(updatedApp.app)), OrgViewOf(org))
  {
    if org.Some? {
      updatedApp.SetV3OrgData(org.value);
    }
  }

  method FillProcesses(updatedApp: CFApplication, own: seq<Process>)
    modifies updatedApp
    ensures updatedApp.app.labels == old(updatedApp.app.labels)
    ensures updatedApp.app.annotations == old(updatedApp.app.annotations)
    ensures AppView(updatedApp.app) == WithProcesses(old(AppView(updatedApp.app)), own)
  {
    if own != [] {
      updatedApp.SetV3ProcessData(own);
    }
  }

  ghost predicate Apart(space: Option<SpaceStruct>, app: AppStruct) {
    space.Some? ==> {space.value.labels, space.value.annotations} !! MapsOf(app)
  }

  ghost predicate OrgApart(org: Option<OrgStruct>, app: AppStruct) {
    org.Some? ==> {org.value.labels, org.value.annotations} !! MapsOf(app)
  }

  method JoinOne(cfapp: AppStruct, perApp: map<string, seq<Process>>, spacesPerGUID: map<string, SpaceStruct>,
                 orgsPerGUID: map<string, OrgStruct>)
    returns (r: AppStruct)
    requires Bare(cfapp) && cfapp.labels != cfapp.annotations
    requires forall guid :: Apart(Lookup(spacesPerGUID, guid), cfapp)
    requires forall guid :: OrgApart(Lookup(orgsPerGUID, guid), cfapp)
    modifies cfapp.labels, cfapp.annotations
    ensures r.labels == cfapp.labels && r.annotations == cfapp.annotations
    ensures JoinedWith(old(AppView(cfapp)), Own(perApp, cfapp.guid), SpaceViewOf(Lookup(spacesPerGUID, cfapp.spaceGUID)),
                       OrgViewOf(Lookup(orgsPerGUID, r.orgGUID)), AppView(r))
  {
    ghost var start := AppView(cfapp);
    var updatedApp := new CFApplication.Copy(cfapp);
    FillProcesses(updatedApp, Own(perApp, cfapp.guid));
    var space := Lookup(spacesPerGUID, cfapp.spaceGUID);
    assert Apart(space, cfapp);
    FillSpace(updatedApp, space);
    var orgGUID := updatedApp.app.orgGUID;
    var org := Lookup(orgsPerGUID, orgGUID);
    assert OrgApart(org, cfapp);
    FillOrg(updatedApp, org);
    r := updatedApp.app;
    FillingJoins(start, Own(perApp, cfapp.guid), SpaceViewOf(space), OrgViewOf(org));
    assert AppView(r).orgGUID == orgGUID == r.orgGUID;
  }

  /** A map belongs to one app only: not to another app, a space or an organisation. */
  ghost predicate Separate(apps: seq<AppStruct>, spaces: seq<SpaceStruct>, orgs: seq<OrgStruct>) {
    OwnMaps(apps) && AppMaps(apps) !! SpaceMaps(spaces) && AppMaps(apps) !! OrgMaps(orgs)
  }

  lemma SpacesApart(apps: seq<AppStruct>, spaces: seq<SpaceStruct>, orgs: seq<OrgStruct>, i: nat, guid: string)
    requires Separate(apps, spaces, orgs) && i < |apps|
    ensures Apart(SpaceOf(spaces, guid), apps[i]) && OrgApart(OrgOf(orgs, guid), apps[i])
  {
    SpaceOfViews(spaces, guid);
    OrgOfViews(orgs, guid);
    assert apps[i].labels in AppMaps(apps) && apps[i].annotations in AppMaps(apps);
  }

  ghost function AppViews(apps: seq<AppStruct>): (views: seq<App>)
    reads AppMaps(apps)
    ensures |views| == |apps|
  {
    if apps == [] then [] else AppViews(apps[..|apps| - 1]) + [AppView(apps[|apps| - 1])]
  }

  lemma {:induction false} AppViewsAt(apps: seq<AppStruct>, i: nat)
    requires i < |apps|
    ensures AppViews(apps)[i] == AppView(apps[i])
  {
    if i == |apps| - 1 {
    } else {
      AppViewsAt(apps[..|apps| - 1], i);
    }
  }

  /** The apps from position i on show these values. */
  ghost predicate ShowFrom(apps: seq<AppStruct>, i: nat, views: seq<App>)
    requires |views| == |apps|
    reads AppMaps(apps)
  {
    forall j :: i <= j < |apps| ==> AppView(apps[j]) == views[j]
  }

  ghost predicate SameMaps(a: AppStruct, b: AppStruct) {
    a.labels == b.labels && a.annotations == b.annotations
  }

  /** The results are held in the maps of the apps they were made from. */
  ghost predicate Reuses(results: seq<AppStruct>, apps: seq<AppStruct>) {
    |results| <= |apps| && forall j :: 0 <= j < |results| ==> SameMaps(results[j], apps[j])
  }

  lemma OtherMaps(apps: seq<AppStruct>, i: nat, j: nat)
    requires OwnMaps(apps) && i < |apps| && j < |apps| && i != j
    ensures apps[j].labels !in MapsOf(apps[i]) && apps[j].annotations !in MapsOf(apps[i])
  {
    assert MapsOf(apps[j]) !! MapsOf(apps[i]);
    assert apps[j].labels in MapsOf(apps[j]) && apps[j].annotations in MapsOf(apps[j]);
  }

  lemma ShowNext(results: seq<AppStruct>, views: seq<App>, r: AppStruct)
    requires |views| == |results| && ShowFrom(results, 0, views)
    ensures ShowFrom(results + [r], 0, views + [AppView(r)])
  {
  }

  /** One turn of the loop: joins app i, while earlier results and later apps keep what they show. */
  method JoinNext(cfapps: seq<AppStruct>, ghost starts: seq<App>, i: nat, results: seq<AppStruct>, ghost views: seq<App>,
                  perApp: map<string, seq<Process>>, spacesPerGUID: map<string, SpaceStruct>,
                  orgsPerGUID: map<string, OrgStruct>)
    returns (r: AppStruct)
    requires OwnMaps(cfapps) && i < |cfapps| && |starts| == |cfapps| && Bare(cfapps[i])
    requires Reuses(results, cfapps) && |results| == |views| == i
    requires ShowFrom(cfapps, i, starts) && ShowFrom(results, 0, views)
    requires forall guid :: Apart(Lookup(spacesPerGUID, guid), cfapps[i])
    requires forall guid :: OrgApart(Lookup(orgsPerGUID, guid), cfapps[i])
    modifies cfapps[i].labels, cfapps[i].annotations
    ensures SameMaps(r, cfapps[i])
    ensures ShowFrom(cfapps, i + 1, starts) && ShowFrom(results, 0, views)
    ensures JoinedWith(starts[i], Own(perApp, cfapps[i].guid), SpaceViewOf(Lookup(spacesPerGUID, cfapps[i].spaceGUID)),
                       OrgViewOf(Lookup(orgsPerGUID, r.orgGUID)), AppView(r))
  {
    forall j | 0 <= j < |cfapps| && j != i
      ensures cfapps[j].labels !in MapsOf(cfapps[i]) && cfapps[j].annotations !in MapsOf(cfapps[i])
    {
      OtherMaps(cfapps, i, j);
    }
    r := JoinOne(cfapps[i], perApp, spacesPerGUID, orgsPerGUID);
  }

  /** The three indexes that the loop looks things up in. */
  ghost predicate Indexed(processes: seq<Process>, spaces: seq<SpaceStruct>, orgs: seq<OrgStruct>,
                          perApp: map<string, seq<Process>>, spacesPerGUID: map<string, SpaceStruct>,
                          orgsPerGUID: map<string, OrgStruct>)
  {
    && (forall guid :: Own(perApp, guid) == ProcessesOf(processes, guid))
    && (forall guid :: Lookup(spacesPerGUID, guid) == SpaceOf(spaces, guid))
    && (forall guid :: Lookup(orgsPerGUID, guid) == OrgOf(orgs, guid))
  }

  lemma InAppMaps(apps: seq<AppStruct>, i: nat)
    requires i < |apps|
    ensures apps[i].labels in AppMaps(apps) && apps[i].annotations in AppMaps(apps)
  {
  }

  /** The values shown by the results so far are joins of what the apps showed at first. */
  ghost predicate JoinedSoFar(starts: seq<App>, processes: seq<Process>, spaces: seq<Space>, orgs: seq<Org>,
                              views: seq<App>)
  {
    |views| <= |starts| && forall j :: 0 <= j < |views| ==> Joined(starts[j], processes, spaces, orgs, views[j])
  }

  lemma JoinedMore(starts: seq<App>, processes: seq<Process>, spaces: seq<Space>, orgs: seq<Org>, views: seq<App>, r: App)
    requires JoinedSoFar(starts, processes, spaces, orgs, views) && |views| < |starts|
    requires Joined(starts[|views|], processes, spaces, orgs, r)
    ensures JoinedSoFar(starts, processes, spaces, orgs, views + [r])
  {
    forall j | 0 <= j < |views + [r]| ensures Joined(starts[j], processes, spaces, orgs, (views + [r])[j]) {
      if j < |views| {
        assert (views + [r])[j] == views[j];
      }
    }
  }

  lemma {:induction false} ShowsViews(apps: seq<AppStruct>, views: seq<App>)
    requires |views| == |apps|
    ensures ShowFrom(apps, 0, views) <==> AppViews(apps) == views
  {
    forall j | 0 <= j < |apps| ensures AppViews(apps)[j] == AppView(apps[j]) {
      AppViewsAt(apps, j);
    }
  }

  /** The same turn, seen from the fetched lists. */
  method JoinFetched(cfapps: seq<AppStruct>, ghost starts: seq<App>, i: nat, results: seq<AppStruct>, ghost views: seq<App>,
                  ghost processes: seq<Process>, ghost spaces: seq<SpaceStruct>, ghost orgs: seq<OrgStruct>,
                  perApp: map<string, seq<Process>>, spacesPerGUID: map<string, SpaceStruct>,
                  orgsPerGUID: map<string, OrgStruct>)
    returns (r: AppStruct)
    requires Separate(cfapps, spaces, orgs) && i < |cfapps| && |starts| == |cfapps| && Bare(cfapps[i])
    requires Reuses(results, cfapps) && |results| == |views| == i
    requires ShowFrom(cfapps, i, starts) && ShowFrom(results, 0, views)
    requires Indexed(processes, spaces, orgs, perApp, spacesPerGUID, orgsPerGUID)
    modifies cfapps[i].labels, cfapps[i].annotations
    ensures SameMaps(r, cfapps[i])
    ensures ShowFrom(cfapps, i + 1, starts) && ShowFrom(results, 0, views)
    ensures SpaceViews(spaces) == old(SpaceViews(spaces)) && OrgViews(orgs) == old(OrgViews(orgs))
    ensures Joined(starts[i], processes, SpaceViews(spaces), OrgViews(orgs), AppView(r))
  {
    InAppMaps(cfapps, i);
    forall guid ensures Apart(Lookup(spacesPerGUID, guid), cfapps[i]) && OrgApart(Lookup(orgsPerGUID, guid), cfapps[i]) {
      SpacesApart(cfapps, spaces, orgs, i, guid);
    }
    r := JoinNext(cfapps, starts, i, results, views, perApp, spacesPerGUID, orgsPerGUID);
    JoinedFetched(starts[i], processes, spaces, orgs, perApp, spacesPerGUID, orgsPerGUID, r);
  }

  lemma JoinedFetched(start: App, processes: seq<Process>, spaces: seq<SpaceStruct>, orgs: seq<OrgStruct>,
                      perApp: map<string, seq<Process>>, spacesPerGUID: map<string, SpaceStruct>,
                      orgsPerGUID: map<string, OrgStruct>, r: AppStruct)
    requires Indexed(processes, spaces, orgs, perApp, spacesPerGUID, orgsPerGUID)
    requires JoinedWith(start, Own(perApp, start.guid), SpaceViewOf(Lookup(spacesPerGUID, start.spaceGUID)),
                        OrgViewOf(Lookup(orgsPerGUID, r.orgGUID)), AppView(r))
    ensures Joined(start, processes, SpaceViews(spaces), OrgViews(orgs), AppView(r))
  {
    SpaceOfViews(spaces, start.spaceGUID);
    OrgOfViews(orgs, r.orgGUID);
  }

  /** What the fetch returned, as it was when the loop began. */
  datatype Fetch = Fetch(apps: seq<AppStruct>, processes: seq<Process>, spaces: seq<SpaceStruct>, orgs: seq<OrgStruct>,
                         starts: seq<App>, spaceViews: seq<Space>, orgViews: seq<Org>)

  /** After some turns: the results are joins, later apps, spaces and organisations show what they showed at first. */
  ghost predicate Turns(f: Fetch, results: seq<AppStruct>, views: seq<App>)
    reads AppMaps(f.apps), AppMaps(results), SpaceMaps(f.spaces), OrgMaps(f.orgs)
  {
    && |f.starts| == |f.apps| && |results| == |views| <= |f.apps| && Reuses(results, f.apps)
    && SpaceViews(f.spaces) == f.spaceViews && OrgViews(f.orgs) == f.orgViews
    && ShowFrom(f.apps, |results|, f.starts) && ShowFrom(results, 0, views)
    && JoinedSoFar(f.starts, f.processes, f.spaceViews, f.orgViews, views)
  }

  method JoinStep(ghost f: Fetch, cfapps: seq<AppStruct>, results: seq<AppStruct>, ghost views: seq<App>,
                  perApp: map<string, seq<Process>>, spacesPerGUID: map<string, SpaceStruct>,
                  orgsPerGUID: map<string, OrgStruct>)
    returns (r: AppStruct)
    requires f.apps == cfapps && |results| < |cfapps| && Turns(f, results, views)
    requires Separate(cfapps, f.spaces, f.orgs) && Bare(cfapps[|results|])
    requires Indexed(f.processes, f.spaces, f.orgs, perApp, spacesPerGUID, orgsPerGUID)
    modifies cfapps[|results|].labels, cfapps[|results|].annotations
    ensures Turns(f, results + [r], views + [AppView(r)])
  {
    r := JoinFetched(cfapps, f.starts, |results|, results, views, f.processes, f.spaces, f.orgs, perApp, spacesPerGUID,
                     orgsPerGUID);
    TurnTaken(f, results, views, r);
  }

  lemma TurnTaken(f: Fetch, results: seq<AppStruct>, views: seq<App>, r: AppStruct)
    requires |f.starts| == |f.apps| && |results| == |views| < |f.apps|
    requires Reuses(results, f.apps) && SameMaps(r, f.apps[|results|])
    requires SpaceViews(f.spaces) == f.spaceViews && OrgViews(f.orgs) == f.orgViews
    requires ShowFrom(f.apps, |results| + 1, f.starts) && ShowFrom(results, 0, views)
    requires JoinedSoFar(f.starts, f.processes, f.spaceViews, f.orgViews, views)
    requires Joined(f.starts[|results|], f.processes, f.spaceViews, f.orgViews, AppView(r))
    ensures Turns(f, results + [r], views + [AppView(r)])
  {
    JoinedMore(f.starts, f.processes, f.spaceViews, f.orgViews, views, AppView(r));
    ShowNext(results, views, r);
  }

  lemma AllTurns(f: Fetch, results: seq<AppStruct>, views: seq<App>)
    requires Turns(f, results, views) && |results| == |f.apps|
    ensures AllJoined(f.starts, f.processes, f.spaceViews, f.orgViews, AppViews(results))
  {
    ShowsViews(results, views);
  }

  lemma NoTurns(f: Fetch)
    requires Current(f)
    ensures Turns(f, [], [])
  {
    ShowsViews(f.apps, f.starts);
  }

  method MakeIndexes(processes: seq<Process>, spaces: seq<SpaceStruct>, orgs: seq<OrgStruct>)
    returns (perApp: map<string, seq<Process>>, spacesPerGUID: map<string, SpaceStruct>,
             orgsPerGUID: map<string, OrgStruct>)
    ensures Indexed(processes, spaces, orgs, perApp, spacesPerGUID, orgsPerGUID)
  {
    perApp := GroupPerApp(processes);
    spacesPerGUID := IndexSpaces(spaces);
    orgsPerGUID := IndexOrgs(orgs);
  }

  /** The loop over the fetched apps. */
  method JoinAll(ghost f: Fetch, cfapps: seq<AppStruct>, perApp: map<string, seq<Process>>,
                 spacesPerGUID: map<string, SpaceStruct>, orgsPerGUID: map<string, OrgStruct>)
    returns (results: seq<AppStruct>, ghost views: seq<App>)
    requires f.apps == cfapps && Turns(f, [], [])
    requires Separate(cfapps, f.spaces, f.orgs) && forall i :: 0 <= i < |cfapps| ==> Bare(cfapps[i])
    requires Indexed(f.processes, f.spaces, f.orgs, perApp, spacesPerGUID, orgsPerGUID)
    modifies AppMaps(cfapps)
    ensures |results| == |cfapps| && Turns(f, results, views)
  {
    results, views := [], [];
    for i := 0 to |cfapps|
      invariant |results| == i && Turns(f, results, views)
    {
      InAppMaps(cfapps, i);
      var updatedApp := JoinStep(f, cfapps, results, views, perApp, spacesPerGUID, orgsPerGUID);
      results, views := results + [updatedApp], views + [AppView(updatedApp)];
    }
  }

  /** The structs show what the record says. */
  ghost predicate Current(f: Fetch)
    reads AppMaps(f.apps), SpaceMaps(f.spaces), OrgMaps(f.orgs)
  {
    f.starts == AppViews(f.apps) && f.spaceViews == SpaceViews(f.spaces) && f.orgViews == OrgViews(f.orgs)
  }

  /** The part of getV3Applications after all four fetches succeeded. */
  method Join(ghost f: Fetch, cfapps: seq<AppStruct>, processes: seq<Process>, spaces: seq<SpaceStruct>,
              orgs: seq<OrgStruct>)
    returns (results: seq<AppStruct>)
    requires f.apps == cfapps && f.processes == processes && f.spaces == spaces && f.orgs == orgs && Current(f)
    requires Separate(cfapps, spaces, orgs) && forall i :: 0 <= i < |cfapps| ==> Bare(cfapps[i])
    modifies AppMaps(cfapps)
    ensures |results| == |cfapps| && Reuses(results, cfapps)
    ensures SpaceViews(spaces) == f.spaceViews && OrgViews(orgs) == f.orgViews
    ensures AllJoined(f.starts, processes, f.spaceViews, f.orgViews, AppViews(results))
  {
    NoTurns(f);
    var perApp, spacesPerGUID, orgsPerGUID := MakeIndexes(processes, spaces, orgs);
    ghost var views;
    results, views := JoinAll(f, cfapps, perApp, spacesPerGUID, orgsPerGUID);
    AllTurns(f, results, views);
  }

  /**
   * The four fetches ran concurrently; of several errors any may be the one that is returned. Nothing but the apps'
   * own maps is written.
   */
  method GetV3Applications(cfapps: Result<seq<AppStruct>>, processes: Result<seq<Process>>,
                           spaces: Result<seq<SpaceStruct>>, orgs: Result<seq<OrgStruct>>)
    returns (result: Result<seq<AppStruct>>)
    requires cfapps.Ok? ==> OwnMaps(cfapps.value) && forall i :: 0 <= i < |cfapps.value| ==> Bare(cfapps.value[i])
    requires cfapps.Ok? && spaces.Ok? && orgs.Ok? ==> Separate(cfapps.value, spaces.value, orgs.value)
    modifies if cfapps.Ok? then AppMaps(cfapps.value) else {}
    ensures result.Ok? <==> cfapps.Ok? && processes.Ok? && spaces.Ok? && orgs.Ok?
    ensures result.Err? ==>
              || (cfapps.Err? && result.error == cfapps.error) || (processes.Err? && result.error == processes.error)
              || (spaces.Err? && result.error == spaces.error) || (orgs.Err? && result.error == orgs.error)
    ensures result.Err? && cfapps.Ok? ==>
              forall m: LabelMap :: m in AppMaps(cfapps.value) ==> m.entries == old(m.entries)
    ensures result.Ok? ==>
              SpaceViews(spaces.value) == old(SpaceViews(spaces.value)) && OrgViews(orgs.value) == old(OrgViews(orgs.value))
    ensures result.Ok? ==> |result.value| == |cfapps.value| && Reuses(result.value, cfapps.value)
    ensures result.Ok? ==>
              AllJoined(old(AppViews(cfapps.value)), processes.value, SpaceViews(spaces.value), OrgViews(orgs.value),
                        AppViews(result.value))
  {
    var errors := Errors(cfapps, processes, spaces, orgs);
    if cfapps.Err? || processes.Err? || spaces.Err? || orgs.Err? {
      var error :| error in errors;
      return Err(error);
    }
    ghost var f := Fetch(cfapps.value, processes.value, spaces.value, orgs.value, AppViews(cfapps.value),
                         SpaceViews(spaces.value), OrgViews(orgs.value));
    var results := Join(f, cfapps.value, processes.value, spaces.value, orgs.value);
    return Ok(results);
  }
}
