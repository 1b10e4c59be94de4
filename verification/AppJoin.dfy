/** What joining apps with their processes, spaces and organisations means (internal/client/cloudfoundry/client.go). */
module AppJoin {
  import opened Sequences
  import opened Text

  datatype Result<+T> = Ok(value: T) | Err(error: string)

  datatype Sidecar = Sidecar(name: string, guid: string)

  type Labels = map<string, string>

  datatype Process = Process(appHref: string, instances: int, diskInMB: int, memoryInMB: int)

  /** M is how labels are held: as a value here, as a reference to a map in module CloudFoundry. A nil map is None. */
  datatype AppResource<M> = AppResource(
    guid: string, name: string, spaceGUID: string, buildpacks: seq<string>, labels: Option<M>, annotations: Option<M>)

  datatype SpaceResource<M> = SpaceResource(guid: string, name: string, orgGUID: string, labels: M, annotations: M)

  datatype OrgResource<M> = OrgResource(guid: string, name: string, labels: M, annotations: M)

  /** The fields of a CFApplication; a nil slice of sidecars is None. */
  datatype AppData<M> = AppData(
    guid: string, name: string, spaceGUID: string, spaceName: string, orgName: string, orgGUID: string,
    instances: int, buildpacks: seq<string>, diskQuota: int, totalDiskQuota: int, memory: int, totalMemory: int,
    labels: M, annotations: M, sidecars: Option<seq<Sidecar>>)

  type App = AppData<Labels>

  type Space = SpaceResource<Labels>

  type Org = OrgResource<Labels>

  // ---------------------------------------------------------------- processes of an app

  function AppGUID(p: Process): string { LastSegment(p.appHref) }

  function ProcessesOf(processes: seq<Process>, guid: string): seq<Process> {
    if processes == [] then []
    else
      var n := |processes| - 1;
      ProcessesOf(processes[..n], guid) + if AppGUID(processes[n]) == guid then [processes[n]] else []
  }

  /** A process belongs to the app whose GUID is its reference, or what follows the last slash of it. */
  lemma BelongsExactly(p: Process, guid: string)
    ensures AppGUID(p) == guid <==> '/' !in guid && (p.appHref == guid || HasSuffix(p.appHref, "/" + guid))
  {
    LastSegmentExactly(p.appHref, guid);
  }

  lemma {:induction false} ProcessesAreFiltered(processes: seq<Process>, guid: string, own: Process -> bool)
    requires forall p :: own(p) <==> AppGUID(p) == guid
    ensures ProcessesOf(processes, guid) == Filter(own, processes)
  {
    if processes == [] {
    } else {
      ProcessesAreFiltered(processes[..|processes| - 1], guid, own);
    }
  }

  /** The group of an app: the processes whose reference is its GUID or ends in a slash and its GUID, in order. */
  lemma GroupExactly(processes: seq<Process>, guid: string, own: Process -> bool)
    requires '/' !in guid
    requires forall p: Process :: own(p) <==> p.appHref == guid || HasSuffix(p.appHref, "/" + guid)
    ensures ProcessesOf(processes, guid) == Filter(own, processes)
  {
    forall p ensures own(p) <==> AppGUID(p) == guid {
      BelongsExactly(p, guid);
    }
    ProcessesAreFiltered(processes, guid, own);
  }

  lemma {:induction false} InGroup(processes: seq<Process>, p: Process, guid: string)
    ensures p in ProcessesOf(processes, guid) <==> p in processes && AppGUID(p) == guid
  {
    if processes == [] {
    } else {
      InGroup(processes[..|processes| - 1], p, guid);
    }
  }

  /** A process is in the group of its app and in no other. */
  lemma InOneGroup(processes: seq<Process>, p: Process, prefix: string, guid: string, other: string)
    requires p in processes && p.appHref == prefix + "/" + guid && '/' !in guid
    ensures p in ProcessesOf(processes, other) <==> other == guid
  {
    assert HasSuffix(prefix + "/" + guid, "/" + guid);
    BelongsExactly(p, guid);
    InGroup(processes, p, other);
  }

  function InstancesOf(p: Process): int { p.instances }

  function DiskOf(p: Process): int { p.diskInMB }

  function MemoryOf(p: Process): int { p.memoryInMB }

  function TotalDiskOf(p: Process): int { p.instances * p.diskInMB }

  function TotalMemoryOf(p: Process): int { p.instances * p.memoryInMB }

  method GroupPerApp(processes: seq<Process>) returns (perApp: map<string, seq<Process>>)
    ensures forall guid :: guid in perApp <==> ProcessesOf(processes, guid) != []
    ensures forall guid :: guid in perApp ==> perApp[guid] == ProcessesOf(processes, guid)
  {
    perApp := map[];
    for i := 0 to |processes|
      invariant forall guid :: guid in perApp <==> ProcessesOf(processes[..i], guid) != []
      invariant forall guid :: guid in perApp ==> perApp[guid] == ProcessesOf(processes[..i], guid)
    {
      var process := processes[i];
      var appGUID := LastSegment(process.appHref);
      var appProcesses;
      if appGUID in perApp {
        appProcesses := perApp[appGUID] + [process];
      } else {
        appProcesses := [process];
      }
      perApp := perApp[appGUID := appProcesses];
      assert processes[..i + 1][..i] == processes[..i];
    }
    assert processes[..|processes|] == processes;
  }

  // ---------------------------------------------------------------- spaces and organisations by GUID

  /** The later of two spaces with one GUID overwrites the earlier. */
  function SpaceOf<M>(spaces: seq<SpaceResource<M>>, guid: string): Option<SpaceResource<M>> {
    if spaces == [] then None
    else if spaces[|spaces| - 1].guid == guid then Some(spaces[|spaces| - 1])
    else SpaceOf(spaces[..|spaces| - 1], guid)
  }

  function OrgOf<M>(orgs: seq<OrgResource<M>>, guid: string): Option<OrgResource<M>> {
    if orgs == [] then None
    else if orgs[|orgs| - 1].guid == guid then Some(orgs[|orgs| - 1])
    else OrgOf(orgs[..|orgs| - 1], guid)
  }

  /** The space of a GUID is the last one with that GUID. */
  lemma {:induction false} SpaceOfExactly<M>(spaces: seq<SpaceResource<M>>, guid: string)
    ensures SpaceOf(spaces, guid).None? <==> forall i :: 0 <= i < |spaces| ==> spaces[i].guid != guid
    ensures SpaceOf(spaces, guid).Some? ==>
              exists i :: 0 <= i < |spaces| && spaces[i] == SpaceOf(spaces, guid).value && spaces[i].guid == guid
                          && forall j :: i < j < |spaces| ==> spaces[j].guid != guid
  {
    if spaces == [] {
    } else {
      var n := |spaces| - 1;
      SpaceOfExactly(spaces[..n], guid);
      assert forall i :: 0 <= i < n ==> spaces[..n][i] == spaces[i];
    }
  }

  lemma {:induction false} OrgOfExactly<M>(orgs: seq<OrgResource<M>>, guid: string)
    ensures OrgOf(orgs, guid).None? <==> forall i :: 0 <= i < |orgs| ==> orgs[i].guid != guid
    ensures OrgOf(orgs, guid).Some? ==>
              exists i :: 0 <= i < |orgs| && orgs[i] == OrgOf(orgs, guid).value && orgs[i].guid == guid
                          && forall j :: i < j < |orgs| ==> orgs[j].guid != guid
  {
    if orgs == [] {
    } else {
      var n := |orgs| - 1;
      OrgOfExactly(orgs[..n], guid);
      assert forall i :: 0 <= i < n ==> orgs[..n][i] == orgs[i];
    }
  }

  function Lookup<V>(m: map<string, V>, key: string): Option<V> {
    if key in m then Some(m[key]) else None
  }

  method IndexSpaces<M>(spaces: seq<SpaceResource<M>>) returns (perGUID: map<string, SpaceResource<M>>)
    ensures forall guid :: Lookup(perGUID, guid) == SpaceOf(spaces, guid)
  {
    perGUID := map[];
    for i := 0 to |spaces|
      invariant forall guid :: Lookup(perGUID, guid) == SpaceOf(spaces[..i], guid)
    {
      perGUID := perGUID[spaces[i].guid := spaces[i]];
      assert spaces[..i + 1][..i] == spaces[..i];
    }
    assert spaces[..|spaces|] == spaces;
  }

  method IndexOrgs<M>(orgs: seq<OrgResource<M>>) returns (perGUID: map<string, OrgResource<M>>)
    ensures forall guid :: Lookup(perGUID, guid) == OrgOf(orgs, guid)
  {
    perGUID := map[];
    for i := 0 to |orgs|
      invariant forall guid :: Lookup(perGUID, guid) == OrgOf(orgs[..i], guid)
    {
      perGUID := perGUID[orgs[i].guid := orgs[i]];
      assert orgs[..i + 1][..i] == orgs[..i];
    }
    assert orgs[..|orgs|] == orgs;
  }

  // ---------------------------------------------------------------- what each part of the join fills in

  function OrEmpty(labels: Option<Labels>): Labels {
    if labels.Some? then labels.value else map[]
  }

  function WithProcesses<M>(app: AppData<M>, data: seq<Process>): AppData<M> {
    if data == [] then app
    else
      app.(instances := SumOf(InstancesOf, data), diskQuota := SumOf(DiskOf, data), memory := SumOf(MemoryOf, data),
           totalDiskQuota := SumOf(TotalDiskOf, data), totalMemory := SumOf(TotalMemoryOf, data))
  }

  /** In a sum of maps the right operand overrides. */
  function WithSpace(app: App, space: Option<Space>): App {
    match space
    case None => app
    case Some(data) =>
      app.(spaceName := data.name, orgGUID := data.orgGUID, labels := data.labels + app.labels,
           annotations := data.annotations + app.annotations)
  }

  function WithOrg(app: App, org: Option<Org>): App {
    match org
    case None => app
    case Some(data) =>
      app.(orgName := data.name, labels := data.labels + app.labels, annotations := data.annotations + app.annotations)
  }

  // ---------------------------------------------------------------- getV3Apps

  /** Fetching the sidecars of an app by its GUID. */
  type SidecarFetch = string -> Result<seq<Sidecar>>

  ghost predicate Fetched(r: AppResource<Labels>, advancedTagging: bool, sidecars: SidecarFetch, app: App) {
    && app.guid == r.guid && app.name == r.name && app.spaceGUID == r.spaceGUID && app.buildpacks == r.buildpacks
    && app.labels == OrEmpty(r.labels) && app.annotations == OrEmpty(r.annotations)
    && app.spaceName == app.orgName == app.orgGUID == ""
    && app.instances == app.diskQuota == app.totalDiskQuota == app.memory == app.totalMemory == 0
    && SidecarsOf(r, advancedTagging, sidecars) == Ok(app.sidecars)
  }

  /** An app without sidecars keeps a nil slice: appending nothing to nil gives nil. */
  function SidecarsOf<M>(r: AppResource<M>, advancedTagging: bool, sidecars: SidecarFetch)
    : Result<Option<seq<Sidecar>>>
  {
    if !advancedTagging then Ok(None)
    else
      match sidecars(r.guid)
      case Err(e) => Err(e)
      case Ok(found) => Ok(if found == [] then None else Some(found))
  }

  lemma SidecarsExactly<M>(r: AppResource<M>, advancedTagging: bool, sidecars: SidecarFetch)
    ensures !advancedTagging ==> SidecarsOf(r, advancedTagging, sidecars) == Ok(None)
    ensures advancedTagging && sidecars(r.guid).Ok? ==>
              var found := sidecars(r.guid).value;
              SidecarsOf(r, advancedTagging, sidecars) == Ok(if |found| > 0 then Some(found) else None)
    ensures advancedTagging && sidecars(r.guid).Err? ==>
              SidecarsOf(r, advancedTagging, sidecars) == Err(sidecars(r.guid).error)
  {
  }

  // ---------------------------------------------------------------- the join

  function LabelsOfSpace(space: Option<Space>): Labels {
    if space.Some? then space.value.labels else map[]
  }

  function AnnotationsOfSpace(space: Option<Space>): Labels {
    if space.Some? then space.value.annotations else map[]
  }

  function LabelsOfOrg(org: Option<Org>): Labels {
    if org.Some? then org.value.labels else map[]
  }

  function AnnotationsOfOrg(org: Option<Org>): Labels {
    if org.Some? then org.value.annotations else map[]
  }

  /**
   * What a fetched app must look like once joined with its processes, its space and its organisation; in a sum of
   * maps the right operand overrides.
   */
  ghost predicate JoinedWith(app: App, own: seq<Process>, space: Option<Space>, org: Option<Org>, r: App) {
    && r.guid == app.guid && r.name == app.name && r.spaceGUID == app.spaceGUID
    && r.buildpacks == app.buildpacks && r.sidecars == app.sidecars
    && r.instances == SumOf(InstancesOf, own)
    && r.diskQuota == SumOf(DiskOf, own) && r.totalDiskQuota == SumOf(TotalDiskOf, own)
    && r.memory == SumOf(MemoryOf, own) && r.totalMemory == SumOf(TotalMemoryOf, own)
    && r.spaceName == (if space.Some? then space.value.name else "")
    && r.orgGUID == (if space.Some? then space.value.orgGUID else "")
    && r.orgName == (if org.Some? then org.value.name else "")
    && r.labels == LabelsOfOrg(org) + LabelsOfSpace(space) + app.labels
    && r.annotations == AnnotationsOfOrg(org) + AnnotationsOfSpace(space) + app.annotations
  }

  ghost predicate Joined(app: App, processes: seq<Process>, spaces: seq<Space>, orgs: seq<Org>, r: App) {
    JoinedWith(app, ProcessesOf(processes, app.guid), SpaceOf(spaces, app.spaceGUID), OrgOf(orgs, r.orgGUID), r)
  }

  /** As setV3AppData leaves an app. */
  ghost predicate Bare<M>(app: AppData<M>) {
    && app.spaceName == app.orgName == app.orgGUID == ""
    && app.instances == app.diskQuota == app.totalDiskQuota == app.memory == app.totalMemory == 0
  }

  function Own(perApp: map<string, seq<Process>>, guid: string): seq<Process> {
    if guid in perApp then perApp[guid] else []
  }

  /** Filling in processes, then space, then organisation gives the join; the order matters to the labels. */
  lemma FillingJoins(app: App, own: seq<Process>, space: Option<Space>, org: Option<Org>)
    requires Bare(app)
    ensures JoinedWith(app, own, space, org, WithOrg(WithSpace(WithProcesses(app, own), space), org))
    ensures WithOrg(WithSpace(WithProcesses(app, own), space), org).orgGUID
         == WithSpace(WithProcesses(app, own), space).orgGUID
  {
    var a := WithProcesses(app, own);
    LabelsJoin(a, space, org);
    AnnotationsJoin(a, space, org);
  }

  lemma LabelsJoin(a: App, space: Option<Space>, org: Option<Org>)
    ensures WithOrg(WithSpace(a, space), org).labels == LabelsOfOrg(org) + LabelsOfSpace(space) + a.labels
  {
    assert WithSpace(a, space).labels == LabelsOfSpace(space) + a.labels;
    SumAssociative(LabelsOfOrg(org), LabelsOfSpace(space), a.labels);
    assert WithOrg(WithSpace(a, space), org).labels == LabelsOfOrg(org) + (LabelsOfSpace(space) + a.labels);
  }

  lemma AnnotationsJoin(a: App, space: Option<Space>, org: Option<Org>)
    ensures WithOrg(WithSpace(a, space), org).annotations
         == AnnotationsOfOrg(org) + AnnotationsOfSpace(space) + a.annotations
  {
    assert WithSpace(a, space).annotations == AnnotationsOfSpace(space) + a.annotations;
    SumAssociative(AnnotationsOfOrg(org), AnnotationsOfSpace(space), a.annotations);
    assert WithOrg(WithSpace(a, space), org).annotations
        == AnnotationsOfOrg(org) + (AnnotationsOfSpace(space) + a.annotations);
  }

  lemma SumAssociative(a: Labels, b: Labels, c: Labels)
    ensures a + (b + c) == a + b + c
  {
  }

  /** The errors of the fetches that failed. */
  function Errors<A, B, C, D>(a: Result<A>, b: Result<B>, c: Result<C>, d: Result<D>): set<string> {
    (if a.Err? then {a.error} else {}) + (if b.Err? then {b.error} else {})
    + (if c.Err? then {c.error} else {}) + (if d.Err? then {d.error} else {})
  }

  // ---------------------------------------------------------------- nothing provisioned is lost

  /** The sum over apps, by GUID, of what their processes provision. */
  function PerApp(f: Process -> int, processes: seq<Process>, guids: seq<string>): int {
    if guids == [] then 0
    else PerApp(f, processes, guids[..|guids| - 1]) + SumOf(f, ProcessesOf(processes, guids[|guids| - 1]))
  }

  /** Every process counted once for every app with its GUID. */
  function PerProcess(f: Process -> int, processes: seq<Process>, guids: seq<string>): int {
    if processes == [] then 0
    else
      var n := |processes| - 1;
      PerProcess(f, processes[..n], guids) + multiset(guids)[AppGUID(processes[n])] * f(processes[n])
  }

  /** The processes of no fetched app. */
  function Orphans(processes: seq<Process>, guids: seq<string>): seq<Process> {
    if processes == [] then []
    else
      var n := |processes| - 1;
      Orphans(processes[..n], guids) + if AppGUID(processes[n]) in guids then [] else [processes[n]]
  }

  function GUIDs(apps: seq<App>): seq<string> {
    if apps == [] then [] else GUIDs(apps[..|apps| - 1]) + [apps[|apps| - 1].guid]
  }

  lemma OwnProcesses(f: Process -> int, processes: seq<Process>, p: Process, guid: string)
    ensures SumOf(f, ProcessesOf(processes + [p], guid))
         == SumOf(f, ProcessesOf(processes, guid)) + if AppGUID(p) == guid then f(p) else 0
  {
    var own := ProcessesOf(processes, guid);
    assert (processes + [p])[..|processes|] == processes;
    if AppGUID(p) == guid {
      assert ProcessesOf(processes + [p], guid) == own + [p];
      assert (own + [p])[..|own|] == own;
    } else {
      assert ProcessesOf(processes + [p], guid) == own + [] == own;
    }
  }

  lemma OneMore(guids: seq<string>, guid: string, x: int)
    requires guids != []
    ensures multiset(guids)[guid] * x
         == multiset(guids[..|guids| - 1])[guid] * x + if guids[|guids| - 1] == guid then x else 0
  {
    assert guids == guids[..|guids| - 1] + [guids[|guids| - 1]];
  }

  lemma {:induction false} OneMoreProcess(f: Process -> int, processes: seq<Process>, p: Process, guids: seq<string>)
    ensures PerApp(f, processes + [p], guids) == PerApp(f, processes, guids) + multiset(guids)[AppGUID(p)] * f(p)
  {
    if guids == [] {
      assert multiset(guids)[AppGUID(p)] == 0;
    } else {
      var front, last := guids[..|guids| - 1], guids[|guids| - 1];
      OneMoreProcess(f, processes, p, front);
      OwnProcesses(f, processes, p, last);
      assert PerApp(f, processes + [p], guids)
          == PerApp(f, processes + [p], front) + SumOf(f, ProcessesOf(processes + [p], last));
      OneMore(guids, AppGUID(p), f(p));
    }
  }

  /** Summing app by app or process by process is the same, even with repeated GUIDs. */
  lemma {:induction false} SumByAppOrProcess(f: Process -> int, processes: seq<Process>, guids: seq<string>)
    ensures PerApp(f, processes, guids) == PerProcess(f, processes, guids)
  {
    if processes == [] {
      NoProcesses(f, guids);
    } else {
      var n := |processes| - 1;
      SumByAppOrProcess(f, processes[..n], guids);
      OneMoreProcess(f, processes[..n], processes[n], guids);
      assert processes == processes[..n] + [processes[n]];
    }
  }

  lemma {:induction false} NoProcesses(f: Process -> int, guids: seq<string>)
    ensures PerApp(f, [], guids) == 0
  {
    if guids == [] {
    } else {
      NoProcesses(f, guids[..|guids| - 1]);
    }
  }

  ghost predicate Distinct(guids: seq<string>) {
    forall guid :: multiset(guids)[guid] <= 1
  }

  lemma {:induction false} OrphansAreTheRest(f: Process -> int, processes: seq<Process>, guids: seq<string>)
    requires Distinct(guids)
    ensures PerProcess(f, processes, guids) + SumOf(f, Orphans(processes, guids)) == SumOf(f, processes)
  {
    if processes == [] {
    } else {
      var n := |processes| - 1;
      var p := processes[n];
      OrphansAreTheRest(f, processes[..n], guids);
      assert AppGUID(p) in guids <==> AppGUID(p) in multiset(guids);
      if AppGUID(p) in guids {
        assert multiset(guids)[AppGUID(p)] == 1;
        assert Orphans(processes, guids) == Orphans(processes[..n], guids);
      } else {
        SumConcat(f, Orphans(processes[..n], guids), [p]);
        assert SumOf(f, [p]) == f(p) by { assert [p][..0] == []; }
      }
    }
  }

  ghost predicate AllJoined(apps: seq<App>, processes: seq<Process>, spaces: seq<Space>, orgs: seq<Org>,
                            results: seq<App>)
  {
    |results| == |apps| && forall i :: 0 <= i < |apps| ==> Joined(apps[i], processes, spaces, orgs, results[i])
  }

  function AppInstances(a: App): int { a.instances }

  function AppTotalDisk(a: App): int { a.totalDiskQuota }

  function AppTotalMemory(a: App): int { a.totalMemory }

  lemma {:induction false} TotalsPerApp(apps: seq<App>, processes: seq<Process>, spaces: seq<Space>,
                                        orgs: seq<Org>, results: seq<App>)
    requires AllJoined(apps, processes, spaces, orgs, results)
    ensures SumOf(AppInstances, results) == PerApp(InstancesOf, processes, GUIDs(apps))
    ensures SumOf(AppTotalDisk, results) == PerApp(TotalDiskOf, processes, GUIDs(apps))
    ensures SumOf(AppTotalMemory, results) == PerApp(TotalMemoryOf, processes, GUIDs(apps))
  {
    if apps == [] {
    } else {
      var n := |apps| - 1;
      TotalsPerApp(apps[..n], processes, spaces, orgs, results[..n]);
      assert Joined(apps[n], processes, spaces, orgs, results[n]);
      assert GUIDs(apps)[..n] == GUIDs(apps[..n]) by { GUIDsLength(apps[..n]); }
    }
  }

  lemma {:induction false} GUIDsLength(apps: seq<App>)
    ensures |GUIDs(apps)| == |apps|
  {
    if apps == [] {
    } else {
      GUIDsLength(apps[..|apps| - 1]);
    }
  }

  /**
   * The join never loses or invents instances, disk or memory: summed over the apps they are the sums over the
   * processes, each taken as often as its app was returned.
   */
  lemma TotalsConserved(apps: seq<App>, processes: seq<Process>, spaces: seq<Space>, orgs: seq<Org>,
                        results: seq<App>)
    requires AllJoined(apps, processes, spaces, orgs, results)
    ensures SumOf(AppInstances, results) == PerProcess(InstancesOf, processes, GUIDs(apps))
    ensures SumOf(AppTotalDisk, results) == PerProcess(TotalDiskOf, processes, GUIDs(apps))
    ensures SumOf(AppTotalMemory, results) == PerProcess(TotalMemoryOf, processes, GUIDs(apps))
  {
    TotalsPerApp(apps, processes, spaces, orgs, results);
    SumByAppOrProcess(InstancesOf, processes, GUIDs(apps));
    SumByAppOrProcess(TotalDiskOf, processes, GUIDs(apps));
    SumByAppOrProcess(TotalMemoryOf, processes, GUIDs(apps));
  }

  /** With distinct GUIDs, the apps and the processes of no app together account for everything. */
  lemma TotalsPlusOrphans(apps: seq<App>, processes: seq<Process>, spaces: seq<Space>, orgs: seq<Org>,
                          results: seq<App>)
    requires AllJoined(apps, processes, spaces, orgs, results) && Distinct(GUIDs(apps))
    ensures SumOf(AppInstances, results) + SumOf(InstancesOf, Orphans(processes, GUIDs(apps)))
         == SumOf(InstancesOf, processes)
    ensures SumOf(AppTotalDisk, results) + SumOf(TotalDiskOf, Orphans(processes, GUIDs(apps)))
         == SumOf(TotalDiskOf, processes)
    ensures SumOf(AppTotalMemory, results) + SumOf(TotalMemoryOf, Orphans(processes, GUIDs(apps)))
         == SumOf(TotalMemoryOf, processes)
  {
    TotalsConserved(apps, processes, spaces, orgs, results);
    OrphansAreTheRest(InstancesOf, processes, GUIDs(apps));
    OrphansAreTheRest(TotalDiskOf, processes, GUIDs(apps));
    OrphansAreTheRest(TotalMemoryOf, processes, GUIDs(apps));
  }

  /** The totals of a joined app, as sums over the processes that refer to it. */
  lemma JoinedTotals(app: App, processes: seq<Process>, spaces: seq<Space>, orgs: seq<Org>, r: App,
                     own: Process -> bool, instances: Process -> int, disk: Process -> int, totalDisk: Process -> int,
                     memory: Process -> int, totalMemory: Process -> int)
    requires Joined(app, processes, spaces, orgs, r) && '/' !in app.guid
    requires forall p: Process :: own(p) <==> p.appHref == app.guid || HasSuffix(p.appHref, "/" + app.guid)
    requires forall p: Process :: instances(p) == p.instances
    requires forall p: Process :: disk(p) == p.diskInMB && memory(p) == p.memoryInMB
    requires forall p: Process :: totalDisk(p) == p.instances * p.diskInMB
    requires forall p: Process :: totalMemory(p) == p.instances * p.memoryInMB
    ensures var mine := Filter(own, processes);
            && r.instances == SumOf(instances, mine)
            && r.diskQuota == SumOf(disk, mine) && r.totalDiskQuota == SumOf(totalDisk, mine)
            && r.memory == SumOf(memory, mine) && r.totalMemory == SumOf(totalMemory, mine)
  {
    GroupExactly(processes, app.guid, own);
    var mine := Filter(own, processes);
    SumSame(InstancesOf, instances, mine);
    SumSame(DiskOf, disk, mine);
    SumSame(TotalDiskOf, totalDisk, mine);
    SumSame(MemoryOf, memory, mine);
    SumSame(TotalMemoryOf, totalMemory, mine);
  }

  /** The other fields of a joined app, from the fields of the app, of its space and of its space's organisation. */
  lemma JoinedFields(app: App, processes: seq<Process>, spaces: seq<Space>, orgs: seq<Org>, r: App)
    requires Joined(app, processes, spaces, orgs, r)
    ensures r.guid == app.guid && r.name == app.name && r.spaceGUID == app.spaceGUID
    ensures r.buildpacks == app.buildpacks && r.sidecars == app.sidecars
    ensures match SpaceOf(spaces, app.spaceGUID)
            case Some(space) => r.spaceName == space.name && r.orgGUID == space.orgGUID
            case None => r.spaceName == "" && r.orgGUID == ""
    ensures match OrgOf(orgs, r.orgGUID)
            case Some(org) => r.orgName == org.name
            case None => r.orgName == ""
  {
  }

  /** One label of a joined app. */
  lemma LabelExactly(app: App, processes: seq<Process>, spaces: seq<Space>, orgs: seq<Org>, r: App, key: string)
    requires Joined(app, processes, spaces, orgs, r)
    ensures var space, org := SpaceOf(spaces, app.spaceGUID), OrgOf(orgs, r.orgGUID);
            && (key in app.labels ==> key in r.labels && r.labels[key] == app.labels[key])
            && (key !in app.labels && space.Some? && key in space.value.labels ==>
                  key in r.labels && r.labels[key] == space.value.labels[key])
            && (key !in app.labels && !(space.Some? && key in space.value.labels) && org.Some? && key in org.value.labels ==>
                  key in r.labels && r.labels[key] == org.value.labels[key])
            && (key in r.labels ==> key in app.labels || (space.Some? && key in space.value.labels)
                                    || (org.Some? && key in org.value.labels))
  {
    OverridePrecedence(app, processes, spaces, orgs, r, key);
  }

  lemma AnnotationExactly(app: App, processes: seq<Process>, spaces: seq<Space>, orgs: seq<Org>, r: App, key: string)
    requires Joined(app, processes, spaces, orgs, r)
    ensures var space, org := SpaceOf(spaces, app.spaceGUID), OrgOf(orgs, r.orgGUID);
            && (key in app.annotations ==> key in r.annotations && r.annotations[key] == app.annotations[key])
            && (key !in app.annotations && space.Some? && key in space.value.annotations ==>
                  key in r.annotations && r.annotations[key] == space.value.annotations[key])
            && (key !in app.annotations && !(space.Some? && key in space.value.annotations)
                && org.Some? && key in org.value.annotations ==>
                  key in r.annotations && r.annotations[key] == org.value.annotations[key])
            && (key in r.annotations ==> key in app.annotations || (space.Some? && key in space.value.annotations)
                                         || (org.Some? && key in org.value.annotations))
  {
    OverridePrecedence(app, processes, spaces, orgs, r, key);
  }

  function Precedence(key: string, app: Labels, space: Labels, org: Labels): Option<string> {
    if key in app then Some(app[key])
    else if key in space then Some(space[key])
    else if key in org then Some(org[key])
    else None
  }

  /** Whichever app list, label by label: the app's value, else its space's, else the organisation's, else none. */
  lemma OverridePrecedence(app: App, processes: seq<Process>, spaces: seq<Space>, orgs: seq<Org>, r: App,
                           key: string)
    requires Joined(app, processes, spaces, orgs, r)
    ensures var space, org := SpaceOf(spaces, app.spaceGUID), OrgOf(orgs, r.orgGUID);
            && Precedence(key, app.labels, LabelsOfSpace(space), LabelsOfOrg(org))
               == (if key in r.labels then Some(r.labels[key]) else None)
            && Precedence(key, app.annotations, AnnotationsOfSpace(space), AnnotationsOfOrg(org))
               == (if key in r.annotations then Some(r.annotations[key]) else None)
  {
  }

  // ---------------------------------------------------------------- which API version is used

  /** How both fetches would end if they were made. */
  datatype Outcome = Outcome(v3: Result<seq<App>>, v2: Result<seq<App>>)

  class CFClient {
    var apiVersion: int

    constructor ()
      ensures apiVersion == 0
    {
      apiVersion := 0;
    }

    method GetApplications(outcome: Outcome) returns (results: Result<seq<App>>)
      modifies this
      ensures results == Answer(old(apiVersion), outcome)
      ensures apiVersion == NextVersion(old(apiVersion), outcome)
      ensures old(apiVersion) == 2 ==> results == outcome.v2 && apiVersion == 2
      ensures old(apiVersion) == 3 ==> results == outcome.v3 && apiVersion == 3
      ensures old(apiVersion) != 2 && old(apiVersion) != 3 ==>
                && (outcome.v3.Ok? ==> results == outcome.v3 && apiVersion == 3)
                && (outcome.v3.Err? && outcome.v2.Ok? ==> results == outcome.v2 && apiVersion == 3)
                && (outcome.v3.Err? && outcome.v2.Err? ==> results == outcome.v2 && apiVersion == old(apiVersion))
    {
      if apiVersion == 2 {
        return outcome.v2;
      }
      if apiVersion == 3 {
        return outcome.v3;
      }
      results := outcome.v3;
      if results.Err? {
        results := outcome.v2;
        if results.Err? {
          return;
        }
        apiVersion := 2;
      }
      apiVersion := 3;
    }
  }

  function Answer(version: int, outcome: Outcome): Result<seq<App>> {
    if version == 2 then outcome.v2
    else if version == 3 || outcome.v3.Ok? then outcome.v3
    else outcome.v2
  }

  function NextVersion(version: int, outcome: Outcome): int {
    if version == 2 || version == 3 then version
    else if outcome.v3.Ok? || outcome.v2.Ok? then 3
    else version
  }

  function VersionAfter(outcomes: seq<Outcome>): int {
    if outcomes == [] then 0 else NextVersion(VersionAfter(outcomes[..|outcomes| - 1]), outcomes[|outcomes| - 1])
  }

  predicate Succeeds(outcome: Outcome) { outcome.v3.Ok? || outcome.v2.Ok? }

  /**
   * A client settles on version 3 with its first success, even one that came from the version 2 endpoints, and
   * never uses version 2 again.
   */
  lemma {:induction false} VersionNeverTwo(outcomes: seq<Outcome>)
    ensures VersionAfter(outcomes) ==
            if exists i :: 0 <= i < |outcomes| && Succeeds(outcomes[i]) then 3 else 0
  {
    if outcomes == [] {
    } else {
      var n := |outcomes| - 1;
      var front := outcomes[..n];
      VersionNeverTwo(front);
      if i :| 0 <= i < |front| && Succeeds(front[i]) {
        assert Succeeds(outcomes[i]);
      }
      if i :| 0 <= i < |outcomes| && Succeeds(outcomes[i]) && i != n {
        assert Succeeds(front[i]);
      }
    }
  }

  /**
   * So a server with only version 2 endpoints answers exactly one call: the first. Every later one fails although
   * the fallback would have worked.
   */
  lemma FallbackForgotten(before: seq<Outcome>, outcome: Outcome)
    requires outcome.v3.Err? && outcome.v2.Ok?
    ensures Answer(VersionAfter(before), outcome).Ok? <==> forall i :: 0 <= i < |before| ==> !Succeeds(before[i])
    ensures Answer(VersionAfter(before + [outcome]), outcome) == outcome.v3
  {
    VersionNeverTwo(before);
    VersionNeverTwo(before + [outcome]);
    assert Succeeds((before + [outcome])[|before|]);
  }
}
