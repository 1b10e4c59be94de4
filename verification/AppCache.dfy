/** The application cache and the metrics built from it (internal/processor/parser/app.go and util.go). */
module AppCache {
  import opened Sequences
  import opened Text
  import opened Metrics
  import opened Util
  import opened InfraParser
  import AppJoin

  type CFApp = AppJoin.App

  /** A compiled metadata pattern. */
  type Pattern = string -> bool

  datatype TagConfig = TagConfig(
    metadataPrefix: bool,
    collectMetadata: bool,
    whitelist: seq<Pattern>,
    blacklist: seq<Pattern>,
    decimal: nat -> string)

  const AUTODISCOVERY: string := "tags.datadoghq.com/"

  // ---------------------------------------------------------------- metadata tags

  /** A blacklist match always wins; an empty whitelist allows every key. */
  predicate KeyAllowed(cfg: TagConfig, key: string) {
    && (cfg.whitelist == [] || exists i :: 0 <= i < |cfg.whitelist| && cfg.whitelist[i](key))
    && forall i :: 0 <= i < |cfg.blacklist| ==> !cfg.blacklist[i](key)
  }

  method IsMetadataKeyAllowed(cfg: TagConfig, key: string) returns (allowed: bool)
    ensures allowed == KeyAllowed(cfg, key)
    ensures allowed <==>
              (|cfg.whitelist| == 0 || exists i :: 0 <= i < |cfg.whitelist| && cfg.whitelist[i](key))
              && !exists i :: 0 <= i < |cfg.blacklist| && cfg.blacklist[i](key)
  {
    allowed := |cfg.whitelist| == 0;
    for i := 0 to |cfg.whitelist|
      invariant allowed <==> cfg.whitelist == []
      invariant forall j :: 0 <= j < i ==> !cfg.whitelist[j](key)
    {
      if cfg.whitelist[i](key) {
        allowed := true;
        break;
      }
    }
    for i := 0 to |cfg.blacklist|
      invariant allowed <==> cfg.whitelist == [] || exists j :: 0 <= j < |cfg.whitelist| && cfg.whitelist[j](key)
      invariant forall j :: 0 <= j < i ==> !cfg.blacklist[j](key)
    {
      if cfg.blacklist[i](key) {
        return false;
      }
    }
  }

  function ValueAt(collection: AppJoin.Labels, key: string): string {
    if key in collection then collection[key] else ""
  }

  function MetadataTag(cfg: TagConfig, collection: AppJoin.Labels, prefix: string, key: string): seq<string> {
    if HasPrefix(key, AUTODISCOVERY) then NonEmptyTag(key[|AUTODISCOVERY|..], ValueAt(collection, key))
    else if cfg.collectMetadata && KeyAllowed(cfg, key) then NonEmptyTag(prefix + key, ValueAt(collection, key))
    else []
  }

  /** The tag of one label or annotation: an autodiscovery key without its prefix, any other with the given one. */
  lemma MetadataExactly(cfg: TagConfig, collection: AppJoin.Labels, prefix: string, key: string, tag: string)
    requires key in collection
    ensures tag in MetadataTag(cfg, collection, prefix, key) <==>
              collection[key] != ""
              && if HasPrefix(key, "tags.datadoghq.com/") then tag == key[|"tags.datadoghq.com/"|..] + ":" + collection[key]
                 else cfg.collectMetadata && KeyAllowed(cfg, key) && tag == prefix + key + ":" + collection[key]
  {
  }

  lemma {:induction false} CollectionExactly(cfg: TagConfig, collection: AppJoin.Labels, prefix: string, order: seq<string>,
                                             tag: string)
    requires Enumerates(order, collection.Keys)
    ensures tag in MetadataInOrder(cfg, collection, prefix, order)
       <==> exists key :: key in collection && tag in MetadataTag(cfg, collection, prefix, key)
  {
    EnumeratesMembers(order, collection.Keys);
    FlattenMapMembers(MetadataMaker(cfg, collection, prefix), order, tag);
    if key :| key in collection && tag in MetadataTag(cfg, collection, prefix, key) {
      assert key in order && tag in MetadataMaker(cfg, collection, prefix)(key);
    }
    if key :| key in order && tag in MetadataMaker(cfg, collection, prefix)(key) {
      assert tag in MetadataTag(cfg, collection, prefix, key);
    }
  }

  function MetadataMaker(cfg: TagConfig, collection: AppJoin.Labels, prefix: string): string -> seq<string> {
    (key: string) => MetadataTag(cfg, collection, prefix, key)
  }

  function MetadataInOrder(cfg: TagConfig, collection: AppJoin.Labels, prefix: string, order: seq<string>): seq<string> {
    Flatten(Map(MetadataMaker(cfg, collection, prefix), order))
  }

  /** One turn of the loop. */
  method AppendMetadataTag(cfg: TagConfig, tags: seq<string>, collection: AppJoin.Labels, prefix: string, key: string)
    returns (all: seq<string>)
    requires key in collection
    ensures all == tags + MetadataTag(cfg, collection, prefix, key)
  {
    all := tags;
    if HasPrefix(key, AUTODISCOVERY) {
      all := AppendTagIfNotEmpty(all, key[|AUTODISCOVERY|..], collection[key]);
    } else if cfg.collectMetadata {
      var allowed := IsMetadataKeyAllowed(cfg, key);
      if allowed {
        all := AppendTagIfNotEmpty(all, prefix + key, collection[key]);
      }
    }
  }

  /** Ranges over the collection in any order, which is returned. */
  method AppendMetadataTags(cfg: TagConfig, tags: seq<string>, collection: AppJoin.Labels, prefix: string)
    returns (all: seq<string>, ghost order: seq<string>)
    ensures Enumerates(order, collection.Keys)
    ensures all == tags + MetadataInOrder(cfg, collection, prefix, order)
  {
    all, order := tags, [];
    var todo := collection.Keys;
    while todo != {}
      invariant todo <= collection.Keys
      invariant Enumerates(order, collection.Keys - todo)
      invariant all == tags + MetadataInOrder(cfg, collection, prefix, order)
      decreases todo
    {
      var key :| key in todo;
      all := AppendMetadataTag(cfg, all, collection, prefix, key);
      FlattenMapNext(MetadataMaker(cfg, collection, prefix), order, key);
      EnumeratesNext(order, collection.Keys, todo, key);
      order := order + [key];
      todo := todo - {key};
    }
    assert collection.Keys - {} == collection.Keys;
  }

  // ---------------------------------------------------------------- the tags of an app

  /** The fields that setAppData copies. */
  datatype Info = Info(
    name: string, spaceID: string, spaceName: string, orgName: string, orgID: string, numberOfInstances: int,
    totalDiskConfigured: int, totalMemoryConfigured: int, totalDiskProvisioned: int, totalMemoryProvisioned: int,
    buildpacks: seq<string>)

  function InfoOf(c: CFApp): Info {
    Info(c.name, c.spaceGUID, c.spaceName, c.orgName, c.orgGUID, c.instances, c.diskQuota, c.memory,
         c.totalDiskQuota, c.totalMemory, c.buildpacks)
  }

  /** An update is accepted when none of its six identity tags is empty. */
  predicate Acceptable(c: CFApp) {
    c.name != "" && c.orgName != "" && c.orgGUID != "" && c.spaceName != "" && c.spaceGUID != "" && c.guid != ""
  }

  function SixIdentityTags(guid: string, info: Info): seq<string> {
    NonEmptyTag("app_name", info.name) + NonEmptyTag("org_name", info.orgName) + NonEmptyTag("org_id", info.orgID)
    + NonEmptyTag("space_name", info.spaceName) + NonEmptyTag("space_id", info.spaceID) + NonEmptyTag("guid", guid)
  }

  function BuildpackTag(buildpack: string): seq<string> {
    NonEmptyTag("buildpack", buildpack)
  }

  function SidecarTags(cfg: TagConfig, sidecars: Option<seq<AppJoin.Sidecar>>): seq<string> {
    match sidecars
    case None => []
    case Some(found) =>
      NonEmptyTag("sidecar_present", if |found| > 0 then "true" else "false")
      + NonEmptyTag("sidecar_count", cfg.decimal(|found|))
  }

  /** Everything in the order it is appended; the two orders are those of the annotation and label loops. */
  function TagsOf(cfg: TagConfig, c: CFApp, annotationOrder: seq<string>, labelOrder: seq<string>): seq<string> {
    SixIdentityTags(c.guid, InfoOf(c)) + Flatten(Map(BuildpackTag, c.buildpacks)) + SidecarTags(cfg, c.sidecars)
    + MetadataInOrder(cfg, c.annotations, AnnotationPrefix(cfg), annotationOrder)
    + MetadataInOrder(cfg, c.labels, LabelPrefix(cfg), labelOrder)
  }

  function AnnotationPrefix(cfg: TagConfig): string {
    if cfg.metadataPrefix then "annotation/" else ""
  }

  function LabelPrefix(cfg: TagConfig): string {
    if cfg.metadataPrefix then "label/" else ""
  }

  lemma IdentityTagsExactly(c: CFApp)
    requires c.name != "" && c.orgName != "" && c.orgGUID != "" && c.spaceName != "" && c.spaceGUID != "" && c.guid != ""
    ensures SixIdentityTags(c.guid, InfoOf(c))
         == ["app_name" + ":" + c.name, "org_name" + ":" + c.orgName, "org_id" + ":" + c.orgGUID,
             "space_name" + ":" + c.spaceName, "space_id" + ":" + c.spaceGUID, "guid" + ":" + c.guid]
  {
  }

  lemma BuildpackTagsExactly(c: CFApp, tag: string)
    ensures tag in Flatten(Map(BuildpackTag, c.buildpacks))
       <==> exists buildpack :: buildpack in c.buildpacks && buildpack != "" && tag == "buildpack" + ":" + buildpack
  {
    FlattenMapMembers(BuildpackTag, c.buildpacks, tag);
    if buildpack :| buildpack in c.buildpacks && buildpack != "" && tag == "buildpack" + ":" + buildpack {
      assert tag in BuildpackTag(buildpack);
    }
    if buildpack :| buildpack in c.buildpacks && tag in BuildpackTag(buildpack) {
      assert buildpack != "" && tag == "buildpack" + ":" + buildpack;
    }
  }

  lemma SidecarTagsExactly(cfg: TagConfig, c: CFApp, tag: string)
    ensures tag in SidecarTags(cfg, c.sidecars) <==>
              c.sidecars.Some?
              && var n := |c.sidecars.value|;
                 || tag == "sidecar_present" + ":" + (if n > 0 then "true" else "false")
                 || (cfg.decimal(n) != "" && tag == "sidecar_count" + ":" + cfg.decimal(n))
  {
  }

  /** No source of an app's tags is left out; the prefixes of annotations and labels depend on the configuration. */
  lemma AppTagSources(cfg: TagConfig, c: CFApp, a: seq<string>, b: seq<string>, tag: string)
    ensures tag in TagsOf(cfg, c, a, b) <==>
      || tag in SixIdentityTags(c.guid, InfoOf(c)) || tag in Flatten(Map(BuildpackTag, c.buildpacks))
      || tag in SidecarTags(cfg, c.sidecars)
      || tag in MetadataInOrder(cfg, c.annotations, if cfg.metadataPrefix then "annotation/" else "", a)
      || tag in MetadataInOrder(cfg, c.labels, if cfg.metadataPrefix then "label/" else "", b)
  {
  }

  /** Map order changes the order of an app's tags, never the tags. */
  lemma TagsOfBag(cfg: TagConfig, c: CFApp, a: seq<string>, b: seq<string>, x: seq<string>, y: seq<string>)
    requires Enumerates(a, c.annotations.Keys) && Enumerates(x, c.annotations.Keys)
    requires Enumerates(b, c.labels.Keys) && Enumerates(y, c.labels.Keys)
    ensures multiset(TagsOf(cfg, c, a, b)) == multiset(TagsOf(cfg, c, x, y))
  {
    MetadataBag(cfg, c.annotations, AnnotationPrefix(cfg), a, x);
    MetadataBag(cfg, c.labels, LabelPrefix(cfg), b, y);
  }

  lemma MetadataBag(cfg: TagConfig, collection: AppJoin.Labels, prefix: string, a: seq<string>, x: seq<string>)
    requires Enumerates(a, collection.Keys) && Enumerates(x, collection.Keys)
    ensures multiset(MetadataInOrder(cfg, collection, prefix, a)) == multiset(MetadataInOrder(cfg, collection, prefix, x))
  {
    PermutedMap(MetadataMaker(cfg, collection, prefix), a, x);
    PermutedFlatten(Map(MetadataMaker(cfg, collection, prefix), a), Map(MetadataMaker(cfg, collection, prefix), x));
  }

  /** The key of an app metric depends on the update the tags came from, not on any map order. */
  lemma AppKeysIgnoreMapOrder(cfg: TagConfig, c: CFApp, a: seq<string>, b: seq<string>, x: seq<string>, y: seq<string>,
                              digest: string -> string, more: seq<string>)
    requires Enumerates(a, c.annotations.Keys) && Enumerates(x, c.annotations.Keys)
    requires Enumerates(b, c.labels.Keys) && Enumerates(y, c.labels.Keys)
    ensures HashOf(digest, TagsOf(cfg, c, a, b) + more) == HashOf(digest, TagsOf(cfg, c, x, y) + more)
  {
    TagsOfBag(cfg, c, a, b, x, y);
    HashIgnoresOrder(digest, TagsOf(cfg, c, a, b) + more, TagsOf(cfg, c, x, y) + more);
  }

  // ---------------------------------------------------------------- App

  class App {
    const guid: string
    var info: Info
    var host: string
    var tags: array<string>

    ghost function Value(): Entry
      reads this, tags
    {
      Entry(info, tags[..])
    }

    constructor (guid: string)
      ensures this.guid == guid && host == "" && fresh(tags) && tags.Length == 0
    {
      this.guid := guid;
      info := Info("", "", "", "", "", 0, 0, 0, 0, 0, []);
      host := "";
      tags := new string[0];
    }

    /** Copies the fields before it checks them, so that a rejected update has overwritten everything but the tags. */
    method SetAppData(cfg: TagConfig, c: CFApp)
      returns (ok: bool, ghost annotationOrder: seq<string>, ghost labelOrder: seq<string>)
      requires guid == c.guid
      modifies this`info, this`tags
      ensures info == InfoOf(c)
      ensures info.name == c.name && info.spaceID == c.spaceGUID && info.spaceName == c.spaceName
      ensures info.orgName == c.orgName && info.orgID == c.orgGUID && info.numberOfInstances == c.instances
      ensures info.totalDiskConfigured == c.diskQuota && info.totalDiskProvisioned == c.totalDiskQuota
      ensures info.totalMemoryConfigured == c.memory && info.totalMemoryProvisioned == c.totalMemory
      ensures info.buildpacks == c.buildpacks
      ensures ok <==> Acceptable(c)
      ensures ok <==> c.name != "" && c.orgName != "" && c.orgGUID != "" && c.spaceName != "" && c.spaceGUID != ""
                      && c.guid != ""
      ensures !ok ==> tags == old(tags)
      ensures Enumerates(annotationOrder, c.annotations.Keys) && Enumerates(labelOrder, c.labels.Keys)
      ensures ok ==> fresh(tags) && tags[..] == TagsOf(cfg, c, annotationOrder, labelOrder)
    {
      info := InfoOf(c);
      var all := ListSixTags();
      SixTags(c);
      if |all| != 6 {
        annotationOrder, labelOrder := SomeOrder(c.annotations.Keys), SomeOrder(c.labels.Keys);
        return false, annotationOrder, labelOrder;
      }
      all := AppendBuildAndSidecarTags(cfg, all, c);
      all, annotationOrder := AppendMetadataTags(cfg, all, c.annotations, AnnotationPrefix(cfg));
      all, labelOrder := AppendMetadataTags(cfg, all, c.labels, LabelPrefix(cfg));
      tags := Slice(all);
      ok := true;
    }

    method ListSixTags() returns (all: seq<string>)
      ensures all == SixIdentityTags(guid, info)
    {
      all := AppendTagIfNotEmpty([], "app_name", info.name);
      all := AppendTagIfNotEmpty(all, "org_name", info.orgName);
      all := AppendTagIfNotEmpty(all, "org_id", info.orgID);
      all := AppendTagIfNotEmpty(all, "space_name", info.spaceName);
      all := AppendTagIfNotEmpty(all, "space_id", info.spaceID);
      all := AppendTagIfNotEmpty(all, "guid", guid);
    }

    function Host(): string
      reads this
    {
      if host != "" then host else guid
    }

    function AllTags(moreTags: seq<string>): seq<string>
      reads this, tags
    {
      AppendTagIfNotEmpty(tags[..] + moreTags, "source_id", guid)
    }

    lemma AllTagsExactly(moreTags: seq<string>)
      ensures AllTags(moreTags) == tags[..] + moreTags + if guid != "" then ["source_id" + ":" + guid] else []
      ensures Host() == if host != "" then host else guid
    {
    }

    /**
     * Metrics carry a sorted copy of the cached tags: this method changes nothing, in particular not the array
     * the cache holds. Timestamps are readings of a clock.
     */
    method MkMetrics(digest: string -> string, clock: nat -> int, names: seq<string>, ms: seq<Float>,
                     moreTags: seq<string>)
      returns (packages: seq<MetricPackage>)
      requires |names| == |ms|
      ensures |packages| == |names|
      ensures forall i :: 0 <= i < |names| ==>
                packages[i] == AppMetric(digest, names[i], Point(clock(i), ms[i]), Host(), AllTags(moreTags))
    {
      ghost var all := AllTags(moreTags);
      var host := Host();
      var copied := Slice(AllTags(moreTags));
      packages := [];
      for i := 0 to |names|
        invariant |packages| == i
        invariant fresh(copied)
        invariant multiset(copied[..]) == multiset(all)
        invariant forall j :: 0 <= j < i ==>
                    packages[j] == AppMetric(digest, names[j], Point(clock(j), ms[j]), host, all)
      {
        var package := MkMetric(digest, names[i], Point(clock(i), ms[i]), host, copied, all);
        packages := packages + [package];
      }
    }
  }

  /** A metric's key and tags do not depend on the order of its tags. */
  function AppMetric(digest: string -> string, name: string, point: Point, host: string, tags: seq<string>): MetricPackage {
    MetricPackage(MetricKey(name, HashOf(digest, tags)), MetricValue(Sort(tags), [point], host, ""))
  }

  lemma AppMetricExactly(digest: string -> string, name: string, point: Point, host: string, tags: seq<string>)
    ensures AppMetric(digest, name, point, host, tags)
         == MetricPackage(MetricKey(name, HashOf(digest, tags)), MetricValue(Sort(tags), [point], host, ""))
  {
  }

  /** One turn of the loop over the names; the first sorts the copy, the others find it sorted. */
  method MkMetric(digest: string -> string, name: string, point: Point, host: string, tags: array<string>,
                  ghost all: seq<string>)
    returns (package: MetricPackage)
    requires multiset(tags[..]) == multiset(all)
    modifies tags
    ensures multiset(tags[..]) == multiset(all)
    ensures package == AppMetric(digest, name, point, host, all)
  {
    HashIgnoresOrder(digest, tags[..], all);
    SortCanonical(tags[..], all);
    var hash := HashTags(digest, tags);
    var key := MetricKey(name, hash);
    var mVal := MetricValue(tags[..], [point], host, "");
    package := MetricPackage(key, mVal);
  }

  method Slice(s: seq<string>) returns (a: array<string>)
    ensures fresh(a) && a[..] == s
  {
    a := new string[|s|](i requires 0 <= i < |s| => s[i]);
  }

  method BuildpackTagList(buildpacks: seq<string>) returns (all: seq<string>)
    ensures all == Flatten(Map(BuildpackTag, buildpacks))
  {
    all := [];
    for i := 0 to |buildpacks|
      invariant all == Flatten(Map(BuildpackTag, buildpacks[..i]))
    {
      all := AppendTagIfNotEmpty(all, "buildpack", buildpacks[i]);
      FlattenMapNext(BuildpackTag, buildpacks[..i], buildpacks[i]);
      assert buildpacks[..i + 1] == buildpacks[..i] + [buildpacks[i]];
    }
    assert buildpacks[..|buildpacks|] == buildpacks;
  }

  method AppendBuildAndSidecarTags(cfg: TagConfig, tags: seq<string>, c: CFApp) returns (all: seq<string>)
    ensures all == tags + Flatten(Map(BuildpackTag, c.buildpacks)) + SidecarTags(cfg, c.sidecars)
  {
    var packs := BuildpackTagList(c.buildpacks);
    all := tags + packs;
    if c.sidecars.Some? {
      var sidecars := c.sidecars.value;
      all := AppendTagIfNotEmpty(all, "sidecar_present", if |sidecars| > 0 then "true" else "false");
      all := AppendTagIfNotEmpty(all, "sidecar_count", cfg.decimal(|sidecars|));
    }
  }

  /** The loops of a rejected update never run; any order stands for theirs. */
  ghost function SomeOrder(keys: set<string>): (order: seq<string>)
    ensures Enumerates(order, keys)
  {
    EnumerationExists(keys);
    var order: seq<string> :| Enumerates(order, keys);
    order
  }

  lemma SixTags(c: CFApp)
    ensures |SixIdentityTags(c.guid, InfoOf(c))| == 6 <==> Acceptable(c)
  {
  }

  // ---------------------------------------------------------------- the cache

  datatype Entry = Entry(info: Info, tags: seq<string>)

  type Contents = map<string, Entry>

  /** One call of Add, with the orders its two range loops take. */
  datatype Update = Update(app: CFApp, annotationOrder: seq<string>, labelOrder: seq<string>)

  function Updated(cfg: TagConfig, m: Contents, u: Update): Contents {
    var guid := u.app.guid;
    if Acceptable(u.app) then m[guid := Entry(InfoOf(u.app), TagsOf(cfg, u.app, u.annotationOrder, u.labelOrder))]
    else if guid in m then m[guid := m[guid].(info := InfoOf(u.app))]
    else m
  }

  function UpdatedAll(cfg: TagConfig, m: Contents, us: seq<Update>): Contents {
    if us == [] then m else Updated(cfg, UpdatedAll(cfg, m, us[..|us| - 1]), us[|us| - 1])
  }

  ghost predicate FollowsMaps(u: Update) {
    Enumerates(u.annotationOrder, u.app.annotations.Keys) && Enumerates(u.labelOrder, u.app.labels.Keys)
  }

  /** One update for each fetched app, in order. */
  ghost predicate Adds(us: seq<Update>, cfapps: seq<CFApp>) {
    if cfapps == [] then us == []
    else
      && us != [] && us[|us| - 1].app == cfapps[|cfapps| - 1] && FollowsMaps(us[|us| - 1])
      && Adds(us[..|us| - 1], cfapps[..|cfapps| - 1])
  }

  lemma Extends(cfg: TagConfig, m: Contents, us: seq<Update>, u: Update, cfapps: seq<CFApp>, i: nat)
    requires i < |cfapps| && Adds(us, cfapps[..i]) && u.app == cfapps[i] && FollowsMaps(u)
    ensures Adds(us + [u], cfapps[..i + 1])
    ensures UpdatedAll(cfg, m, us + [u]) == Updated(cfg, UpdatedAll(cfg, m, us), u)
  {
    assert (us + [u])[..|us|] == us && cfapps[..i + 1][..i] == cfapps[..i];
  }

  /** The objects of the old cache are in the new one, under the same GUIDs. */
  ghost predicate Keeps(before: map<string, App>, after: map<string, App>) {
    forall guid :: guid in before ==> guid in after && after[guid] == before[guid]
  }

  method NewApp(cfg: TagConfig, c: CFApp) returns (created: App, ok: bool, ghost u: Update)
    ensures fresh(created) && created.guid == c.guid
    ensures ok <==> Acceptable(c)
    ensures u.app == c && FollowsMaps(u)
    ensures ok ==> fresh(created.tags)
    ensures ok ==> created.Value() == Entry(InfoOf(c), TagsOf(cfg, c, u.annotationOrder, u.labelOrder))
  {
    created := new App(c.guid);
    ghost var annotationOrder: seq<string>;
    ghost var labelOrder: seq<string>;
    ok, annotationOrder, labelOrder := created.SetAppData(cfg, c);
    u := Update(c, annotationOrder, labelOrder);
  }

  class Cache {
    var apps: map<string, App>
    var warmedUp: bool

    /** Each app is stored under its own GUID. */
    ghost predicate Valid()
      reads this`apps
    {
      forall guid :: guid in apps ==> apps[guid].guid == guid
    }

    ghost function Value(): Contents
      reads this`apps, apps.Values, set guid | guid in apps :: apps[guid].tags
    {
      map guid | guid in apps :: apps[guid].Value()
    }

    constructor ()
      ensures Valid() && apps == map[] && !warmedUp
    {
      apps := map[];
      warmedUp := false;
    }

    method Add(cfg: TagConfig, c: CFApp) returns (app: Option<App>, ghost u: Update)
      requires Valid()
      modifies this`apps, set guid | guid in apps && guid == c.guid :: apps[guid]
      ensures Valid() && Keeps(old(apps), apps)
      ensures forall guid :: guid in apps && guid !in old(apps) ==> fresh(apps[guid])
      ensures u.app == c && FollowsMaps(u) && Value() == Updated(cfg, old(Value()), u)
      ensures app.Some? <==> Acceptable(c)
      ensures app.Some? ==> c.guid in apps && app.value == apps[c.guid]
    {
      if c.guid in apps {
        app, u := UpdateKnown(cfg, c);
      } else {
        app, u := InsertNew(cfg, c);
      }
    }

    method UpdateKnown(cfg: TagConfig, c: CFApp) returns (app: Option<App>, ghost u: Update)
      requires Valid() && c.guid in apps
      modifies apps[c.guid]
      ensures u.app == c && FollowsMaps(u) && Value() == Updated(cfg, old(Value()), u)
      ensures app == if Acceptable(c) then Some(apps[c.guid]) else None
    {
      var known := apps[c.guid];
      var ok: bool;
      ghost var annotationOrder: seq<string>;
      ghost var labelOrder: seq<string>;
      ok, annotationOrder, labelOrder := known.SetAppData(cfg, c);
      u := Update(c, annotationOrder, labelOrder);
      assert forall guid :: guid in apps && guid != c.guid ==> apps[guid].Value() == old(apps[guid].Value());
      app := if ok then Some(known) else None;
    }

    method InsertNew(cfg: TagConfig, c: CFApp) returns (app: Option<App>, ghost u: Update)
      requires Valid() && c.guid !in apps
      modifies this`apps
      ensures Valid() && Keeps(old(apps), apps)
      ensures forall guid :: guid in apps && guid !in old(apps) ==> fresh(apps[guid])
      ensures u.app == c && FollowsMaps(u) && Value() == Updated(cfg, old(Value()), u)
      ensures app.Some? <==> Acceptable(c)
      ensures app.Some? ==> c.guid in apps && app.value == apps[c.guid]
    {
      var created, ok;
      created, ok, u := NewApp(cfg, c);
      ghost var entry := created.Value();
      if ok {
        Store(created);
        assert Value() == old(Value())[c.guid := entry];
      }
      app := if ok then Some(created) else None;
    }

    method Store(created: App)
      requires Valid() && created.guid !in apps
      modifies this`apps
      ensures Valid() && apps == old(apps)[created.guid := created]
      ensures Value() == old(Value())[created.guid := created.Value()]
    {
      apps := apps[created.guid := created];
      assert forall guid :: guid in old(apps) ==> apps[guid].Value() == old(apps[guid].Value());
    }

    function Get(guid: string): Option<App>
      reads this
    {
      if guid in apps then Some(apps[guid]) else None
    }

    /** A failed fetch changes nothing; otherwise every app is added, whether or not others are rejected. */
    method WarmupCache(cfg: TagConfig, fetched: AppJoin.Result<seq<CFApp>>) returns (ghost us: seq<Update>)
      requires Valid()
      modifies this`apps, this`warmedUp, apps.Values
      ensures Valid() && Keeps(old(apps), apps)
      ensures if fetched.Err? then us == [] && apps == old(apps) else Adds(us, fetched.value)
      ensures Value() == UpdatedAll(cfg, old(Value()), us)
      ensures warmedUp == (old(warmedUp) || fetched.Ok?)
    {
      us := [];
      if fetched.Err? {
        return;
      }
      us := AddEach(cfg, fetched.value);
      if !warmedUp {
        SetWarmedUp();
      }
    }

    method SetWarmedUp()
      modifies this`warmedUp
      ensures warmedUp && Value() == old(Value())
    {
      warmedUp := true;
    }

    method AddEach(cfg: TagConfig, cfapps: seq<CFApp>) returns (ghost us: seq<Update>)
      requires Valid()
      modifies this`apps, apps.Values
      ensures Valid() && Keeps(old(apps), apps)
      ensures Adds(us, cfapps)
      ensures Value() == UpdatedAll(cfg, old(Value()), us)
    {
      us := [];
      ghost var value := Value();
      for i := 0 to |cfapps|
        invariant Valid() && Keeps(old(apps), apps)
        invariant forall guid :: guid in apps ==> apps[guid] in old(apps.Values) || fresh(apps[guid])
        invariant Adds(us, cfapps[..i])
        invariant Value() == value == UpdatedAll(cfg, old(Value()), us)
      {
        var _, u := Add(cfg, cfapps[i]);
        value := Updated(cfg, value, u);
        Extends(cfg, old(Value()), us, u, cfapps, i);
        us := us + [u];
      }
      assert cfapps[..|cfapps|] == cfapps;
    }

    /** A cached app is returned as it is; any other is fetched and added. */
    method GetAppData(cfg: TagConfig, guid: string, fetched: AppJoin.Result<CFApp>)
      returns (app: Option<App>, ghost us: seq<Update>)
      requires Valid()
      modifies this`apps, apps.Values
      ensures Valid() && Keeps(old(apps), apps)
      ensures |us| <= 1 && (us == [] <==> guid in old(apps) || fetched.Err?)
      ensures us != [] ==> us[0].app == fetched.value && FollowsMaps(us[0])
      ensures Value() == UpdatedAll(cfg, old(Value()), us)
      ensures app.Some? <==> guid in old(apps) || (fetched.Ok? && Acceptable(fetched.value))
      ensures guid in old(apps) ==> app.value == old(apps[guid])
      ensures app.Some? && guid !in old(apps) ==> fetched.value.guid in apps && app.value == apps[fetched.value.guid]
    {
      us := [];
      app := Get(guid);
      if app.None? && fetched.Ok? {
        ghost var u;
        app, u := Add(cfg, fetched.value);
        us := [u];
        assert us[..0] == [];
      }
    }
  }

  // ---------------------------------------------------------------- every run of adds, warmups and lookups

  /** The last update of an app, or -1. */
  function LastUpdate(us: seq<Update>, guid: string): (i: int)
    ensures -1 <= i < |us|
    ensures i >= 0 ==> us[i].app.guid == guid
    ensures forall j :: i < j < |us| ==> us[j].app.guid != guid
  {
    if us == [] then -1
    else if us[|us| - 1].app.guid == guid then |us| - 1
    else LastUpdate(us[..|us| - 1], guid)
  }

  /** The last accepted update of an app, or -1. */
  function LastAccepted(us: seq<Update>, guid: string): (i: int)
    ensures -1 <= i < |us|
    ensures i >= 0 ==> us[i].app.guid == guid && Acceptable(us[i].app)
    ensures forall j :: i < j < |us| ==> us[j].app.guid != guid || !Acceptable(us[j].app)
  {
    if us == [] then -1
    else if us[|us| - 1].app.guid == guid && Acceptable(us[|us| - 1].app) then |us| - 1
    else LastAccepted(us[..|us| - 1], guid)
  }

  /**
   * Main result on the cache: after any updates, from warmups and lookups alike, an app is cached exactly when one
   * of its updates was accepted; its tags are those of the last accepted one, its other fields those of the last
   * one, accepted or not.
   */
  lemma {:induction false} CacheMeaning(cfg: TagConfig, us: seq<Update>, guid: string)
    ensures var m, i, j := UpdatedAll(cfg, map[], us), LastUpdate(us, guid), LastAccepted(us, guid);
            && (guid in m <==> j >= 0)
            && j <= i
            && (guid in m ==>
                  m[guid] == Entry(InfoOf(us[i].app), TagsOf(cfg, us[j].app, us[j].annotationOrder, us[j].labelOrder)))
  {
    if us == [] {
    } else {
      CacheMeaning(cfg, us[..|us| - 1], guid);
    }
  }

  /** Several calls in a row do what all their updates do at once. */
  lemma {:induction false} UpdatesConcat(cfg: TagConfig, m: Contents, us: seq<Update>, more: seq<Update>)
    ensures UpdatedAll(cfg, UpdatedAll(cfg, m, us), more) == UpdatedAll(cfg, m, us + more)
  {
    if more == [] {
      assert us + more == us;
    } else {
      var front, last := more[..|more| - 1], more[|more| - 1];
      UpdatesConcat(cfg, m, us, front);
      UpdatesNext(cfg, m, us + front, last);
      UpdatesNext(cfg, UpdatedAll(cfg, m, us), front, last);
      ConcatLast(us, more);
    }
  }

  lemma UpdatesNext(cfg: TagConfig, m: Contents, us: seq<Update>, u: Update)
    ensures UpdatedAll(cfg, m, us + [u]) == Updated(cfg, UpdatedAll(cfg, m, us), u)
  {
    assert (us + [u])[..|us|] == us;
  }

  /** What each of several calls, such as a warmup and lookups, does, one after the other. */
  function AfterCalls(cfg: TagConfig, m: Contents, calls: seq<seq<Update>>): Contents {
    if calls == [] then m else UpdatedAll(cfg, AfterCalls(cfg, m, calls[..|calls| - 1]), calls[|calls| - 1])
  }

  /** So `CacheMeaning` speaks of any calls on a new cache. */
  lemma {:induction false} CallsConcat(cfg: TagConfig, calls: seq<seq<Update>>)
    ensures AfterCalls(cfg, map[], calls) == UpdatedAll(cfg, map[], Flatten(calls))
  {
    if calls == [] {
    } else {
      CallsConcat(cfg, calls[..|calls| - 1]);
      UpdatesConcat(cfg, map[], Flatten(calls[..|calls| - 1]), calls[|calls| - 1]);
    }
  }

  /** The cached entry is what update i, an accepted one of this app, would leave. */
  ghost predicate LeftBy(cfg: TagConfig, us: seq<Update>, guid: string, i: nat) {
    && i < |us| && us[i].app.guid == guid && Acceptable(us[i].app)
    && guid in UpdatedAll(cfg, map[], us)
    && UpdatedAll(cfg, map[], us)[guid]
       == Entry(InfoOf(us[i].app), TagsOf(cfg, us[i].app, us[i].annotationOrder, us[i].labelOrder))
  }

  /** The fields and the tags of a cached app come from one accepted update exactly when its last one was accepted. */
  lemma EntryConsistentExactly(cfg: TagConfig, us: seq<Update>, guid: string)
    requires guid in UpdatedAll(cfg, map[], us)
    ensures LastUpdate(us, guid) >= 0
    ensures (exists i :: LeftBy(cfg, us, guid, i)) <==> Acceptable(us[LastUpdate(us, guid)].app)
  {
    CacheMeaning(cfg, us, guid);
    var last := LastUpdate(us, guid);
    if Acceptable(us[last].app) {
      assert LastAccepted(us, guid) == last;
      assert LeftBy(cfg, us, guid, last);
    }
    if i: nat :| LeftBy(cfg, us, guid, i) {
      SameInfo(us[i].app, us[last].app);
    }
  }

  /** Whether an update is accepted can be read off its GUID and the fields it leaves. */
  lemma SameInfo(a: CFApp, b: CFApp)
    requires a.guid == b.guid && InfoOf(a) == InfoOf(b)
    ensures Acceptable(a) <==> Acceptable(b)
  {
  }

  /** No later update, of any app, evicts an app. */
  lemma {:induction false} NeverEvicted(cfg: TagConfig, us: seq<Update>, more: seq<Update>)
    ensures UpdatedAll(cfg, map[], us).Keys <= UpdatedAll(cfg, map[], us + more).Keys
  {
    if more == [] {
      assert us + more == us;
    } else {
      NeverEvicted(cfg, us, more[..|more| - 1]);
      assert (us + more)[..|us + more| - 1] == us + more[..|more| - 1];
    }
  }

  /** An app fetched without a name, say, is rejected: unknown it stays out, known it keeps its tags but loses its name. */
  lemma RejectedUpdate(cfg: TagConfig, us: seq<Update>, u: Update, guid: string)
    requires !Acceptable(u.app)
    ensures var before, after := UpdatedAll(cfg, map[], us), UpdatedAll(cfg, map[], us + [u]);
            && after.Keys == before.Keys
            && (guid in before ==> after[guid].tags == before[guid].tags)
            && (guid in before && u.app.guid == guid ==> after[guid].info == InfoOf(u.app))
            && (guid in before && u.app.guid != guid ==> after[guid] == before[guid])
  {
    assert (us + [u])[..|us|] == us;
  }
}
