/** apps/web/src/lib/cloud/aws-resources.ts: turning Resource Explorer
    search results into the inventory, the bounded pagination loop, the
    per-service and per-region counts, and the module-level four-hour
    cache. The search service is a function from the request's page token
    to the settled response; the clock is an input. */
module AwsResources {
  import opened Seqs
  import opened Strings
  import opened Ranking
  import opened Tally
  import opened Records

  /** `p.Data`: absent, a string, or any other JSON value, given as the
      text `JSON.stringify` makes of it. */
  datatype PropertyData = NoData | Text(text: string) | Json(rendered: string)

  datatype RawProperty = RawProperty(name: Option<string>, data: PropertyData)

  /** A `Resource` of the search response; `lastReportedAt` is the
      `toISOString()` text of the date, when there is one. */
  datatype RawResource = RawResource(
    arn: Option<string>,
    resourceType: Option<string>,
    region: Option<string>,
    lastReportedAt: Option<string>,
    properties: seq<RawProperty>)

  /** `CloudResource` */
  datatype CloudResource = CloudResource(
    arn: string,
    resourceType: string,
    service: string,
    region: string,
    lastReportedAt: string,
    properties: map<string, string>)

  /** JavaScript truthiness of `p.Data`: the empty string, 0, false and null
      (which stringify as "0", "false" and "null") are falsy. */
  predicate DataPresent(d: PropertyData)
  {
    match d
    case NoData => false
    case Text(s) => s != ""
    case Json(j) => j != "0" && j != "false" && j != "null"
  }

  /** `typeof p.Data === 'string' ? p.Data : JSON.stringify(p.Data)` */
  function DataText(d: PropertyData): string
  {
    match d
    case NoData => ""
    case Text(s) => s
    case Json(j) => j
  }

  /** `p.Name && p.Data` */
  predicate PropertyKept(p: RawProperty)
  {
    p.name.Some? && p.name.value != "" && DataPresent(p.data)
  }

  function PropertyName(p: RawProperty): string
  {
    if p.name.Some? then p.name.value else ""
  }

  function PropertyText(p: RawProperty): string
  {
    DataText(p.data)
  }

  /** `props` once the loop has visited every property. */
  function Properties(props: seq<RawProperty>): map<string, string>
  {
    Assign(props, PropertyKept, PropertyName, PropertyText)
  }

  /** Only properties with a name and data are recorded, string data
      verbatim, and a later property of the same name overwrites. */
  lemma PropertiesContents(props: seq<RawProperty>, i: nat)
    requires i < |props| && PropertyKept(props[i])
    requires forall j :: i < j < |props| && PropertyKept(props[j]) ==> PropertyName(props[j]) != PropertyName(props[i])
    ensures forall k :: k in Properties(props) <==>
      exists j :: 0 <= j < |props| && PropertyKept(props[j]) && PropertyName(props[j]) == k
    ensures props[i].name.Some? && Properties(props)[props[i].name.value] == DataText(props[i].data)
    ensures props[i].data.Text? ==> Properties(props)[props[i].name.value] == props[i].data.text
  {
    AssignKeys(props, PropertyKept, PropertyName, PropertyText);
    AssignLast(props, PropertyKept, PropertyName, PropertyText, i);
  }

  /** The properties loop of `mapResource`. */
  method BuildProperties(props: seq<RawProperty>) returns (m: map<string, string>)
    ensures m == Properties(props)
  {
    m := map[];
    var i := 0;
    while i < |props|
      invariant 0 <= i <= |props|
      invariant m == Properties(props[..i])
    {
      assert props[..i + 1][..i] == props[..i];
      var p := props[i];
      if p.name.Some? && p.name.value != "" && DataPresent(p.data) {
        m := m[p.name.value := DataText(p.data)];
      }
      i := i + 1;
    }
    assert props[..|props|] == props;
  }

  /** `arnParts[2] || r.ResourceType?.split(':')[0] || 'unknown'` */
  function ResourceService(arn: string, resourceType: Option<string>): (r: string)
    ensures r != ""
    ensures |Split(arn, ':')| > 2 && Split(arn, ':')[2] != "" ==> r == Split(arn, ':')[2]
    ensures ((|Split(arn, ':')| <= 2 || Split(arn, ':')[2] == "") && resourceType.Some? &&
      Split(resourceType.value, ':')[0] != "") ==> r == Split(resourceType.value, ':')[0]
    ensures r == "unknown" || (|Split(arn, ':')| > 2 && r == Split(arn, ':')[2]) ||
      (resourceType.Some? && r == Split(resourceType.value, ':')[0])
  {
    var fromType := if resourceType.Some? then Some(Split(resourceType.value, ':')[0]) else None;
    Or(At(Split(arn, ':'), 2), Or(fromType, "unknown"))
  }

  /** `r.Region || arnParts[3] || 'unknown'` */
  function ResourceRegion(arn: string, region: Option<string>): (r: string)
    ensures r != ""
    ensures region.Some? && region.value != "" ==> r == region.value
    ensures (region.None? || region.value == "") && |Split(arn, ':')| > 3 && Split(arn, ':')[3] != "" ==>
      r == Split(arn, ':')[3]
    ensures r == "unknown" || (region.Some? && r == region.value) ||
      (|Split(arn, ':')| > 3 && r == Split(arn, ':')[3])
  {
    Or(region, Or(At(Split(arn, ':'), 3), "unknown"))
  }

  /** `mapResource` as a value. */
  function ResourceOf(r: RawResource): CloudResource
  {
    var arn := Or(r.arn, "");
    CloudResource(
      arn,
      Or(r.resourceType, "unknown"),
      ResourceService(arn, r.resourceType),
      ResourceRegion(arn, r.region),
      Or(r.lastReportedAt, ""),
      Properties(r.properties))
  }

  /** `mapResource`, whose properties loop is a loop. */
  method MapResource(r: RawResource) returns (c: CloudResource)
    ensures c == ResourceOf(r)
    ensures c.arn == Or(r.arn, "") && c.resourceType != "" && c.service != "" && c.region != ""
  {
    var arn := Or(r.arn, "");
    var props := BuildProperties(r.properties);
    c := CloudResource(
      arn,
      Or(r.resourceType, "unknown"),
      ResourceService(arn, r.resourceType),
      ResourceRegion(arn, r.region),
      Or(r.lastReportedAt, ""),
      props);
  }

  function ResourcesOf(rs: seq<RawResource>): (r: seq<CloudResource>)
    ensures |r| == |rs|
    ensures forall i :: 0 <= i < |rs| ==> r[i] == ResourceOf(rs[i])
  {
    seq(|rs|, i requires 0 <= i < |rs| => ResourceOf(rs[i]))
  }

  // ---------------------------------------------------------------------
  // Pagination
  // ---------------------------------------------------------------------

  /** One search response: its resources and its `NextToken`. */
  datatype Page = Page(resources: seq<RawResource>, nextToken: Option<string>)

  /** At most three requests per fetch. */
  const MaxPages: nat := 3

  /** `nextToken` is truthy. */
  predicate HasToken(t: Option<string>)
  {
    t.Some? && t.value != ""
  }

  /** Mapping the search results distributes over concatenation, so
      mapping page by page equals mapping all results at once. */
  lemma ResourcesOfAppend(a: seq<RawResource>, b: seq<RawResource>)
    ensures ResourcesOf(a + b) == ResourcesOf(a) + ResourcesOf(b)
  {
  }

  /** The rest of the do-while loop, from a request with token `token` after
      `pages` requests, with the search results received so far in `acc`:
      the results received in the end and the number of requests made, or
      what a request threw. */
  function Crawl(server: Option<string> -> Outcome<Page>, token: Option<string>, pages: nat, acc: seq<RawResource>)
    : (r: Outcome<(seq<RawResource>, nat)>)
    requires pages < MaxPages
    ensures r.Ok? ==> pages < r.value.1 <= MaxPages && acc <= r.value.0
    decreases MaxPages - pages
  {
    match server(token)
    case Thrown(m) => Thrown(m)
    case Ok(page) =>
      var acc' := acc + page.resources;
      if HasToken(page.nextToken) && pages + 1 < MaxPages then Crawl(server, page.nextToken, pages + 1, acc')
      else Ok((acc', pages + 1))
  }

  /** What the loop leaves in `allResources`: every search result received,
      mapped, and the number of requests; or what a request threw. */
  function Fetched(server: Option<string> -> Outcome<Page>): Outcome<(seq<CloudResource>, nat)>
  {
    match Crawl(server, None, 0, [])
    case Thrown(m) => Thrown(m)
    case Ok((raw, n)) => Ok((ResourcesOf(raw), n))
  }

  /** A response without a next token ends the loop, whatever the number
      of requests so far, and so does the third response: its results are
      appended and nothing more is requested. */
  lemma StopPage(server: Option<string> -> Outcome<Page>, token: Option<string>, pages: nat, acc: seq<RawResource>)
    requires pages < MaxPages
    requires server(token).Ok? && (!HasToken(server(token).value.nextToken) || pages + 1 == MaxPages)
    ensures Crawl(server, token, pages, acc) == Ok((acc + server(token).value.resources, pages + 1))
  {
  }

  /** The pages a crawl receives, when every request answers: the first
      answers `token`, and each later one answers the next token of the
      page before it. */
  ghost predicate Trail(server: Option<string> -> Outcome<Page>, token: Option<string>, ps: seq<Page>)
    decreases |ps|
  {
    && |ps| >= 1
    && server(token) == Ok(ps[0])
    && (|ps| >= 2 ==> HasToken(ps[0].nextToken) && Trail(server, ps[0].nextToken, ps[1..]))
  }

  /** The trail ends where the loop stops: at a page without a next token,
      or at the third request. */
  ghost predicate Stops(ps: seq<Page>, pages: nat)
    requires |ps| >= 1
  {
    !HasToken(ps[|ps| - 1].nextToken) || pages + |ps| == MaxPages
  }

  /** The results of the pages, page after page, in order. */
  function Gathered(ps: seq<Page>): seq<RawResource>
  {
    if |ps| == 0 then [] else ps[0].resources + Gathered(ps[1..])
  }

  /** A trail that ends where the loop stops is exactly what the crawl
      collects: the pages' results in order, after one request per page. */
  lemma {:induction false} CrawlFollowsTrail(server: Option<string> -> Outcome<Page>, token: Option<string>, pages: nat,
                                             acc: seq<RawResource>, ps: seq<Page>)
    requires pages < MaxPages && Trail(server, token, ps) && pages + |ps| <= MaxPages && Stops(ps, pages)
    ensures Crawl(server, token, pages, acc) == Ok((acc + Gathered(ps), pages + |ps|))
    decreases |ps|
  {
    var page := ps[0];
    var acc' := acc + page.resources;
    if |ps| == 1 {
      assert ps[1..] == [];
      assert Gathered(ps) == page.resources;
    } else {
      var rest := ps[1..];
      assert ps[|ps| - 1] == rest[|rest| - 1];
      CrawlFollowsTrail(server, page.nextToken, pages + 1, acc', rest);
      assert acc' + Gathered(rest) == acc + Gathered(ps);
    }
  }

  /** Conversely, a crawl that succeeds followed such a trail: its result is
      the results of the pages it received, in order, and it stopped at the
      first page without a next token or at the third request. */
  lemma {:induction false} CrawlTrail(server: Option<string> -> Outcome<Page>, token: Option<string>, pages: nat,
                                      acc: seq<RawResource>)
    returns (ps: seq<Page>)
    requires pages < MaxPages && Crawl(server, token, pages, acc).Ok?
    ensures Trail(server, token, ps) && pages + |ps| <= MaxPages && Stops(ps, pages)
    ensures Crawl(server, token, pages, acc) == Ok((acc + Gathered(ps), pages + |ps|))
    decreases MaxPages - pages
  {
    var page := server(token).value;
    var acc' := acc + page.resources;
    if HasToken(page.nextToken) && pages + 1 < MaxPages {
      var rest := CrawlTrail(server, page.nextToken, pages + 1, acc');
      ps := [page] + rest;
      assert ps[1..] == rest;
      assert ps[|ps| - 1] == rest[|rest| - 1];
      assert acc' + Gathered(rest) == acc + Gathered(ps);
    } else {
      ps := [page];
      assert ps[1..] == [];
      assert Gathered(ps) == page.resources;
    }
  }

  /** The push loop of `fetchAwsResources`: one mapped resource appended per
      search result of a page, in order. */
  method PushAll(all: seq<CloudResource>, results: seq<RawResource>) returns (r: seq<CloudResource>)
    ensures r == all + ResourcesOf(results)
  {
    r := all;
    var i := 0;
    while i < |results|
      invariant 0 <= i <= |results|
      invariant r == all + ResourcesOf(results[..i])
    {
      var c := MapResource(results[i]);
      assert ResourcesOf(results[..i + 1]) == ResourcesOf(results[..i]) + [c];
      r := r + [c];
      i := i + 1;
    }
    assert results[..|results|] == results;
  }

  /** The pagination loop of `fetchAwsResources`. */
  method Paginate(server: Option<string> -> Outcome<Page>) returns (r: Outcome<(seq<CloudResource>, nat)>)
    ensures r == Fetched(server)
  {
    var allResources: seq<CloudResource> := [];
    ghost var received: seq<RawResource> := [];
    var nextToken: Option<string> := None;
    var pages: nat := 0;
    var more := true;
    while more
      invariant pages <= MaxPages
      invariant allResources == ResourcesOf(received)
      invariant more ==> pages < MaxPages && Crawl(server, None, 0, []) == Crawl(server, nextToken, pages, received)
      invariant !more ==> Crawl(server, None, 0, []) == Ok((received, pages))
      decreases MaxPages - pages, more
    {
      var response := server(nextToken);
      if response.Thrown? {
        return Thrown(response.message);
      }
      var page := response.value;
      allResources := PushAll(allResources, page.resources);
      ResourcesOfAppend(received, page.resources);
      received := received + page.resources;
      nextToken := page.nextToken;
      pages := pages + 1;
      more := HasToken(nextToken) && pages < MaxPages;
    }
    return Ok((allResources, pages));
  }

  // ---------------------------------------------------------------------
  // Counting
  // ---------------------------------------------------------------------

  /** `{ service, count }` or `{ region, count }` */
  datatype KeyCount = KeyCount(key: string, count: nat)

  function CountOf(k: KeyCount): real
  {
    k.count as real
  }

  function ServiceKey(r: CloudResource): string
  {
    r.service
  }

  function RegionKey(r: CloudResource): string
  {
    r.region
  }

  function NoWeight(r: CloudResource): real
  {
    0.0
  }

  /** Drops the unused weight of each bucket. Sorting compares counts only,
      so sorting before or after this projection gives the same list. */
  function Counts(b: seq<Bucket>): (r: seq<KeyCount>)
    ensures |r| == |b|
    ensures forall i :: 0 <= i < |b| ==> r[i] == KeyCount(b[i].key, b[i].count)
  {
    seq(|b|, i requires 0 <= i < |b| => KeyCount(b[i].key, b[i].count))
  }

  /** The map of counts per key, sorted by count descending. */
  function CountBy(resources: seq<CloudResource>, key: CloudResource -> string): seq<KeyCount>
  {
    Counts(SortDesc(Aggregate(resources, key, NoWeight), BucketCount))
  }

  lemma {:induction false} CountsSum(b: seq<Bucket>)
    ensures Sum(Counts(b), CountOf) == Sum(b, BucketCount)
  {
    if |b| > 0 {
      var n := |b| - 1;
      assert Counts(b)[..n] == Counts(b[..n]);
      CountsSum(b[..n]);
    }
  }

  /** Each key appears once, the counts are sorted descending and add up to
      the number of resources, every entry holds its key's number of
      resources, and every resource's key has an entry. */
  lemma CountByProperties(resources: seq<CloudResource>, key: CloudResource -> string)
    ensures var r := CountBy(resources, key);
      && (forall i, j :: 0 <= i < j < |r| ==> r[i].key != r[j].key)
      && (forall i, j :: 0 <= i < j < |r| ==> r[i].count >= r[j].count)
      && Sum(r, CountOf) == |resources| as real
      && (forall j :: 0 <= j < |r| ==> r[j].count == Occurrences(resources, key, r[j].key) && r[j].count > 0)
      && (forall i :: 0 <= i < |resources| ==> exists j :: 0 <= j < |r| && r[j].key == key(resources[i]))
  {
    var sorted := SortDesc(Aggregate(resources, key, NoWeight), BucketCount);
    RankedTally(resources, key, NoWeight, BucketCount);
    CountsSum(sorted);
    var r := Counts(sorted);
    forall i | 0 <= i < |resources| ensures exists j :: 0 <= j < |r| && r[j].key == key(resources[i]) {
      var j :| 0 <= j < |sorted| && sorted[j].key == key(resources[i]);
      assert r[j].key == sorted[j].key;
    }
  }

  /** `ResourceSummary` */
  datatype ResourceSummary = ResourceSummary(
    totalCount: nat,
    byService: seq<KeyCount>,
    byRegion: seq<KeyCount>,
    resources: seq<CloudResource>)

  /** What a fetch past the cache check yields: the collected resources and
      their counts, or what a request threw. */
  function Inventory(server: Option<string> -> Outcome<Page>): Outcome<ResourceSummary>
  {
    match Fetched(server)
    case Thrown(m) => Thrown(m)
    case Ok((all, _)) => Ok(ResourceSummary(|all|, CountBy(all, ServiceKey), CountBy(all, RegionKey), all))
  }

  /** `fetchAwsResources` past the cache check: pagination, then the
      service and region maps. */
  method Collect(server: Option<string> -> Outcome<Page>) returns (r: Outcome<ResourceSummary>)
    ensures r == Inventory(server)
  {
    var crawled := Paginate(server);
    if crawled.Thrown? {
      return Thrown(crawled.message);
    }
    var allResources := crawled.value.0;
    var serviceMap := Count(allResources, ServiceKey, NoWeight);
    var byService := Counts(SortDesc(serviceMap, BucketCount));
    var regionMap := Count(allResources, RegionKey, NoWeight);
    var byRegion := Counts(SortDesc(regionMap, BucketCount));
    r := Ok(ResourceSummary(|allResources|, byService, byRegion, allResources));
  }

  /** `CACHE_TTL_MS`: four hours. */
  const CacheTtlMs := 4 * 60 * 60 * 1000

  /** The module-level `cachedResources` / `cachedAt` pair. */
  class ResourceCache {
    var cachedResources: Option<ResourceSummary>
    var cachedAt: int

    constructor()
      ensures cachedResources.None? && cachedAt == 0
    {
      cachedResources := None;
      cachedAt := 0;
    }

    predicate Fresh(now: int)
      reads this
    {
      cachedResources.Some? && now - cachedAt < CacheTtlMs
    }

    /** `fetchAwsResources` at time `now`; `storedAt` is the clock read
        when the new summary is cached. A request that throws leaves the
        cache as it was. */
    method Fetch(now: int, storedAt: int, server: Option<string> -> Outcome<Page>) returns (r: Outcome<ResourceSummary>)
      modifies this
      ensures old(Fresh(now)) ==> r == Ok(old(cachedResources).value) && unchanged(this)
      ensures !old(Fresh(now)) ==> r == Inventory(server)
      ensures !old(Fresh(now)) && r.Ok? ==> cachedResources == Some(r.value) && cachedAt == storedAt
      ensures !old(Fresh(now)) && r.Thrown? ==> unchanged(this)
    {
      if cachedResources.Some? && now - cachedAt < CacheTtlMs {
        return Ok(cachedResources.value);
      }
      r := Collect(server);
      if r.Ok? {
        cachedResources := Some(r.value);
        cachedAt := storedAt;
      }
    }
  }
}
