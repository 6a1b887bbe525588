/** The Starfish API client: the request each operation sends (endpoint, body and
    headers), the asynchronous query submission and its polling, and the selection
    logic applied to the service's JSON replies. The HTTP transport is an oracle:
    replies are parameters, and requests are returned as values. */
module StarfishApiClient {
  import opened Wrappers
  import opened Json
  import Seqs
  import opened QueryTerms
  import opened AsyncQuery

  /** `volumes_and_paths`: one `volume:path` string or a list of them. */
  datatype Scope = OneScope(s: string) | ScopeList(items: seq<string>)

  /** A tag-operation argument as the caller passes it: a single value or a list. */
  datatype Arg = Scalar(s: string) | ListArg(items: seq<string>)

  datatype Zone = Zone(id: string, name: string, paths: seq<string>, managers: seq<string>,
                       managingGroups: seq<string>)

  /** A volume record of the `volume` endpoint; only `vol` is interpreted. */
  datatype Volume = Volume(vol: string, attributes: map<string, Json>)

  datatype Verb = Get | Post | Put | Delete

  /** The JSON body of `POST async/query/`. */
  datatype QueryBody = QueryBody(
    queries: seq<string>,
    limit: int,
    sortBy: Option<string>,
    groupBy: Option<string>,
    asyncAfterSec: int,
    format: string,
    forceTagInherit: string,
    outputFormat: string,
    delimiter: string,
    escapePaths: string,
    printHeaders: string,
    sizeUnit: string,
    humanizeNested: string,
    mountAgent: string,
    volumesAndPaths: Option<Scope>)

  datatype Body =
    | NoBody
    | TagPaths(paths: seq<string>, tags: seq<string>, strict: Option<bool>)
    | TagRename(tag: seq<string>, newTag: seq<string>)
    | TagPurge(purgePaths: Arg, purgeTags: Arg)
    | ZoneFields(name: string, paths: seq<string>, managers: seq<string>, managingGroups: seq<string>)
    | QuerySubmit(query: QueryBody)

  /** One HTTP request, relative to the client's base URL. */
  datatype Request = Request(verb: Verb, endpoint: string, body: Body, headers: map<string, string>)

  /** What the transport hands back for a request. */
  datatype HttpReply = HttpReply(status: int, body: Json, headers: map<string, string>)

  datatype ZoneError =
    | MissingIdentifier               // ValueError: neither zone_id nor zone_name
    | NoneNotSubscriptable            // TypeError: `zone['id']` on the None of a failed lookup
    | ZoneNotFound(name: string)      // ValueError: the zone found has a falsy id

  /** Python truthiness of an optional string: None and '' are false. */
  predicate Truthy(o: Option<string>)
  {
    o.Some? && o.value != ""
  }

  /** Tag arguments that are not lists are wrapped in a one-element list. */
  function Normalise(a: Arg): (r: seq<string>)
  {
    match a
    case Scalar(s) => [s]
    case ListArg(items) => items
  }

  /** A scalar and the one-element list holding it normalise alike, and normalising
      is idempotent. */
  lemma NormaliseScalarAsList(a: Arg)
    ensures a.Scalar? ==> Normalise(a) == Normalise(ListArg([a.s]))
    ensures Normalise(ListArg(Normalise(a))) == Normalise(a)
    ensures a.Scalar? ==> |Normalise(a)| == 1
  {
  }

  /** The job identifier in a 202 reply body, when it is a string. */
  function JobId(body: Json): Option<string>
  {
    if body.JObject? && "query_id" in body.fields && body.fields["query_id"].JStr? then
      Some(body.fields["query_id"].s)
    else None
  }

  /** `raise_for_status` followed by the reply handling at the end of `_request_query`. */
  function ClassifyReply(reply: HttpReply): (r: Result<Option<QueryResponse>, QueryError>)
    ensures r.Failure? <==> (400 <= reply.status < 600) || (reply.status == 202 && JobId(reply.body).None?)
    ensures 400 <= reply.status < 600 ==> r == Failure(HttpError(reply.status))
    ensures reply.status == 202 && JobId(reply.body).None? ==> r == Failure(MalformedReply)
    ensures r.Success? ==> (r.value.Some? <==> reply.status == 200 || reply.status == 202)
    ensures r.Success? && r.value.Some? ==> (r.value.value.complete <==> reply.status == 200)
    ensures r.Success? && r.value.Some? && r.value.value.complete ==>
      r.value.value.results == reply.body &&
      (r.value.value.queryId.Some? <==> "SF-Query-Id" in reply.headers) &&
      (r.value.value.queryId.Some? ==> r.value.value.queryId.value == reply.headers["SF-Query-Id"])
    ensures r.Success? && r.value.Some? && !r.value.value.complete ==>
      r.value.value.results == JNull && r.value.value.queryId == JobId(reply.body) && r.value.value.queryId.Some?
  {
    if 400 <= reply.status < 600 then Failure(HttpError(reply.status))
    else if reply.status == 200 then
      var queryId := if "SF-Query-Id" in reply.headers then Some(reply.headers["SF-Query-Id"]) else None;
      Success(Some(QueryResponse(queryId, true, reply.body)))
    else if reply.status == 202 then
      match JobId(reply.body)
      case Some(id) => Success(Some(QueryResponse(Some(id), false, JNull)))
      case None => Failure(MalformedReply)
    else Success(None)
  }

  /** The body `_request_query` posts, for terms that already hold `type=d`. */
  function SubmitBody(terms: seq<Entry>, volumesPaths: Option<Scope>, groupby: Option<string>,
                      columns: Option<seq<string>>, asyncAfter: int): (b: QueryBody)
    ensures b.queries == [Serialise(terms)] && b.limit == 100000
    ensures b.format == if columns.None? then "" else Seqs.Join(' ', columns.value)
    ensures b.volumesAndPaths == volumesPaths && b.sortBy == groupby && b.groupBy == groupby
    ensures b.asyncAfterSec == asyncAfter
  {
    QueryBody(
      queries := [Serialise(terms)],
      limit := 100000,
      sortBy := groupby,
      groupBy := groupby,
      asyncAfterSec := asyncAfter,
      format := if columns.Some? then Seqs.Join(' ', columns.value) else "",
      forceTagInherit := "false",
      outputFormat := "json",
      delimiter := ",",
      escapePaths := "false",
      printHeaders := "true",
      sizeUnit := "B",
      humanizeNested := "false",
      mountAgent := "None",
      volumesAndPaths := volumesPaths)
  }

  /** A value `query` passes to one of `_request_query`'s parameters. */
  datatype ArgValue = NoneValue | IntValue(n: int) | TermsValue(entries: seq<Entry>)

  /** The parameters of `_request_query` as bound by a call. */
  datatype RequestQueryCall = RequestQueryCall(volumesPaths: Option<Scope>, groupby: ArgValue,
                                               queryTerms: ArgValue, columns: Option<seq<string>>,
                                               asyncAfter: ArgValue)

  datatype CallError = AttributeError   // `int` has no `update`

  function TermsArg(t: Option<seq<Entry>>): ArgValue
  {
    if t.None? then NoneValue else TermsValue(t.value)
  }

  function IntArg(n: Option<int>): ArgValue
  {
    if n.None? then NoneValue else IntValue(n.value)
  }

  /** The call of `_request_query` in `query` as written: its positional arguments put
      `query_terms` in the `groupby` slot and `async_after` in the `query_terms` slot. */
  function PositionalCall(volumesPaths: Option<Scope>, queryTerms: Option<seq<Entry>>,
                          asyncAfter: Option<int>): RequestQueryCall
  {
    RequestQueryCall(volumesPaths, TermsArg(queryTerms), IntArg(asyncAfter), None, IntValue(5))
  }

  /** The binding `query` evidently intends: each argument to the parameter of its name. */
  function KeywordCall(volumesPaths: Option<Scope>, queryTerms: Option<seq<Entry>>,
                       asyncAfter: Option<int>): RequestQueryCall
  {
    RequestQueryCall(volumesPaths, NoneValue, TermsArg(queryTerms), None, IntArg(asyncAfter))
  }

  /** The `type=d` merge at the start of `_request_query`, applied to whatever reached its
      `query_terms` parameter. */
  function MergeTypeTerm(slot: ArgValue): (r: Result<seq<Entry>, CallError>)
    requires slot.TermsValue? ==> DistinctKeys(slot.entries)
    ensures r.Failure? <==> slot.IntValue?
    ensures r.Success? ==> DistinctKeys(r.value) && HasKey(r.value, "type") &&
                           r.value[KeyIndex(r.value, "type")] == ("type", "d")
  {
    if slot.IntValue? then Failure(AttributeError)
    else
      var e := if slot.TermsValue? then slot.entries else [];
      var r := Upsert(e, "type", "d");
      var at := if HasKey(e, "type") then KeyIndex(e, "type") else |e|;
      assert r[at].0 == "type";
      assert HasKey(r, "type");
      assert KeyIndex(r, "type") == at;
      Success(r)
  }

  /** As written, every call of `query` that leaves `async_after` an integer fails in
      `query_terms.update`; with `async_after=None` the caller's terms land in
      `group_by` and the query string holds only `type=d`. */
  lemma PositionalCallLosesTerms(volumesPaths: Option<Scope>, queryTerms: Option<seq<Entry>>, asyncAfter: Option<int>)
    requires queryTerms.Some? ==> DistinctKeys(queryTerms.value)
    ensures var call := PositionalCall(volumesPaths, queryTerms, asyncAfter);
      (asyncAfter.Some? ==> MergeTypeTerm(call.queryTerms) == Failure(AttributeError)) &&
      (asyncAfter.None? ==> MergeTypeTerm(call.queryTerms) == Success([("type", "d")]) &&
                            call.groupby == TermsArg(queryTerms))
  {
    assert Upsert([], "type", "d") == [("type", "d")];
  }

  /** With keyword binding the caller's terms reach the query string, with `type=d`
      merged in, and `async_after` reaches `async_after_sec`. */
  lemma KeywordCallKeepsTerms(volumesPaths: Option<Scope>, queryTerms: Option<seq<Entry>>, asyncAfter: int)
    requires queryTerms.Some? ==> DistinctKeys(queryTerms.value)
    ensures var call := KeywordCall(volumesPaths, queryTerms, Some(asyncAfter));
      var before := if queryTerms.Some? then queryTerms.value else [];
      MergeTypeTerm(call.queryTerms) == Success(Upsert(before, "type", "d")) &&
      ToMap(MergeTypeTerm(call.queryTerms).value) == ToMap(before)["type" := "d"] &&
      call.asyncAfter == IntValue(asyncAfter) && call.groupby == NoneValue
  {
    var call := KeywordCall(volumesPaths, queryTerms, Some(asyncAfter));
    var before := if queryTerms.Some? then queryTerms.value else [];
    assert call.queryTerms == (if queryTerms.Some? then TermsValue(before) else NoneValue);
    assert MergeTypeTerm(call.queryTerms) == Success(Upsert(before, "type", "d"));
    UpsertIsMapUpdate(before, "type", "d");
  }

  class StarfishClient {
    const url: string
    const token: string

    /** The constructor with a token given; obtaining one from the auth endpoint is
        not part of this model. */
    constructor (host: string, token: string)
      ensures url == "https://" + host + "/api/" && this.token == token
    {
      url := "https://" + host + "/api/";
      this.token := token;
    }

    /** `_get_headers`: JSON accept and bearer authorisation, overridden by any
        additional headers given. */
    function Headers(additional: Option<map<string, string>>): (h: map<string, string>)
      ensures var extra := if additional.Some? then additional.value else map[];
        h.Keys == {"Accept", "Authorization"} + extra.Keys &&
        (forall k :: k in extra ==> h[k] == extra[k]) &&
        ("Accept" !in extra ==> h["Accept"] == "application/json") &&
        ("Authorization" !in extra ==> h["Authorization"] == "Bearer " + token)
    {
      var base := map["Accept" := "application/json", "Authorization" := "Bearer " + token];
      if additional.None? then base else base + additional.value
    }

    /** `add_tag`: a bulk, non-strict tag association. */
    function AddTag(volPath: Arg, newTag: Arg): (req: Request)
      ensures req.verb == Post && req.endpoint == "tag/bulk"
      ensures req.body == TagPaths(Normalise(volPath), Normalise(newTag), Some(false))
      ensures req.headers == Headers(Some(map["Content-Type" := "application/vnd.sf.tag.bulk+json"]))
    {
      Request(Post, "tag/bulk", TagPaths(Normalise(volPath), Normalise(newTag), Some(false)),
              Headers(Some(map["Content-Type" := "application/vnd.sf.tag.bulk+json"])))
    }

    /** `rename_tag`. */
    function RenameTag(oldTag: Arg, newTag: Arg): (req: Request)
      ensures req.verb == Post && req.endpoint == "tag/rename"
      ensures req.body == TagRename(Normalise(oldTag), Normalise(newTag))
      ensures req.headers == Headers(Some(map["Content-Type" := "application/vnd.sf.tag.rename+json"]))
    {
      Request(Post, "tag/rename", TagRename(Normalise(oldTag), Normalise(newTag)),
              Headers(Some(map["Content-Type" := "application/vnd.sf.tag.rename+json"])))
    }

    /** `detach_tag`. */
    function DetachTag(volPath: Arg, tag: Arg): (req: Request)
      ensures req.verb == Post && req.endpoint == "tag/detach"
      ensures req.body == TagPaths(Normalise(volPath), Normalise(tag), None)
      ensures req.headers == Headers(Some(map["Content-Type" := "application/vnd.sf.tag.detach+json"]))
    {
      Request(Post, "tag/detach", TagPaths(Normalise(volPath), Normalise(tag), None),
              Headers(Some(map["Content-Type" := "application/vnd.sf.tag.detach+json"])))
    }

    /** `purge_tag`: the arguments are sent as given, without normalisation. */
    function PurgeTag(volPath: Arg, tag: Arg): (req: Request)
      ensures req.verb == Post && req.endpoint == "tag/purge"
      ensures req.body == TagPurge(volPath, tag)
      ensures req.headers == Headers(Some(map["Content-Type" := "application/vnd.sf.tag.purge+json"]))
    {
      Request(Post, "tag/purge", TagPurge(volPath, tag),
              Headers(Some(map["Content-Type" := "application/vnd.sf.tag.purge+json"])))
    }

    /** Add, rename and detach send the same request for a scalar and for the one-element
        list holding it; purge does not. */
    lemma TagScalarEqualsSingleton(p: string, t: string)
      ensures AddTag(Scalar(p), Scalar(t)) == AddTag(ListArg([p]), ListArg([t]))
      ensures RenameTag(Scalar(p), Scalar(t)) == RenameTag(ListArg([p]), ListArg([t]))
      ensures DetachTag(Scalar(p), Scalar(t)) == DetachTag(ListArg([p]), ListArg([t]))
      ensures PurgeTag(Scalar(p), Scalar(t)) != PurgeTag(ListArg([p]), ListArg([t]))
      ensures AddTag(Scalar(p), Scalar(t)).body.paths == [p] && AddTag(Scalar(p), Scalar(t)).body.tags == [t]
    {
    }

    /** `get_volumes`: the volumes whose name is not excluded, in the service's order. */
    static function GetVolumes(volumes: seq<Volume>, excludeVols: seq<string>): (r: seq<Volume>)
      ensures forall v :: v in r <==> v in volumes && v.vol !in excludeVols
      ensures Seqs.Subseq(r, volumes) && |r| <= |volumes|
      ensures forall v :: multiset(r)[v] == if v.vol !in excludeVols then multiset(volumes)[v] else 0
    {
      Seqs.FilterCounts(volumes, (v: Volume) => v.vol !in excludeVols);
      Seqs.Filter(volumes, (v: Volume) => v.vol !in excludeVols)
    }

    /** `get_volume_names`. */
    static function GetVolumeNames(volumes: seq<Volume>, excludeVols: seq<string>): (r: seq<string>)
      ensures |r| == |GetVolumes(volumes, excludeVols)|
      ensures forall i :: 0 <= i < |r| ==> r[i] == GetVolumes(volumes, excludeVols)[i].vol
    {
      var kept := GetVolumes(volumes, excludeVols);
      seq(|kept|, i requires 0 <= i < |kept| => kept[i].vol)
    }

    /** The names returned are exactly the names of the volumes not excluded. */
    static lemma VolumeNamesExact(volumes: seq<Volume>, excludeVols: seq<string>)
      ensures forall n :: n in GetVolumeNames(volumes, excludeVols) <==>
        (n !in excludeVols && exists v :: v in volumes && v.vol == n)
    {
      var names := GetVolumeNames(volumes, excludeVols);
      var kept := GetVolumes(volumes, excludeVols);
      forall n ensures n in names <==> (n !in excludeVols && exists v :: v in volumes && v.vol == n) {
        if n in names {
          var i :| 0 <= i < |names| && names[i] == n;
          assert kept[i] in kept;
        }
        if n !in excludeVols && exists v :: v in volumes && v.vol == n {
          var v :| v in volumes && v.vol == n;
          assert v in kept;
          var i :| 0 <= i < |kept| && kept[i] == v;
          assert names[i] == n;
        }
      }
    }

    /** `get_zones`' endpoint: all zones for the empty id, one zone otherwise. */
    static function ZonesEndpoint(zoneId: string): (e: string)
      ensures e == "zone" <==> zoneId == ""
      ensures zoneId != "" ==> Seqs.StartsWith(e, "zone/") && e[5..] == zoneId
    {
      if zoneId == "" then "zone" else "zone/" + zoneId
    }

    /** Distinct ids address distinct endpoints. */
    static lemma ZonesEndpointInjective(a: string, b: string)
      requires ZonesEndpoint(a) == ZonesEndpoint(b)
      ensures a == b
    {
      if a != "" && b != "" {
        assert ZonesEndpoint(a)[5..] == a;
      }
    }

    /** `get_zone_by_name`: the first zone with that name, or None. */
    static function GetZoneByName(zones: seq<Zone>, name: string): (r: Option<Zone>)
      ensures r.None? <==> forall z :: z in zones ==> z.name != name
      ensures r.Some? ==> exists i :: 0 <= i < |zones| && zones[i] == r.value && r.value.name == name &&
                                      forall j :: 0 <= j < i ==> zones[j].name != name
    {
      if zones == [] then None
      else if zones[0].name == name then Some(zones[0])
      else
        var r := GetZoneByName(zones[1..], name);
        assert forall z :: z in zones ==> z == zones[0] || z in zones[1..];
        if r.Some? then
          var i :| 0 <= i < |zones[1..]| && zones[1..][i] == r.value && r.value.name == name &&
                   forall j :: 0 <= j < i ==> zones[1..][j].name != name;
          assert zones[i + 1] == r.value;
          assert forall j :: 1 <= j < i + 1 ==> zones[j].name != name by {
            forall j | 1 <= j < i + 1 ensures zones[j].name != name { assert zones[j] == zones[1..][j - 1]; }
          }
          r
        else r
    }

    /** `delete_zone`, with `zones` the reply of `get_zones` used for a lookup by name.
        As written, a name that matches no zone reaches `zone['id']` on None. */
    function DeleteZone(zoneId: Option<string>, zoneName: Option<string>, zones: seq<Zone>): (r: Result<Request, ZoneError>)
      ensures r == Failure(MissingIdentifier) <==> !Truthy(zoneId) && !Truthy(zoneName)
      ensures Truthy(zoneId) ==> r == Success(Request(Delete, "zone/" + zoneId.value, NoBody, Headers(None)))
      ensures r == Failure(NoneNotSubscriptable) <==>
        !Truthy(zoneId) && Truthy(zoneName) && forall z :: z in zones ==> z.name != zoneName.value
      ensures r.Success? ==> r.value.verb == Delete && r.value.body == NoBody && r.value.endpoint != "zone"
      ensures !Truthy(zoneId) && Truthy(zoneName) && GetZoneByName(zones, zoneName.value).Some? ==>
        var z := GetZoneByName(zones, zoneName.value).value;
        (z.id == "" ==> r == Failure(ZoneNotFound(zoneName.value))) &&
        (z.id != "" ==> r == Success(Request(Delete, "zone/" + z.id, NoBody, Headers(None))))
      ensures r.Success? && !Truthy(zoneId) ==>
        exists z :: z in zones && z.name == zoneName.value && z.id != "" && r.value.endpoint == "zone/" + z.id
    {
      if Truthy(zoneId) then Success(Request(Delete, "zone/" + zoneId.value, NoBody, Headers(None)))
      else if !Truthy(zoneName) then Failure(MissingIdentifier)
      else
        match GetZoneByName(zones, zoneName.value)
        case None => Failure(NoneNotSubscriptable)
        case Some(z) =>
          if z.id == "" then Failure(ZoneNotFound(zoneName.value))
          else Success(Request(Delete, "zone/" + z.id, NoBody, Headers(None)))
    }

    /** The discrepancy: deleting by a name that no zone has raises the TypeError of
        indexing None, not the "not found" ValueError the code spells out. */
    lemma DeleteUnknownZoneIsTypeError(name: string)
      requires name != ""
      ensures DeleteZone(None, Some(name), []) == Failure(NoneNotSubscriptable)
    {
    }

    /** `delete_zone` as evidently intended: a failed lookup is reported as "not found". */
    function DeleteZoneIntended(zoneId: Option<string>, zoneName: Option<string>, zones: seq<Zone>): (r: Result<Request, ZoneError>)
      ensures r == Failure(MissingIdentifier) <==> !Truthy(zoneId) && !Truthy(zoneName)
      ensures Truthy(zoneId) ==> r == Success(Request(Delete, "zone/" + zoneId.value, NoBody, Headers(None)))
      ensures r != Failure(NoneNotSubscriptable)
      ensures !Truthy(zoneId) && Truthy(zoneName) ==>
        (r == Failure(ZoneNotFound(zoneName.value)) <==>
          forall z :: z in zones && z.name == zoneName.value ==> GetZoneByName(zones, zoneName.value) == Some(z) ==> z.id == "")
      ensures !Truthy(zoneId) && Truthy(zoneName) && GetZoneByName(zones, zoneName.value).Some? ==>
        var z := GetZoneByName(zones, zoneName.value).value;
        (z.id == "" ==> r == Failure(ZoneNotFound(zoneName.value))) &&
        (z.id != "" ==> r == Success(Request(Delete, "zone/" + z.id, NoBody, Headers(None))))
      ensures r.Success? && !Truthy(zoneId) ==>
        exists z :: z in zones && z.name == zoneName.value && z.id != "" && r.value.endpoint == "zone/" + z.id
    {
      if Truthy(zoneId) then Success(Request(Delete, "zone/" + zoneId.value, NoBody, Headers(None)))
      else if !Truthy(zoneName) then Failure(MissingIdentifier)
      else
        match GetZoneByName(zones, zoneName.value)
        case None => Failure(ZoneNotFound(zoneName.value))
        case Some(z) =>
          if z.id == "" then Failure(ZoneNotFound(zoneName.value))
          else Success(Request(Delete, "zone/" + z.id, NoBody, Headers(None)))
    }

    /** `update_zone`: name and id always come from the zone; each list is the argument
        when it is non-empty and the zone's current value otherwise. */
    function UpdateZone(zone: Zone, paths: seq<string>, managers: seq<string>, managingGroups: seq<string>): (req: Request)
      ensures req.verb == Put && req.endpoint == "zone/" + zone.id + "/" && req.headers == Headers(None)
      ensures req.body.ZoneFields? && req.body.name == zone.name
      ensures req.body.paths == (if paths != [] then paths else zone.paths)
      ensures req.body.managers == (if managers != [] then managers else zone.managers)
      ensures req.body.managingGroups == (if managingGroups != [] then managingGroups else zone.managingGroups)
    {
      var body := ZoneFields(zone.name,
                             if paths != [] then paths else zone.paths,
                             if managers != [] then managers else zone.managers,
                             if managingGroups != [] then managingGroups else zone.managingGroups);
      Request(Put, "zone/" + zone.id + "/", body, Headers(None))
    }

    /** The zone as it stands after an update request has been applied. */
    static function Applied(zone: Zone, body: Body): Zone
      requires body.ZoneFields?
    {
      Zone(zone.id, body.name, body.paths, body.managers, body.managingGroups)
    }

    /** An update with no lists re-sends the zone unchanged, and repeating an update on
        the updated zone sends the same body again. */
    lemma UpdateZoneStable(zone: Zone, paths: seq<string>, managers: seq<string>, managingGroups: seq<string>)
      ensures Applied(zone, UpdateZone(zone, [], [], []).body) == zone
      ensures var b := UpdateZone(zone, paths, managers, managingGroups).body;
        UpdateZone(Applied(zone, b), paths, managers, managingGroups).body == b
    {
    }

    /** `get_scans`' endpoint: all scans when no list is given, otherwise a `volume=` parameter
        per volume joined by `&`; the test is `is not None`, so an empty list gives a bare `scan/?`. */
    static function ScansEndpoint(volumes: Option<seq<string>>): (e: string)
      ensures volumes.None? ==> e == "scan"
      ensures volumes.Some? ==> Seqs.StartsWith(e, "scan/?")
      ensures volumes.Some? && volumes.value == [] ==> e == "scan/?"
    {
      if volumes.None? then "scan"
      else "scan/?" + Seqs.Join('&', seq(|volumes.value|, i requires 0 <= i < |volumes.value| => "volume=" + volumes.value[i]))
    }

    /** The query string of a scans endpoint splits back into one `volume=` parameter per
        volume, in order, when no volume name holds an `&`. */
    static lemma ScansEndpointParses(volumes: seq<string>)
      requires |volumes| >= 1
      requires forall v :: v in volumes ==> '&' !in v
      ensures var e := ScansEndpoint(Some(volumes));
        var params := Seqs.Split('&', e[6..]);
        |params| == |volumes| && forall i :: 0 <= i < |volumes| ==> params[i] == "volume=" + volumes[i]
    {
      var parts := seq(|volumes|, i requires 0 <= i < |volumes| => "volume=" + volumes[i]);
      forall p | p in parts ensures '&' !in p {
        var i :| 0 <= i < |parts| && parts[i] == p;
        assert volumes[i] in volumes;
        assert p == "volume=" + volumes[i];
      }
      Seqs.SplitJoin('&', parts);
      var e := ScansEndpoint(Some(volumes));
      assert e == "scan/?" + Seqs.Join('&', parts);
      assert e[6..] == Seqs.Join('&', parts);
    }

    /** `_request_query`: merges `type=d` into the caller's terms (in place when the
        caller passed a dict), serialises them, posts the body and classifies the reply. */
    method RequestQuery(volumesPaths: Option<Scope>, groupby: Option<string>, queryTerms: TermsDict?,
                        columns: Option<seq<string>>, asyncAfter: int, reply: HttpReply)
      returns (sent: Request, response: Result<Option<QueryResponse>, QueryError>)
      requires queryTerms != null ==> queryTerms.Valid()
      modifies queryTerms
      ensures queryTerms != null ==>
        queryTerms.Valid() && queryTerms.entries == Upsert(old(queryTerms.entries), "type", "d")
      ensures var before := if queryTerms == null then [] else old(queryTerms.entries);
        sent == Request(Post, "async/query/",
                        QuerySubmit(SubmitBody(Upsert(before, "type", "d"), volumesPaths, groupby, columns, asyncAfter)),
                        Headers(None))
      ensures response == ClassifyReply(reply)
    {
      var terms := queryTerms;
      if terms == null {
        terms := new TermsDict([]);
      }
      terms.Update("type", "d");
      var query: seq<string> := [];
      var i := 0;
      while i < |terms.entries|
        invariant 0 <= i <= |terms.entries|
        invariant query == Tokens(terms.entries[..i])
      {
        assert Tokens(terms.entries[..i + 1]) == Tokens(terms.entries[..i]) + [Token(terms.entries[i])];
        query := query + [Token(terms.entries[i])];
        i := i + 1;
      }
      assert terms.entries[..i] == terms.entries;
      var body := QueryBody(
        queries := [Seqs.Join(' ', query)],
        limit := 100000,
        sortBy := groupby,
        groupBy := groupby,
        asyncAfterSec := asyncAfter,
        format := if columns.Some? then Seqs.Join(' ', columns.value) else "",
        forceTagInherit := "false",
        outputFormat := "json",
        delimiter := ",",
        escapePaths := "false",
        printHeaders := "true",
        sizeUnit := "B",
        humanizeNested := "false",
        mountAgent := "None",
        volumesAndPaths := volumesPaths);
      sent := Request(Post, "async/query/", QuerySubmit(body), Headers(None));
      response := ClassifyReply(reply);
    }

    /** The body of `query` after its call of `_request_query`: deliver an immediate result, or poll the service up to
        `len(range(poll_interval, timeout, poll_interval))` times and download once. */
    method Query(response: Option<QueryResponse>, wait: bool, pollInterval: int, timeout: int, server: AsyncServer)
      returns (result: Result<Json, QueryError>)
      modifies server
      ensures var o := QuerySpec(response, wait, pollInterval, timeout, old(server.pending), server.payload);
        result == o.result &&
        server.statusChecks == old(server.statusChecks) + o.statusChecks &&
        server.downloads == old(server.downloads) + o.downloads &&
        server.pending == Drop(old(server.pending), o.statusChecks)
    {
      if response.None? {
        return Failure(NotSubscriptable);
      }
      var resp := response.value;
      if !wait || resp.complete {
        var syncResult := resp.results;
        if IsErrorPayload(syncResult) {
          return Failure(ResultError(syncResult));
        }
        return Success(syncResult);
      }
      var queryId := resp.queryId;
      if pollInterval == 0 {
        return Failure(ZeroStep);
      }
      var ticks := RangeSeq(pollInterval, timeout, pollInterval);
      ghost var answers := server.pending;
      for i := 0 to |ticks|
        invariant server.statusChecks == old(server.statusChecks) + i
        invariant server.downloads == old(server.downloads)
        invariant server.pending == Drop(answers, i)
        invariant forall j :: 0 <= j < i ==> !StatusAt(answers, j)
        invariant i > 0 ==> pollInterval > 0
      {
        if pollInterval < 0 {
          return Failure(NegativeSleep);
        }
        var done := server.StatusQuery(queryId);
        assert done == StatusAt(answers, i);
        if done {
          assert FirstDone(answers, |ticks|) == Some(i);
          var queryResult := server.DownloadQueryResult(queryId);
          if IsErrorPayload(queryResult) {
            return Failure(ResultError(queryResult));
          }
          return Success(queryResult);
        }
      }
      return Failure(Timeout(queryId, timeout));
    }

    /** `query` with `_request_query` called by keyword, as evidently intended: the
        caller's terms reach the query string and `async_after` reaches the body. */
    method QueryCorrected(volumesPaths: Option<Scope>, queryTerms: TermsDict?, asyncAfter: int, wait: bool,
                          pollInterval: int, timeout: int, reply: HttpReply, server: AsyncServer)
      returns (sent: Request, result: Result<Json, QueryError>)
      requires queryTerms != null ==> queryTerms.Valid()
      modifies queryTerms, server
      ensures queryTerms != null ==>
        queryTerms.Valid() && queryTerms.entries == Upsert(old(queryTerms.entries), "type", "d")
      ensures var before := if queryTerms == null then [] else old(queryTerms.entries);
        sent == Request(Post, "async/query/",
                        QuerySubmit(SubmitBody(Upsert(before, "type", "d"), volumesPaths, None, None, asyncAfter)),
                        Headers(None))
      ensures ClassifyReply(reply).Failure? ==>
        result == Failure(ClassifyReply(reply).error) && server.statusChecks == old(server.statusChecks) &&
        server.downloads == old(server.downloads) && server.pending == old(server.pending)
      ensures ClassifyReply(reply).Success? ==>
        var o := QuerySpec(ClassifyReply(reply).value, wait, pollInterval, timeout, old(server.pending), server.payload);
        result == o.result &&
        server.statusChecks == old(server.statusChecks) + o.statusChecks &&
        server.downloads == old(server.downloads) + o.downloads &&
        server.pending == Drop(old(server.pending), o.statusChecks)
    {
      var response;
      sent, response := RequestQuery(volumesPaths, None, queryTerms, None, asyncAfter, reply);
      if response.Failure? {
        return sent, Failure(response.error);
      }
      result := Query(response.value, wait, pollInterval, timeout, server);
    }
  }
}
