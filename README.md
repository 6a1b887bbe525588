# Starfish API client: a verified model of its core

The Starfish API client is a small Python wrapper around the REST API of the Starfish
storage-indexing service. This project models the parts of it that hold logic rather than
transport:

- the asynchronous query protocol. `_request_query` merges `type=d` into the caller's
  query terms, serialises them and builds the request body, then classifies the reply.
  `query` hands back an immediate result, or polls the job's status a bounded number of
  times and downloads the result once;
- argument shaping in the tag calls (`add_tag`, `rename_tag`, `detach_tag`, `purge_tag`),
  the zone operations (`get_zone_by_name`, `delete_zone`, `update_zone`), volume filtering,
  the `get_zones` and `get_scans` endpoint strings, and header construction;
- `get_most_recent_scans`, which narrows a scan listing to each volume's latest scan plus,
  when that scan is running or successful, the last completed one;
- the reporting-tag policy of `StarfishTagger`. It picks result rows without the
  `Reporting:` tag, keeps the names its inclusion rule selects, and tags each of them.

The service is an oracle. An HTTP reply is an input (`HttpReply`: status, JSON body and
headers), and a request is a value (`Request`: verb, endpoint, body and headers). The job
poller is an `AsyncServer` object that holds the sequence of answers its status endpoint
will give and the payload its download endpoint returns. It counts the status checks and
downloads made against it.

Modules, one per concern:

| file | module | contents |
|---|---|---|
| `wrappers.dfy` | `Wrappers` | `Option` and `Result` |
| `seqs.dfy` | `Seqs` | `join`, `split`, `startswith` and filtering comprehensions |
| `json.dfy` | `Json` | JSON values and the "error mapping" test |
| `query_terms.dfy` | `QueryTerms` | the query-terms dict: insertion order, `update`, `k=v` serialisation; the `TermsDict` class |
| `async_query.dfy` | `AsyncQuery` | reply record, protocol errors, `range`, the polling specification `QuerySpec`, the `AsyncServer` oracle |
| `starfish_api_client.dfy` | `StarfishApiClient` | the `StarfishClient` class and the pure helpers around it |
| `utils.dfy` | `Utils` | `get_most_recent_scans` |
| `add_reporting_tags.dfy` | `AddReportingTags` | the `StarfishTagger` class and its two filters |

Python exceptions are modelled as `Failure` values that name the exception's cause
(`QueryError`, `ZoneError`, `ScanError`, `CallError` for the `AttributeError` that the
positional call in `query` runs into, and the missing key for a `KeyError`).

The query body's `limit` is 100000, as `_request_query` sends it. The query path is sent
without percent-encoding because that line of `request_query` is commented out.

## Model

| member | source | states |
|---|---|---|
| QueryTerms.Upsert | starfish_api_client/starfish_api_client.py:229-231 | `dict.update` with one key: keys stay distinct; an existing key keeps its position and takes the new value while every other entry is unchanged; a new key is appended last |
| QueryTerms.UpsertSameKey | starfish_api_client/starfish_api_client.py:229-231 | after the update, the updated key is present and maps to the new value |
| QueryTerms.UpsertOtherKey | starfish_api_client/starfish_api_client.py:229-231 | after the update, any other key is present exactly when it was before and maps to the same value |
| QueryTerms.UpsertIsMapUpdate | starfish_api_client/starfish_api_client.py:229-231 | seen as a map, the ordered update is exactly the map update `m[k := v]` |
| QueryTerms.Tokens | starfish_api_client/starfish_api_client.py:232-234 | one `k=v` token per dict entry |
| QueryTerms.TypeTermUnique | starfish_api_client/starfish_api_client.py:226-234 | after merging `type=d`, the terms map `type` to `d`, and the only `type` token is `type=d`: at the key's earlier position if it was present, otherwise last |
| QueryTerms.TermsDict.constructor | starfish_api_client/starfish_api_client.py:226-227 | a dict object holding the given distinct-key entries |
| QueryTerms.TermsDict.Update | starfish_api_client/starfish_api_client.py:229-231 | updates the caller's dict object in place; its new entries are `Upsert` of the old ones, keys still distinct |
| StarfishApiClient.MergeTypeTerm | starfish_api_client/starfish_api_client.py:226-231 | whatever reaches the `query_terms` parameter: an integer fails with `AttributeError`; a dict or None yields distinct-key terms whose `type` entry is `("type", "d")` |
| StarfishApiClient.SubmitBody | starfish_api_client/starfish_api_client.py:236-252 | the body holds one query string, the serialised terms, and `limit` 100000; `format` is empty without columns and the space-joined columns otherwise; `volumes_and_paths` is present iff given; `sort_by` and `group_by` are `groupby`; `async_after_sec` is `async_after` |
| StarfishApiClient.ClassifyReply | starfish_api_client/starfish_api_client.py:254-263 | it fails exactly on a 4xx/5xx status, with `HttpError` of that status, or on a 202 without a string `query_id`, with `MalformedReply`; 200 is complete with the body as results and `query_id` taken from `SF-Query-Id` exactly when that header is present; 202 is incomplete with null results and the body's `query_id`, any other status yields nothing |
| StarfishApiClient.StarfishClient.RequestQuery | starfish_api_client/starfish_api_client.py:223-263 | builds the query tokens in a loop; the caller's dict (if any) is updated in place with `type=d`; the request sent is a POST to `async/query/` of the body over the merged terms; the response is the classified reply |
| StarfishApiClient.PositionalCallLosesTerms | starfish_api_client/starfish_api_client.py:125 | as written, the positional call fails in `update` whenever `async_after` is an integer; with `async_after=None` the caller's terms land in `group_by` and the query string holds only `type=d` |
| StarfishApiClient.KeywordCallKeepsTerms | starfish_api_client/starfish_api_client.py:120-125 | bound by keyword, the caller's terms reach `query_terms` with `type=d` merged in (a map update), `async_after` reaches `async_after_sec`, and `groupby` stays None |
| AsyncQuery.RangeSeqLength | starfish_api_client/starfish_api_client.py:132 | `len(range(start, stop, step))` for a positive step is `(stop - start + step - 1) / step` when `start < stop`, else 0 |
| AsyncQuery.DefaultPollBudget | starfish_api_client/starfish_api_client.py:120-132 | with the default interval 5 and timeout 300, the status endpoint is polled at most 59 times |
| AsyncQuery.FirstDone | starfish_api_client/starfish_api_client.py:132-135 | the index of the first status check that reports done within the budget, or none when no check within it does |
| AsyncQuery.Deliver | starfish_api_client/starfish_api_client.py:128-130 | a result that is a mapping with an `error` key raises `ValueError` naming it; anything else is returned unchanged |
| AsyncQuery.ErrorPayloadNeverReturned | starfish_api_client/starfish_api_client.py:126-138 | `query` never returns an error mapping, on the immediate or the polled path; what it returns is the immediate results or the downloaded payload |
| AsyncQuery.PollingBudget | starfish_api_client/starfish_api_client.py:131-138 | polling makes at most `len(range(interval, timeout, interval))` status checks and at most one download; it downloads iff a check within the budget reports done, and then right after the first such check |
| AsyncQuery.TimeoutNamesQuery | starfish_api_client/starfish_api_client.py:132-139 | with no completed check in the budget, every check is made, nothing is downloaded, and the `TimeoutError` names the query id and the timeout |
| AsyncQuery.PollingExample | starfish_api_client/starfish_api_client.py:131-139 | answers `[False, False, True]` at interval 5: a timeout of 16 gives the payload after 3 checks and 1 download; a timeout of 15 times out after 2 checks |
| AsyncQuery.AsyncServer.constructor | starfish_api_client/starfish_api_client.py:141-157 | a service with the given status answers and result payload, and no calls counted yet |
| AsyncQuery.AsyncServer.StatusQuery | starfish_api_client/starfish_api_client.py:141-148 | answers the next status from the oracle (not done once the answers run out), consumes it, and counts one status check |
| AsyncQuery.AsyncServer.DownloadQueryResult | starfish_api_client/starfish_api_client.py:150-157 | returns the payload and counts one download; the status answers are untouched |
| StarfishApiClient.StarfishClient.Query | starfish_api_client/starfish_api_client.py:126-139 | the polling loop's result and its status-check and download counts are exactly those of `QuerySpec`, on which the lemmas above hold; the service has consumed exactly the status answers that were checked |
| StarfishApiClient.StarfishClient.QueryCorrected | starfish_api_client/starfish_api_client.py:120-139 | `query` with keyword binding: the caller's dict (if any) is updated in place with `type=d`; the request sent is exactly the POST to `async/query/` whose body `SubmitBody` builds from those terms, `volumes_and_paths`, no `group_by`, no `sort_by` and `async_after`, with the default headers; a failed reply fails with its error and leaves the service untouched; otherwise the outcome, call counts and consumed status answers are those of `QuerySpec` |
| StarfishApiClient.StarfishClient.constructor | starfish_api_client/starfish_api_client.py:10-12 | the base URL is `https://<host>/api/` and the token is the one given |
| StarfishApiClient.StarfishClient.Headers | starfish_api_client/starfish_api_client.py:265-272 | the headers are `Accept: application/json` and `Authorization: Bearer <token>`, plus any additional headers, which win on a clash |
| StarfishApiClient.NormaliseScalarAsList | starfish_api_client/starfish_api_client.py:177-180 | a non-list argument becomes a one-element list; normalising a list leaves it unchanged, so normalising is idempotent |
| StarfishApiClient.StarfishClient.AddTag | starfish_api_client/starfish_api_client.py:173-183 | a POST to `tag/bulk` with normalised `paths` and `tags`, `strict` false, and content type `application/vnd.sf.tag.bulk+json` |
| StarfishApiClient.StarfishClient.RenameTag | starfish_api_client/starfish_api_client.py:185-195 | a POST to `tag/rename` with normalised `tag` and `new_tag` and the rename content type |
| StarfishApiClient.StarfishClient.DetachTag | starfish_api_client/starfish_api_client.py:197-204 | a POST to `tag/detach` with normalised `paths` and `tags`, no `strict`, and the detach content type |
| StarfishApiClient.StarfishClient.PurgeTag | starfish_api_client/starfish_api_client.py:206-209 | a POST to `tag/purge` that sends its arguments as given, unnormalised, with the purge content type |
| StarfishApiClient.StarfishClient.TagScalarEqualsSingleton | starfish_api_client/starfish_api_client.py:173-209 | for add, rename and detach, a scalar and the one-element list holding it give identical requests; for purge they do not |
| StarfishApiClient.StarfishClient.GetVolumes | starfish_api_client/starfish_api_client.py:29-31 | keeps exactly the volumes whose name is not excluded, in their original order, each as often as it occurs |
| StarfishApiClient.StarfishClient.GetVolumeNames | starfish_api_client/starfish_api_client.py:36-42 | the names of the kept volumes, position by position |
| StarfishApiClient.StarfishClient.VolumeNamesExact | starfish_api_client/starfish_api_client.py:29-42 | a name is returned iff some volume has it and it is not excluded |
| StarfishApiClient.StarfishClient.ZonesEndpoint | starfish_api_client/starfish_api_client.py:67 | `zone` exactly for the empty id, otherwise `zone/` followed by the id |
| StarfishApiClient.StarfishClient.ZonesEndpointInjective | starfish_api_client/starfish_api_client.py:64-68 | different zone ids give different endpoints |
| StarfishApiClient.StarfishClient.GetZoneByName | starfish_api_client/starfish_api_client.py:70-73 | None iff no zone has the name; otherwise the first zone in the listing with that name |
| StarfishApiClient.StarfishClient.DeleteZone | starfish_api_client/starfish_api_client.py:87-96 | a truthy id deletes `zone/<id>`; neither id nor name raises `ValueError`; a name no zone has fails by indexing None; otherwise the first zone of that name decides: an empty id is "not found", any other id deletes `zone/<that id>` |
| StarfishApiClient.StarfishClient.DeleteUnknownZoneIsTypeError | starfish_api_client/starfish_api_client.py:92-95 | deleting by a name that matches no zone raises the `TypeError` of `None['id']`, never the "not found" error |
| StarfishApiClient.StarfishClient.DeleteZoneIntended | starfish_api_client/starfish_api_client.py:87-96 | as `delete_zone` but a failed lookup is "not found": it never indexes None; it fails with "not found" exactly when the first zone of that name is missing or has an empty id, and otherwise deletes `zone/<that zone's id>` |
| StarfishApiClient.StarfishClient.UpdateZone | starfish_api_client/starfish_api_client.py:98-106 | a PUT to `zone/<id>/` that keeps the zone's name; each of paths, managers and managing groups is the argument when non-empty, else the zone's current value |
| StarfishApiClient.StarfishClient.UpdateZoneStable | starfish_api_client/starfish_api_client.py:98-106 | an update with empty arguments leaves the zone unchanged, and repeating an update on its own result sends the same body |
| StarfishApiClient.StarfishClient.ScansEndpoint | starfish_api_client/starfish_api_client.py:217-219 | `scan` when `volumes` is None; otherwise `scan/?` followed by the `&`-joined `volume=` parameters, so an empty list gives `scan/?` |
| StarfishApiClient.StarfishClient.ScansEndpointParses | starfish_api_client/starfish_api_client.py:217-219 | for at least one volume, none of whose names holds `&`, the query string splits on `&` into one `volume=<v>` parameter per volume, in order |
| Utils.MaxTime | starfish_api_client/utils.py:25-28 | the largest `creation_time` among a volume's scans (completed scans only, for the second `max`), or none when there are none |
| Utils.FirstAt | starfish_api_client/utils.py:29-32 | the first scan in input order of that volume with that `creation_time` |
| Utils.LatestScan | starfish_api_client/utils.py:25-33 | a scan of the volume from the input whose `creation_time` is the volume's maximum |
| Utils.LatestScanFirstAmongTies | starfish_api_client/utils.py:25-32 | among scans tied at the maximum, the latest scan is the first in input order |
| Utils.LastCompletedScan | starfish_api_client/utils.py:35-44 | the first scan of the volume in input order whose `creation_time` is the maximum over its non-running successful scans; its own state is not checked |
| Utils.Narrowed | starfish_api_client/utils.py:25-45 | the records for one volume: the latest scan, then, iff it is running or successful, the last-completed record; all are input scans of that volume |
| Utils.GetMostRecentScans | starfish_api_client/utils.py:16-46 | succeeds iff every volume can be narrowed; the output is the concatenation of the per-volume records over some enumeration of the distinct volumes, which has one entry per volume; a failure names a volume whose second `max` would be empty |
| Utils.EnumeratesCard | starfish_api_client/utils.py:23-24 | a loop over the volume set visits as many volumes as the set has |
| Utils.LatestScanInOutput | starfish_api_client/utils.py:23-33 | each volume's latest scan appears in the output |
| Utils.OutputLengthBounds | starfish_api_client/utils.py:24-45 | the output has between one and two records per enumerated volume, so, with `GetMostRecentScans`, between the number of volumes and twice that |
| Utils.OutputFromInput | starfish_api_client/utils.py:29-44 | every output record is an input scan |
| Utils.CompletedLatestTwice | starfish_api_client/utils.py:25-45 | when the latest scan is successful and not running, it appears twice |
| Utils.NoCompletedFails | starfish_api_client/utils.py:34-39 | when the latest scan is running or successful but no scan of the volume completed, narrowing fails |
| Utils.SecondRecordMayBeRunning | starfish_api_client/utils.py:40-44 | the second lookup does not re-check the state: a running scan tied in time with the last completed one is returned twice |
| AddReportingTags.UntaggedFilenames | starfish_api_client/add_reporting_tags.py:19-21 | succeeds iff every row has `tags_explicit` and every untagged row has the attribute; a failure names the key the first bad row lacks: `tags_explicit` if it has no tag list, else the attribute |
| AddReportingTags.FirstBadRow | starfish_api_client/add_reporting_tags.py:21 | the first row, in order, at which the comprehension raises `KeyError` |
| AddReportingTags.UntaggedFilenamesSelects | starfish_api_client/add_reporting_tags.py:21 | the names are the attribute values of the rows whose tag list lacks the exact string `Reporting:`, one per such row, in row order; there are no more names than rows |
| AddReportingTags.FilterFilenames | starfish_api_client/add_reporting_tags.py:23-25 | keeps exactly the names that start with `.` or `systemd`, equal `mmfs`, or are in the list, as an order-preserving subsequence, each kept name as often as it occurs |
| AddReportingTags.FilterFilenamesIdempotent | starfish_api_client/add_reporting_tags.py:25 | filtering the filtered list changes nothing |
| AddReportingTags.Plan | starfish_api_client/add_reporting_tags.py:13-14 | the names to tag are the untagged names the inclusion rule keeps, in order and with their multiplicities; it fails iff the untagged selection fails, and then with the same missing key |
| AddReportingTags.StarfishTagger.constructor | starfish_api_client/add_reporting_tags.py:8-9 | a tagger over the given client, with no tag requests sent yet |
| AddReportingTags.StarfishTagger.TagRequests | starfish_api_client/add_reporting_tags.py:17 | one `add_tag` request per name |
| AddReportingTags.StarfishTagger.TagRequestShape | starfish_api_client/add_reporting_tags.py:17 | each request is a bulk tag POST of the single path `<volume>:<name>` with the single tag `Reporting:<name>`, non-strict |
| AddReportingTags.StarfishTagger.SendTags | starfish_api_client/add_reporting_tags.py:15-17 | the loop appends exactly one tag request per name, in order, to the log |
| AddReportingTags.StarfishTagger.AddReportingTags | starfish_api_client/add_reporting_tags.py:11-17 | appends exactly one tag request per selected name, in order, to the log; a missing key fails and sends nothing |
| AddReportingTags.StarfishTagger.NoCallsExample | starfish_api_client/add_reporting_tags.py:11-25 | rows `a` (untagged) and `b` (tagged `Reporting:b`) both count as untagged, yet nothing is tagged because neither name is selected |
| AddReportingTags.StarfishTagger.HiddenNameExample | starfish_api_client/add_reporting_tags.py:11-25 | an untagged row `.hidden` yields one request, tagging `vol:.hidden` with `Reporting:.hidden` |

## Left out

- HTTP transport (`requests` calls, `.json()` decoding, URL joining with `os.path.join`): a reply is an input and a request is a value. `raise_for_status` appears only as the 4xx/5xx failure in `ClassifyReply`.
- `get_auth_token`, and the constructor path that fetches a token when none is given: a network call.
- Thin transport wrappers with no logic of their own: each builds one request or forwards to `query`.
  - The GET wrappers `get_groups`, `get_vol_membership`, `get_vol_user_name_ids`, `get_starfish_groups`, `get_tags` and `get_volume_attributes`.
  - `create_zone`, a POST to `zone` of the four given fields.
  - `delete_query_result`, a DELETE of `async/query_result/<id>` that returns `True`.
  - The query helpers `request_volumes_query`, `request_subfolder_query` and `request_query`, which forward to `query`.
- `time.sleep` and wall-clock time: polling is counted in iterations. A negative interval is modelled as the `ValueError` that `sleep` raises.
- The `record_process` logging decorator and all logging: it returns the wrapped function's result unchanged.
- The unused `cols` list in `query`.
- The redash client module: a streamed file download with no logic.
- `subfolder_size_query`, which the tagger calls but the client does not define: the tagger takes the query's result rows as an input. The tagger's `path` argument only feeds that call, so it is not a parameter of `AddReportingTags`.
- Percent-encoding of query paths: the code has it commented out.
- StarfishApiClient.StarfishClient.Query: takes the classified reply as input instead of calling `_request_query` itself, because the call as written passes its arguments to the wrong parameters (see Findings). Both bindings are modelled separately.
- AddReportingTags.StarfishTagger.SendTags: every request is logged as sent. In the code an `add_tag` that raises stops the loop partway, and the tags already added stay in place.
- StarfishApiClient.ClassifyReply: a 202 body whose `query_id` is missing or not a string is one `MalformedReply` error. The code would raise a `KeyError` or pass the non-string through.
- QueryTerms.Upsert: term values are held as their rendered `str()` form, so `{'depth': 1}` is the entry `("depth", "1")`.
- StarfishApiClient.StarfishClient.DeleteZone: zone ids are strings, and a falsy id is None or the empty string. An integer id 0, which Python also treats as falsy, is not modelled.
- Utils.GetMostRecentScans: Python iterates over a set, so volume order is unspecified. The model picks any remaining volume at each step and states its result for the enumeration it used. `creation_time` is an integer, and the input is the `scans` list rather than the enclosing mapping.
- AddReportingTags.UntaggedFilenames: row attributes are strings and `tags_explicit` is a list. A `tags_explicit` given as a string would make `in` a substring test.
- Header lookup is case-sensitive (`SF-Query-Id`), while the `requests` header mapping is case-insensitive.

## Findings

| source | as written | input that shows it | evidently intended | confidence | as-written member | corrected member |
|---|---|---|---|---|---|---|
| starfish_api_client/starfish_api_client.py:125 | `query` passes `query_terms` and `async_after` positionally, so they bind to `groupby` and `query_terms` of `_request_query` | `query(query_terms={'depth': 0})` with the default `async_after=5`: `(5).update(...)` raises `AttributeError`; with `async_after=None` the terms become `group_by` and the query string is only `type=d` | bind by keyword: `query_terms=query_terms, async_after=async_after` | high; not executed | StarfishApiClient.PositionalCallLosesTerms | StarfishApiClient.StarfishClient.QueryCorrected |
| starfish_api_client/starfish_api_client.py:92-95 | `zone = get_zone_by_name(name)` then `zone['id']`, with no None check | `delete_zone(None, zone_name='missing')` when no zone has that name: `None['id']` raises `TypeError` | raise `ValueError("Zone missing not found.")` | high; not executed | StarfishApiClient.StarfishClient.DeleteUnknownZoneIsTypeError | StarfishApiClient.StarfishClient.DeleteZoneIntended |
