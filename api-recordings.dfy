/** The call-recording endpoints of src/tele2-ats2-api/api-recordings.js: the
    filtered listing of call records, whose entries gain a link to their audio
    file, and the download of one recording as a Tele2Ats2File. */
module ApiRecordings {
  import opened Js
  import opened Errors
  import opened Decorators
  import SearchParams
  import ApiUtils
  import opened ApiMethods
  import opened ApiFile

  const ServerErrorDetails: string := "Tele2 Server Error"

  /** This module's DEFAULTS_DECORATORS with the 500 rule as intended: a 500
      carrying the server-error details is a server error. */
  const RecordingsRules: seq<Rule> := [
    Rule(403, None, Some(TokenAlreadyUpdated), UnauthorizedConstructor),
    Rule(500, None, Some(ServerErrorDetails), ServerErrorConstructor)
  ]

  /** The rules as api-recordings.js writes them: the 500 rule's constructor
      is undefined here as well. */
  const WrittenRecordingsRules: seq<Rule> := RecordingsRules[1 := Rule(500, None, Some(ServerErrorDetails), MissingConstructor)]

  /** A Date argument, by the text `toISOString()` gives for it. */
  datatype Date = Date(iso: string)

  datatype Sort = Sort(key: string, order: string)

  /** The props of `callRecordsInfo`; an absent property is None. */
  datatype InfoQuery = InfoQuery(
    accessToken: Option<string>,
    proxy: Option<ApiUtils.ProxyHttp>,
    dateFrom: Option<Date>,
    dateTo: Option<Date>,
    page: Option<int>,
    size: Option<int>,
    sort: Option<Sort>,
    callee: Option<string>,
    caller: Option<string>,
    hasRecorded: Option<bool>)

  /** The value `callRecordsInfo` sets for each filter, or None when the
      filter is absent or falsy and so not set. */
  function TextFilter(o: Option<string>): Option<string> {
    if Truthy(o) then o else None
  }

  /** `set("is_recorded", true)` stores the boolean as the text "true". */
  function RecordedFilter(o: Option<bool>): Option<string> {
    if o == Some(true) then Some("true") else None
  }

  function NumberFilter(o: Option<int>): Option<string> {
    if TruthyNumber(o) then Some(NumberText(o.value)) else None
  }

  function DateFilter(o: Option<Date>): Option<string> {
    if o.Some? then Some(o.value.iso) else None
  }

  /** `${key},${order.toUpperCase()}`. */
  function SortText(s: Sort): (r: string)
    // the key unchanged, a comma, then the order in capitals
    ensures |r| == |s.key| + 1 + |s.order|
    ensures r[..|s.key|] == s.key && r[|s.key|] == ','
    ensures r[|s.key| + 1..] == UpperCase(s.order)
  {
    s.key + "," + UpperCase(s.order)
  }

  function SortFilter(o: Option<Sort>): Option<string> {
    if o.Some? then Some(SortText(o.value)) else None
  }

  /** A query key with the value set for it, None when it is not set. */
  datatype Filter = Filter(key: string, value: Option<string>)

  predicate DistinctKeys(fs: seq<Filter>) {
    forall i, j :: 0 <= i < j < |fs| ==> fs[i].key != fs[j].key
  }

  /** The filters of `callRecordsInfo`, in the order it sets them: eight
      keys, none set twice, so every `set` appends. */
  function InfoFilters(q: InfoQuery): (fs: seq<Filter>)
    ensures |fs| == 8 && DistinctKeys(fs)
  {
    [ Filter("callee", TextFilter(q.callee)),
      Filter("caller", TextFilter(q.caller)),
      Filter("is_recorded", RecordedFilter(q.hasRecorded)),
      Filter("page", NumberFilter(q.page)),
      Filter("size", NumberFilter(q.size)),
      Filter("start", DateFilter(q.dateFrom)),
      Filter("end", DateFilter(q.dateTo)),
      Filter("sort", SortFilter(q.sort)) ]
  }

  /** How many of the filters are set. */
  function SetCount(fs: seq<Filter>): nat {
    if fs == [] then 0 else SetCount(fs[..|fs| - 1]) + (if fs[|fs| - 1].value.Some? then 1 else 0)
  }

  /** The query after the set filters are appended in order to an empty one. */
  function Applied(fs: seq<Filter>): seq<SearchParams.Param> {
    if fs == [] then []
    else
      var last := fs[|fs| - 1];
      Applied(fs[..|fs| - 1]) + (if last.value.Some? then [SearchParams.Param(last.key, last.value.value)] else [])
  }

  /** Looking a key up after one more pair is appended. */
  lemma {:induction false} GetAppended(ps: seq<SearchParams.Param>, p: SearchParams.Param, k: string)
    ensures SearchParams.Get(ps + [p], k)
         == if SearchParams.Get(ps, k).Some? then SearchParams.Get(ps, k) else if p.key == k then Some(p.value) else None
  {
    if ps != [] {
      assert (ps + [p])[1..] == ps[1..] + [p];
      GetAppended(ps[1..], p, k);
    }
  }

  /** A key no filter uses is absent from the query. */
  lemma {:induction false} AbsentKey(fs: seq<Filter>, k: string)
    requires forall i :: 0 <= i < |fs| ==> fs[i].key != k
    ensures SearchParams.Get(Applied(fs), k).None?
  {
    if fs != [] {
      var init := fs[..|fs| - 1];
      AbsentKey(init, k);
      var last := fs[|fs| - 1];
      if last.value.Some? {
        GetAppended(Applied(init), SearchParams.Param(last.key, last.value.value), k);
      } else {
        assert Applied(fs) == Applied(init) + [] == Applied(init);
      }
    }
  }

  /** With distinct keys every filter reads back as set: its value, or
      absent when it was not set. */
  lemma {:induction false} LookupApplied(fs: seq<Filter>, j: int)
    requires DistinctKeys(fs) && 0 <= j < |fs|
    ensures SearchParams.Get(Applied(fs), fs[j].key) == fs[j].value
  {
    var init := fs[..|fs| - 1];
    var last := fs[|fs| - 1];
    var k := fs[j].key;
    if j == |fs| - 1 {
      AbsentKey(init, k);
    } else {
      LookupApplied(init, j);
    }
    if last.value.Some? {
      GetAppended(Applied(init), SearchParams.Param(last.key, last.value.value), k);
    } else {
      assert Applied(fs) == Applied(init) + [] == Applied(init);
    }
  }

  /** Each set filter contributes exactly one pair. */
  lemma {:induction false} AppliedLength(fs: seq<Filter>)
    ensures |Applied(fs)| == SetCount(fs)
  {
    if fs != [] {
      AppliedLength(fs[..|fs| - 1]);
    }
  }

  /** One `if (value) url.searchParams.set(key, value)` step of
      `callRecordsInfo`: a set filter is appended, since no earlier filter
      used its key; an unset one leaves the query as it is. */
  method SetFilter(query: seq<SearchParams.Param>, fs: seq<Filter>, k: nat) returns (r: seq<SearchParams.Param>)
    requires DistinctKeys(fs) && k < |fs| && query == Applied(fs[..k])
    ensures r == Applied(fs[..k + 1])
    ensures fs[k].value.Some? ==> r == query + [SearchParams.Param(fs[k].key, fs[k].value.value)]
    ensures fs[k].value.None? ==> r == query
  {
    var f := fs[k];
    var done := fs[..k];
    assert fs[..k + 1] == done + [f];
    assert (done + [f])[..|done|] == done;
    r := query;
    if f.value.Some? {
      assert forall i :: 0 <= i < |done| ==> done[i].key != f.key by {
        forall i | 0 <= i < |done| ensures done[i].key != f.key {
          assert done[i] == fs[i];
        }
      }
      AbsentKey(done, f.key);
      r := SearchParams.Set(query, f.key, f.value.value);
    } else {
      assert Applied(done + [f]) == Applied(done) + [];
    }
  }

  /** The eight `if (value) url.searchParams.set(key, value)` steps of
      `callRecordsInfo`, in order, starting from an empty query. */
  method SetFilters(fs: seq<Filter>) returns (query: seq<SearchParams.Param>)
    requires |fs| == 8 && DistinctKeys(fs)
    ensures query == Applied(fs)
  {
    query := [];
    assert fs[..0] == [];
    query := SetFilter(query, fs, 0);
    query := SetFilter(query, fs, 1);
    query := SetFilter(query, fs, 2);
    query := SetFilter(query, fs, 3);
    query := SetFilter(query, fs, 4);
    query := SetFilter(query, fs, 5);
    query := SetFilter(query, fs, 6);
    query := SetFilter(query, fs, 7);
    assert fs[..8] == fs;
  }

  /** Every filter of `callRecordsInfo` reads back from the built query as
      set, and the query holds one pair per set filter. */
  lemma InfoFiltersLookup(q: InfoQuery)
    ensures SearchParams.Get(Applied(InfoFilters(q)), "callee") == TextFilter(q.callee)
    ensures SearchParams.Get(Applied(InfoFilters(q)), "caller") == TextFilter(q.caller)
    ensures SearchParams.Get(Applied(InfoFilters(q)), "is_recorded") == RecordedFilter(q.hasRecorded)
    ensures SearchParams.Get(Applied(InfoFilters(q)), "page") == NumberFilter(q.page)
    ensures SearchParams.Get(Applied(InfoFilters(q)), "size") == NumberFilter(q.size)
    ensures SearchParams.Get(Applied(InfoFilters(q)), "start") == DateFilter(q.dateFrom)
    ensures SearchParams.Get(Applied(InfoFilters(q)), "end") == DateFilter(q.dateTo)
    ensures SearchParams.Get(Applied(InfoFilters(q)), "sort") == SortFilter(q.sort)
    ensures |Applied(InfoFilters(q))| == SetCount(InfoFilters(q))
  {
    var fs := InfoFilters(q);
    LookupApplied(fs, 0);
    LookupApplied(fs, 1);
    LookupApplied(fs, 2);
    LookupApplied(fs, 3);
    LookupApplied(fs, 4);
    LookupApplied(fs, 5);
    LookupApplied(fs, 6);
    LookupApplied(fs, 7);
    AppliedLength(fs);
  }

  /** The request `callRecordsInfo` sends: each truthy filter is set on the
      URL's query, in the order the source sets them. */
  method CallRecordsInfoRequest(q: InfoQuery) returns (r: Request)
    ensures r.verb == Get && r.url.path == "/call-records/info"
    ensures r.authorization == q.accessToken && r.contentType.None? && !r.streamed
    // as written, `q.proxy` is never read: the request sets no proxy
    ensures r.proxy.None?
    ensures SearchParams.Get(r.url.query, "callee") == TextFilter(q.callee)
    ensures SearchParams.Get(r.url.query, "caller") == TextFilter(q.caller)
    ensures SearchParams.Get(r.url.query, "is_recorded") == RecordedFilter(q.hasRecorded)
    ensures SearchParams.Get(r.url.query, "page") == NumberFilter(q.page)
    ensures SearchParams.Get(r.url.query, "size") == NumberFilter(q.size)
    ensures SearchParams.Get(r.url.query, "start") == DateFilter(q.dateFrom)
    ensures SearchParams.Get(r.url.query, "end") == DateFilter(q.dateTo)
    ensures SearchParams.Get(r.url.query, "sort") == SortFilter(q.sort)
    // nothing but the set filters, each once
    ensures |r.url.query| == SetCount(InfoFilters(q))
  {
    var query := SetFilters(InfoFilters(q));
    InfoFiltersLookup(q);
    r := Request(Get, Url("/call-records/info", query), q.accessToken, None, false, None);
  }

  /** A record's `date`: the text the API sent, or the Date built from it. */
  datatype DateField = RawDate(text: string) | DateObject(text: string)

  /** One entry of the listing; `other` holds the properties the code does
      not look at. */
  datatype CallRecord = CallRecord(
    date: DateField,
    recordFileName: Option<string>,
    recordFileUri: Option<Url>,
    other: map<string, string>)

  /** The URL of a recording's audio file. */
  function FileUrl(name: string): (u: Url)
    ensures u.path == "/call-records/file"
    ensures SearchParams.Get(u.query, "filename") == Some(name) && |u.query| == 1
  {
    Url("/call-records/file", SearchParams.Set([], "filename", name))
  }

  /** The `data.map` callback: an entry with a recording gets the recording's
      URL and a parsed date, every other property kept; others are returned
      as they came. */
  function ProcessRecord(item: CallRecord): (r: CallRecord)
    ensures r.recordFileName == item.recordFileName && r.other == item.other
    ensures Truthy(item.recordFileName) ==> r.recordFileUri == Some(FileUrl(item.recordFileName.value))
    ensures Truthy(item.recordFileName) ==> r.date == DateObject(item.date.text)
    ensures !Truthy(item.recordFileName) ==> r == item
  {
    if Truthy(item.recordFileName) then
      item.(recordFileUri := Some(FileUrl(item.recordFileName.value)), date := DateObject(item.date.text))
    else item
  }

  function MapRecords(items: seq<CallRecord>): (r: seq<CallRecord>)
    ensures |r| == |items|
    ensures forall i :: 0 <= i < |items| ==> r[i] == ProcessRecord(items[i])
  {
    if items == [] then [] else [ProcessRecord(items[0])] + MapRecords(items[1..])
  }

  /** What `callRecordsInfo` resolves or rejects with, given the transport's
      outcome. */
  function CallRecordsInfoResult(raw: Outcome<HttpResponse<seq<CallRecord>>>): (r: Outcome<seq<CallRecord>>)
    ensures raw.Resolved? ==> r.Resolved? && |r.value| == |raw.value.data|
    ensures raw.Resolved? ==> forall i :: 0 <= i < |raw.value.data| ==> r.value[i] == ProcessRecord(raw.value.data[i])
    ensures raw.Rejected? ==> r == Rejected(Classify(raw.error, WrittenRecordingsRules))
  {
    match Decorate(raw, WrittenRecordingsRules)
    case Resolved(response) => Resolved(MapRecords(response.data))
    case Rejected(e) => Rejected(e)
  }

  /** The request `callRecordsFile` sends: the file URL, an audio Content-Type
      and a streamed body. The `proxy` the client hands over is never read. */
  function CallRecordsFileRequest(accessToken: Option<string>, proxy: Option<ApiUtils.ProxyHttp>, recordFileName: string): (r: Request)
    ensures r.verb == Get && r.url == FileUrl(recordFileName)
    ensures r.authorization == accessToken && r.contentType == Some("audio/mpeg") && r.streamed
    ensures r.proxy.None?
  {
    Request(Get, FileUrl(recordFileName), accessToken, Some("audio/mpeg"), true, None)
  }

  /** The download request as intended: the same, through the client's proxy
      converted by `proxyHttpToAxiosProxy`. */
  function ProxiedFileRequest(accessToken: Option<string>, proxy: Option<ApiUtils.ProxyHttp>, recordFileName: string): (r: Request)
    ensures r.proxy == Some(ApiUtils.ProxyHttpToAxiosProxy(proxy))
    // only the proxy setting differs from the request as written
    ensures r.(proxy := None) == CallRecordsFileRequest(accessToken, proxy, recordFileName)
  {
    CallRecordsFileRequest(accessToken, proxy, recordFileName).(proxy := Some(ApiUtils.ProxyHttpToAxiosProxy(proxy)))
  }

  /** As written, a configured proxy never reaches the download request,
      which therefore differs from the intended one; as intended, the
      request goes through that proxy, with its credentials when both are
      set. */
  lemma RecordingsProxyIgnored(accessToken: Option<string>, proxy: ApiUtils.ProxyHttp, recordFileName: string)
    ensures CallRecordsFileRequest(accessToken, Some(proxy), recordFileName).proxy.None?
    ensures CallRecordsFileRequest(accessToken, Some(proxy), recordFileName)
         != ProxiedFileRequest(accessToken, Some(proxy), recordFileName)
    ensures var r := ProxiedFileRequest(accessToken, Some(proxy), recordFileName);
      && r.proxy.Some? && r.proxy.value.AxiosProxyConfig?
      && r.proxy.value.host == proxy.host && r.proxy.value.port == proxy.port
      && (r.proxy.value.auth.Some? <==> Truthy(proxy.user) && Truthy(proxy.pass))
  {
  }

  /** `new Tele2Ats2File(res.data)` as written: the stream lands in the
      filename slot and the octetstream is undefined. */
  function WrittenCallRecordsFileResult(raw: Outcome<HttpResponse<seq<StreamEvent>>>): (r: Outcome<Tele2Ats2File>)
    ensures raw.Resolved? ==> r == Resolved(Tele2Ats2File(Stream(raw.value.data), Undefined))
    ensures raw.Rejected? ==> r == Rejected(Classify(raw.error, WrittenRecordingsRules))
  {
    match Decorate(raw, WrittenRecordingsRules)
    case Resolved(response) => Resolved(Tele2Ats2File(Stream(response.data), Undefined))
    case Rejected(e) => Rejected(e)
  }

  /** As written, `toBuffer()` on a downloaded recording always fails
      reading `.on` of undefined, whatever the stream carries. */
  method DownloadedRecordingBuffer(raw: Outcome<HttpResponse<seq<StreamEvent>>>) returns (r: Option<BufferPromise>)
    ensures raw.Rejected? <==> r.None?
    ensures raw.Resolved? ==> r == Some(Some(Rejected(OtherError("TypeError", "Cannot read properties of undefined (reading 'on')"))))
  {
    match WrittenCallRecordsFileResult(raw)
    case Rejected(_) =>
      return None;
    case Resolved(file) =>
      var buffer := ToBuffer(file);
      return Some(buffer);
  }

  /** The download as intended, `new Tele2Ats2File(recordFileName, res.data)`:
      the file carries the requested name and the response stream. */
  function CallRecordsFileResult(recordFileName: string, raw: Outcome<HttpResponse<seq<StreamEvent>>>): (r: Outcome<Tele2Ats2File>)
    ensures raw.Resolved? ==> r == Resolved(Tele2Ats2File(Text(recordFileName), Stream(raw.value.data)))
    ensures raw.Rejected? ==> r == Rejected(Classify(raw.error, WrittenRecordingsRules))
  {
    match Decorate(raw, WrittenRecordingsRules)
    case Resolved(response) => Resolved(Tele2Ats2File(Text(recordFileName), Stream(response.data)))
    case Rejected(e) => Rejected(e)
  }

  /** As intended, `toBuffer()` on a downloaded recording settles as the
      response stream does: the chunks up to its end, or its error. */
  method DownloadRecording(recordFileName: string, raw: Outcome<HttpResponse<seq<StreamEvent>>>) returns (r: Option<BufferPromise>)
    ensures raw.Rejected? <==> r.None?
    ensures raw.Resolved? ==> r == Some(Settlement(raw.value.data))
  {
    match CallRecordsFileResult(recordFileName, raw)
    case Rejected(_) =>
      return None;
    case Resolved(file) =>
      var buffer := ToBuffer(file);
      return Some(buffer);
  }

  /** The link a listed entry carries is exactly the URL the download
      endpoint fetches for that entry's file name. */
  lemma RecordLinkIsDownloadUrl(item: CallRecord, accessToken: Option<string>, proxy: Option<ApiUtils.ProxyHttp>)
    requires Truthy(item.recordFileName)
    ensures ProcessRecord(item).recordFileUri == Some(CallRecordsFileRequest(accessToken, proxy, item.recordFileName.value).url)
  {
  }

  /** A 500 without the server-error details matches no rule of this module:
      a generic API error with the transport message. */
  lemma BareServerErrorIsGeneric(message: Option<string>, details: Option<string>)
    requires details != Some(ServerErrorDetails)
    ensures Classify(HttpFailure(500, message, details), WrittenRecordingsRules)
         == ApiError(ApiGeneric, HttpFailure(500, message, details).message)
  {
    var e := HttpFailure(500, message, details);
    assert forall j :: 0 <= j < |WrittenRecordingsRules| ==> !Matches(WrittenRecordingsRules[j], e.response.value) by {
      forall j | 0 <= j < |WrittenRecordingsRules| ensures !Matches(WrittenRecordingsRules[j], e.response.value) {
        assert j == 0 || j == 1;
      }
    }
  }

  /** As written, a 500 with the server-error details reaches the undefined
      constructor. */
  lemma DetailedServerErrorIsUntyped(message: Option<string>)
    ensures Classify(HttpFailure(500, message, Some(ServerErrorDetails)), WrittenRecordingsRules)
         == OtherError("TypeError", "handler.exception is not a constructor")
    ensures !InstanceOf(Classify(HttpFailure(500, message, Some(ServerErrorDetails)), WrittenRecordingsRules), Tele2Ats2ApiError)
  {
    var e := HttpFailure(500, message, Some(ServerErrorDetails));
    assert !Matches(WrittenRecordingsRules[0], e.response.value) && Matches(WrittenRecordingsRules[1], e.response.value);
  }

  /** As intended, it is a server error, an API error like the other
      classified failures. */
  lemma DetailedServerErrorIsTyped(message: Option<string>)
    ensures Classify(HttpFailure(500, message, Some(ServerErrorDetails)), RecordingsRules) == ApiError(ApiServerError, "")
    ensures InstanceOf(Classify(HttpFailure(500, message, Some(ServerErrorDetails)), RecordingsRules), Tele2Ats2ApiError)
  {
    var e := HttpFailure(500, message, Some(ServerErrorDetails));
    assert !Matches(RecordingsRules[0], e.response.value) && Matches(RecordingsRules[1], e.response.value);
    assert IsSubclass(Tele2Ats2ApiServerError, Tele2Ats2ApiError);
  }
}
