/**
  The response normaliser `PythonMCPServer._format_mcp_response`
  (Web-Agent/web_agent.py:35-47): maps the search provider's decoded reply
  to `{"mcp_version": "1.0", "results": [...]}`, one result per element of
  the reply's `organic` list, in order.
 */
module Normalizer {
  import opened JsonData

  const MCP_VERSION: string := "1.0"
  const SOURCE_LABEL: string := "Serper/Google"

  /**
    One entry of `results`. Title, url and content are whatever `item.get`
    returned, unchecked: None for a missing key, never a default "".
   */
  datatype ResultItem = ResultItem(title: Option<Json>, url: Option<Json>, content: Option<Json>, source: string)

  datatype NormalizedResult = NormalizedResult(mcpVersion: string, results: seq<ResultItem>)

  /** The dict built for one `organic` element that is itself a dict. */
  function FormatItem(item: map<string, Json>): ResultItem
  {
    ResultItem(Get(item, "title"), Get(item, "link"), Get(item, "snippet"), SOURCE_LABEL)
  }

  /** The entry `_format_mcp_response` builds for one element: keys renamed, source stamped. */
  ghost predicate MapsTo(item: Json, r: ResultItem)
  {
    && item.JObj?
    && r.title == Get(item.fields, "title")
    && r.url == Get(item.fields, "link")
    && r.content == Get(item.fields, "snippet")
    && r.source == SOURCE_LABEL
  }

  ghost predicate AllObjects(items: seq<Json>)
  {
    forall i :: 0 <= i < |items| ==> items[i].JObj?
  }

  /**
    The list comprehension over a list of elements, evaluated left to right:
    the first element that is not a dict raises AttributeError on `.get`.
   */
  function FormatItems(items: seq<Json>): (r: Outcome<seq<ResultItem>>)
    ensures r.Returned? <==> AllObjects(items)
    ensures r.Returned? ==> |r.value| == |items|
    ensures r.Returned? ==> forall i :: 0 <= i < |items| ==> MapsTo(items[i], r.value[i])
    ensures r.Raised? ==>
      exists k :: 0 <= k < |items| && !items[k].JObj? && AllObjects(items[..k])
                  && r.fault == AttributeError(TypeName(items[k]), "get")
  {
    if items == [] then Returned([])
    else if !items[0].JObj? then
      assert !items[0].JObj? && AllObjects(items[..0]);
      Raised(AttributeError(TypeName(items[0]), "get"))
    else
      match FormatItems(items[1..])
      case Raised(f) =>
        FirstFaultShifts(items, f);
        Raised(f)
      case Returned(rest) =>
        var rs := [FormatItem(items[0].fields)] + rest;
        assert forall i :: 1 <= i < |items| ==> items[i] == items[1..][i - 1] && rs[i] == rest[i - 1];
        Returned(rs)
  }

  /** The first non-dict element of `items[1..]` is the first of `items` when `items[0]` is a dict. */
  lemma FirstFaultShifts(items: seq<Json>, f: Fault)
    requires |items| > 0 && items[0].JObj?
    requires exists k :: 0 <= k < |items| - 1 && !items[1..][k].JObj? && AllObjects(items[1..][..k])
                         && f == AttributeError(TypeName(items[1..][k]), "get")
    ensures exists k :: 0 <= k < |items| && !items[k].JObj? && AllObjects(items[..k])
                        && f == AttributeError(TypeName(items[k]), "get")
  {
    var k :| 0 <= k < |items| - 1 && !items[1..][k].JObj? && AllObjects(items[1..][..k])
             && f == AttributeError(TypeName(items[1..][k]), "get");
    assert items[..k + 1] == [items[0]] + items[1..][..k];
    assert items[k + 1] == items[1..][k];
    assert AllObjects(items[..k + 1]);
  }

  /**
    `for item in value` followed by `item.get(...)`, for the value found
    under "organic" (or the default `[]`). A str yields str items and a
    dict yields its str keys, so either fails on the first item unless it
    is empty; any other non-list value is not iterable.
   */
  function FormatOrganic(value: Json): (r: Outcome<seq<ResultItem>>)
    ensures r.Returned? <==> (value.JArr? && AllObjects(value.items)) || value == JStr("") || value == JObj(map[])
    ensures r.Returned? && value.JArr? ==>
      |r.value| == |value.items| && forall i :: 0 <= i < |value.items| ==> MapsTo(value.items[i], r.value[i])
    ensures r.Returned? && !value.JArr? ==> r.value == []
    ensures value.JArr? && r.Raised? ==>
      exists k :: 0 <= k < |value.items| && !value.items[k].JObj? && AllObjects(value.items[..k])
                  && r.fault == AttributeError(TypeName(value.items[k]), "get")
    ensures (value.JStr? && value.s != "") || (value.JObj? && value.fields != map[]) ==>
      r == Raised(AttributeError("str", "get"))
    ensures NotIterable(value) ==> r == Raised(TypeError(TypeName(value)))
  {
    match value
    case JArr(items) => FormatItems(items)
    case JStr(s) => if s == "" then Returned([]) else Raised(AttributeError("str", "get"))
    case JObj(m) => if m == map[] then Returned([]) else Raised(AttributeError("str", "get"))
    case _ => Raised(TypeError(TypeName(value)))
  }

  /** The decoded values Python cannot iterate over: None, bool and numbers. */
  predicate NotIterable(v: Json)
  {
    v.JNull? || v.JBool? || v.JInt? || v.JFloat?
  }

  /** `data.get("organic", [])`. */
  function OrganicValue(data: map<string, Json>): Json
  {
    GetOr(data, "organic", JArr([]))
  }

  /** The elements the comprehension walks over when it completes: the organic list, or none. */
  function OrganicItems(data: Json): seq<Json>
  {
    if data.JObj? && OrganicValue(data.fields).JArr? then OrganicValue(data.fields).items else []
  }

  /** Exactly the replies on which `_format_mcp_response` returns instead of raising. */
  ghost predicate Normalizable(data: Json)
  {
    && data.JObj?
    && match OrganicValue(data.fields)
       case JArr(items) => AllObjects(items)
       case JStr(s) => s == ""
       case JObj(m) => m == map[]
       case _ => false
  }

  /** `_format_mcp_response(data)`. */
  function FormatMcpResponse(data: Json): (r: Outcome<NormalizedResult>)
    ensures r.Returned? <==> Normalizable(data)
    ensures r.Returned? ==> r.value.mcpVersion == MCP_VERSION
    ensures r.Returned? ==> |r.value.results| == |OrganicItems(data)|
    ensures r.Returned? ==>
      forall i :: 0 <= i < |OrganicItems(data)| ==> MapsTo(OrganicItems(data)[i], r.value.results[i])
    ensures !data.JObj? ==> r == Raised(AttributeError(TypeName(data), "get"))
    // which exception a dict reply raises, by the shape of its "organic" value
    ensures data.JObj? && OrganicValue(data.fields).JArr? && r.Raised? ==>
      exists k :: 0 <= k < |OrganicItems(data)| && !OrganicItems(data)[k].JObj? && AllObjects(OrganicItems(data)[..k])
                  && r.fault == AttributeError(TypeName(OrganicItems(data)[k]), "get")
    ensures data.JObj? && NotIterable(OrganicValue(data.fields)) ==>
      r == Raised(TypeError(TypeName(OrganicValue(data.fields))))
    ensures data.JObj? ==> var v := OrganicValue(data.fields);
      (v.JStr? && v.s != "") || (v.JObj? && v.fields != map[]) ==> r == Raised(AttributeError("str", "get"))
  {
    match data
    case JObj(fields) =>
      (match FormatOrganic(OrganicValue(fields))
       case Returned(results) => Returned(NormalizedResult(MCP_VERSION, results))
       case Raised(f) =>
         assert OrganicValue(fields).JArr? ==> OrganicItems(data) == OrganicValue(fields).items;
         Raised(f))
    case _ => Raised(AttributeError(TypeName(data), "get"))
  }

  /** A reply without an "organic" key normalises to an empty result list. */
  lemma AbsentOrganicIsEmpty(data: map<string, Json>)
    requires "organic" !in data
    ensures FormatMcpResponse(JObj(data)) == Returned(NormalizedResult(MCP_VERSION, []))
  {
  }

  /**
    No reordering, filtering or merging: normalising the concatenation of
    two organic lists gives the concatenation of their results, and a
    failure in the first list is the failure of the whole.
   */
  lemma {:induction false} FormatItemsAppend(xs: seq<Json>, ys: seq<Json>)
    ensures FormatItems(xs + ys) ==
      match FormatItems(xs)
      case Raised(f) => Raised(f)
      case Returned(rx) =>
        (match FormatItems(ys)
         case Raised(f) => Raised(f)
         case Returned(ry) => Returned(rx + ry))
  {
    if xs == [] {
      assert xs + ys == ys;
      match FormatItems(ys)
      case Raised(f) =>
      case Returned(ry) => assert [] + ry == ry;
    } else {
      assert (xs + ys)[0] == xs[0];
      assert (xs + ys)[1..] == xs[1..] + ys;
      FormatItemsAppend(xs[1..], ys);
      if xs[0].JObj? {
        match FormatItems(xs[1..])
        case Raised(f) =>
        case Returned(rx) =>
          match FormatItems(ys)
          case Raised(f) =>
          case Returned(ry) =>
            assert [FormatItem(xs[0].fields)] + (rx + ry) == ([FormatItem(xs[0].fields)] + rx) + ry;
      }
    }
  }

  /** The dict Python builds for a result entry; a missing value shows as None. */
  function ItemToJson(r: ResultItem): Json
  {
    JObj(map["title" := OrNull(r.title), "url" := OrNull(r.url), "content" := OrNull(r.content),
             "source" := JStr(r.source)])
  }

  /** The dict `_format_mcp_response` returns. */
  function ResultToJson(r: NormalizedResult): Json
  {
    JObj(map["mcp_version" := JStr(r.mcpVersion), "results" := JArr(seq(|r.results|, i requires 0 <= i < |r.results| => ItemToJson(r.results[i])))])
  }

  /**
    The returned dict, as a caller sees it: the version tag, and one
    four-key entry per organic element in order, a key missing upstream
    showing as None.
   */
  lemma RenderedResponse(data: Json)
    requires Normalizable(data)
    ensures var out := ResultToJson(FormatMcpResponse(data).value);
      && out.fields.Keys == {"mcp_version", "results"}
      && out.fields["mcp_version"] == JStr("1.0")
      && out.fields["results"].JArr?
      && |out.fields["results"].items| == |OrganicItems(data)|
      && forall i :: 0 <= i < |OrganicItems(data)| ==>
           var item := OrganicItems(data)[i].fields;
           && out.fields["results"].items[i].fields.Keys == {"title", "url", "content", "source"}
           && out.fields["results"].items[i].fields["title"] == GetOr(item, "title", JNull)
           && out.fields["results"].items[i].fields["url"] == GetOr(item, "link", JNull)
           && out.fields["results"].items[i].fields["content"] == GetOr(item, "snippet", JNull)
           && out.fields["results"].items[i].fields["source"] == JStr("Serper/Google")
  {
  }

  /**
    A key missing upstream and a key present with JSON null give the same
    returned dict: the model's None vs Some(JNull) is finer than Python's.
   */
  lemma MissingAndNullRenderAlike(item: map<string, Json>)
    requires "title" !in item
    ensures ItemToJson(FormatItem(item)) == ItemToJson(FormatItem(item["title" := JNull]))
    ensures FormatItem(item).title == None && FormatItem(item["title" := JNull]).title == Some(JNull)
  {
  }
}
