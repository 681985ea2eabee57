/** The web-search tool: reading result links out of a search response and
    formatting them, or the failure, as one text for a language model. */
module SearchTools {
  import opened Common

  const SearchEngineId := "your_search_engine_id"
  const DefaultMaxResults := 5

  const NoResultsText := "No results found for the query."
  const ErrorPrefix := "Error performing search: "

  /** The list request sent to the search service. */
  datatype SearchRequest = SearchRequest(q: string, cx: string, num: int)

  /** The request for a query: `max_results` is forwarded as `num`. */
  function ListRequest(query: string, maxResults: int): (r: SearchRequest)
    ensures r.q == query && r.cx == SearchEngineId && r.num == maxResults
  {
    SearchRequest(query, SearchEngineId, maxResults)
  }

  /** The tool leaves `max_results` at its default of 5. */
  function ToolRequest(query: string): (r: SearchRequest)
    ensures r == ListRequest(query, 5)
  {
    ListRequest(query, DefaultMaxResults)
  }

  /** The exceptions that reading a response can raise, plus whatever the
      service call itself raises, carried as its rendered text. */
  datatype PyException = KeyError(key: string) | TypeError(message: string) | ServiceError(message: string)

  /** `str(e)`: a key error renders its key in quotes. */
  function ExceptionText(e: PyException): string
  {
    match e
    case KeyError(k) => "'" + k + "'"
    case TypeError(m) => m
    case ServiceError(m) => m
  }

  /** `item["link"]` on one item of the response. */
  function ItemLink(item: Value): (r: Result<Value, PyException>)
    ensures r.Ok? <==> item.VDict? && "link" in item.entries
    ensures r.Ok? ==> r.value == item.entries["link"]
    ensures item.VDict? && "link" !in item.entries ==> r == Err(KeyError("link"))
  {
    match item
    case VDict(m) => if "link" in m then Ok(m["link"]) else Err(KeyError("link"))
    case VStr(_) => Err(TypeError("string indices must be integers, not 'str'"))
    case VList(_) => Err(TypeError("list indices must be integers or slices, not str"))
    case _ => Err(TypeError("'" + TypeName(item) + "' object is not subscriptable"))
  }

  /** The links of all items, in order; the first item without one raises. */
  function Links(items: seq<Value>): (r: Result<seq<Value>, PyException>)
    ensures r.Ok? <==> forall i :: 0 <= i < |items| ==> ItemLink(items[i]).Ok?
    ensures r.Ok? ==> |r.value| == |items|
    ensures r.Ok? ==> forall i :: 0 <= i < |items| ==> r.value[i] == items[i].entries["link"]
  {
    if |items| == 0 then Ok([])
    else
      match ItemLink(items[0])
      case Err(e) => Err(e)
      case Ok(link) =>
        match Links(items[1..])
        case Err(e) => Err(e)
        case Ok(rest) => Ok([link] + rest)
  }

  /** The links of a search response: none without an "items" entry, else each
      item's "link" in response order. Iterating a string or a dictionary
      yields strings, which cannot be indexed by "link". */
  function GoogleSearch(response: map<string, Value>): (r: Result<seq<Value>, PyException>)
    ensures "items" !in response ==> r == Ok([])
    ensures "items" in response && response["items"].VList? ==> r == Links(response["items"].items)
  {
    if "items" !in response then Ok([])
    else
      match response["items"]
      case VList(xs) => Links(xs)
      case VStr(s) => if |s| == 0 then Ok([]) else Err(TypeError("string indices must be integers, not 'str'"))
      case VDict(m) => if |m| == 0 then Ok([]) else Err(TypeError("string indices must be integers, not 'str'"))
      case _ => Err(TypeError("'" + TypeName(response["items"]) + "' object is not iterable"))
  }

  /** The links as strings; `"\n".join` rejects the first one that is not. */
  function LinkTexts(links: seq<Value>, offset: nat): (r: Result<seq<string>, PyException>)
    ensures r.Ok? <==> forall i :: 0 <= i < |links| ==> links[i].VStr?
    ensures r.Ok? ==> |r.value| == |links| && forall i :: 0 <= i < |links| ==> links[i] == VStr(r.value[i])
    decreases |links|
  {
    if |links| == 0 then Ok([])
    else if !links[0].VStr? then
      Err(TypeError("sequence item " + NatToString(offset) + ": expected str instance, "
                    + TypeName(links[0]) + " found"))
    else
      match LinkTexts(links[1..], offset + 1)
      case Err(e) => Err(e)
      case Ok(rest) => Ok([links[0].s] + rest)
  }

  /** `"\n".join(xs)`. */
  function JoinLines(xs: seq<string>): string
  {
    if |xs| == 0 then "" else if |xs| == 1 then xs[0] else xs[0] + "\n" + JoinLines(xs[1..])
  }

  function FirstNewline(s: string): (i: nat)
    requires '\n' in s
    ensures i < |s| && s[i] == '\n' && '\n' !in s[..i]
  {
    if s[0] == '\n' then 0
    else
      assert '\n' in s[1..];
      var j := FirstNewline(s[1..]);
      assert s[..j + 1] == [s[0]] + s[1..][..j];
      j + 1
  }

  /** `s.split("\n")`: the reference the joined output is read back with. */
  function SplitLines(s: string): (r: seq<string>)
    ensures |r| > 0
    decreases |s|
  {
    if '\n' !in s then [s]
    else
      var i := FirstNewline(s);
      [s[..i]] + SplitLines(s[i + 1..])
  }

  lemma FirstNewlineAfterLine(a: string, b: string)
    requires '\n' !in a
    ensures '\n' in a + "\n" + b
    ensures FirstNewline(a + "\n" + b) == |a|
  {
    var s := a + "\n" + b;
    assert s[|a|] == '\n';
    assert s[..|a|] == a;
  }

  /** Joining lines that contain no newline and splitting the result again
      gives back the lines. */
  lemma {:induction false} SplitJoinRoundTrip(xs: seq<string>)
    requires |xs| > 0
    requires forall i :: 0 <= i < |xs| ==> '\n' !in xs[i]
    ensures SplitLines(JoinLines(xs)) == xs
  {
    if |xs| > 1 {
      var rest := JoinLines(xs[1..]);
      var s := xs[0] + "\n" + rest;
      FirstNewlineAfterLine(xs[0], rest);
      assert s[..|xs[0]|] == xs[0];
      assert s[|xs[0]| + 1..] == rest;
      SplitJoinRoundTrip(xs[1..]);
    }
  }

  /** The tool: a service failure or a failure reading the response becomes
      "Error performing search: " and the error's text; no links gives the
      fixed no-results text; otherwise the links joined by newlines. It never
      raises. `response` is what the service call returned or raised. */
  function GoogleSearchTool(response: Result<map<string, Value>, PyException>): (out: string)
    ensures response.Err? ==> out == ErrorPrefix + ExceptionText(response.error)
    ensures response.Ok? && GoogleSearch(response.value) == Ok([]) ==> out == NoResultsText
    ensures response.Ok? && GoogleSearch(response.value).Err? ==>
              out == ErrorPrefix + ExceptionText(GoogleSearch(response.value).error)
    ensures response.Ok? && GoogleSearch(response.value).Ok? && |GoogleSearch(response.value).value| > 0 ==>
              var texts := LinkTexts(GoogleSearch(response.value).value, 0);
              (texts.Err? ==> out == ErrorPrefix + ExceptionText(texts.error))
              && (texts.Ok? ==> out == JoinLines(texts.value))
  {
    match response
    case Err(e) => ErrorPrefix + ExceptionText(e)
    case Ok(r) =>
      match GoogleSearch(r)
      case Err(e) => ErrorPrefix + ExceptionText(e)
      case Ok(links) =>
        if |links| == 0 then NoResultsText
        else
          match LinkTexts(links, 0)
          case Err(e) => ErrorPrefix + ExceptionText(e)
          case Ok(texts) => JoinLines(texts)
  }

  /** A response whose items all carry string links without newlines comes
      out as exactly those links, one per line, in response order. */
  lemma ToolListsLinks(response: map<string, Value>, links: seq<string>)
    requires "items" in response && response["items"].VList?
    requires |response["items"].items| == |links| > 0
    requires forall i :: 0 <= i < |links| ==>
               response["items"].items[i].VDict?
               && Get(response["items"].items[i].entries, "link") == VStr(links[i])
    requires forall i :: 0 <= i < |links| ==> '\n' !in links[i]
    ensures SplitLines(GoogleSearchTool(Ok(response))) == links
  {
    var items := response["items"].items;
    assert forall i :: 0 <= i < |items| ==> "link" in items[i].entries;
    var found := Links(items);
    assert found.Ok?;
    var texts := LinkTexts(found.value, 0);
    assert texts.Ok?;
    assert texts.value == links;
    SplitJoinRoundTrip(links);
  }
}
