/** The `/chat` handler: it validates the chat message, sends it as the query of
    one search-provider request, and reshapes the provider's answer into at most
    three simplified results or a fixed reply text. The HTTP call itself is not
    modelled: what the provider answers is an input of `Chat`. */
module Relay {
  import opened Wrappers
  import opened PyStr

  // ---------------------------------------------------------------- inputs

  /** The two methods the route accepts; the web framework rejects the others before `chat()` runs. */
  datatype HttpMethod = Post | Options

  /** One entry of `pagemap.cse_image` in the provider's answer. */
  datatype Image = Image(src: Option<string>)

  /** The `pagemap` object of a result item. */
  datatype Pagemap = Pagemap(cseImage: Option<seq<Image>>)

  /** One element of the provider's `items` list; every key may be absent. */
  datatype Item = Item(title: Option<string>, link: Option<string>, pagemap: Option<Pagemap>)

  /** What the provider call ends in: a `requests.exceptions.RequestException`
      (connection error, timeout, a 4xx or 5xx status, an undecodable body), another
      exception with its `str(e)`, or a decoded JSON object whose `items` key may be absent. */
  datatype ProviderOutcome =
    | TransportFailure
    | OtherFailure(description: string)
    | Answered(items: Option<seq<Item>>)

  /** The API key and the search-engine id read from the environment (`None` when unset). */
  datatype Config = Config(apiKey: Option<string>, engineId: Option<string>)

  // ---------------------------------------------------------------- outputs

  /** The outbound request: the endpoint and its `key`, `cx` and `q` parameters. */
  datatype SearchRequest = SearchRequest(url: string, key: Option<string>, cx: Option<string>, q: string)

  /** One entry of the `results` list sent to the chat widget. */
  datatype SimplifiedResult = SimplifiedResult(title: string, link: string, image: Option<string>)

  /** The body of the answer: `{"results": [...]}`, `{"reply": text}`, or the empty
      body of the OPTIONS answer. Every answer has status 200. */
  datatype Response = Results(results: seq<SimplifiedResult>) | Reply(text: string) | EmptyBody

  /** What one request does: the provider request it sends, if any, and the answer. */
  datatype Exchange = Exchange(call: Option<SearchRequest>, response: Response)

  /** The two keys the reshaping reads with `item[...]`. */
  datatype ItemKey = Title | Link

  /** The exceptions that reshaping the items can raise: a `KeyError` for one of
      the two keys, or the `IndexError` of an empty `cse_image` list. */
  datatype Fault = KeyMissing(key: ItemKey) | IndexOutOfRange

  const ApiUrl := "https://www.googleapis.com/customsearch/v1"
  const InvalidQueryText := "Please provide a valid query."
  const NoResultsText := "I couldn't find " + "anything relevant to your query."
  const ConnectErrorText := "Error connecting to Google Search API."
  const UnexpectedPrefix := "An unexpected error occurred: "

  /** `s` begins with `prefix`. */
  predicate StartsWith(s: string, prefix: string) {
    |prefix| <= |s| && s[..|prefix|] == prefix
  }

  /** The key as it is spelled in the provider's JSON. */
  function KeyName(k: ItemKey): string {
    match k
    case Title => "title"
    case Link => "link"
  }

  /** Python's `str(e)` for the faults: a `KeyError` shows the `repr` of its key,
      which for the two plain keys is the key in single quotes; an `IndexError`
      from list indexing reads "list index out of range". */
  function Describe(f: Fault): (r: string)
    ensures f.KeyMissing? ==>
      |r| == |KeyName(f.key)| + 2 && r[0] == '\'' && r[|r| - 1] == '\'' && r[1..|r| - 1] == KeyName(f.key)
    ensures f == IndexOutOfRange ==> r == "list index out of range"
  {
    match f
    case KeyMissing(k) => "'" + KeyName(k) + "'"
    case IndexOutOfRange => "list index out of range"
  }

  // ---------------------------------------------------------------- reshaping

  /** `item.get("pagemap", {}).get("cse_image", [{}])[0].get("src")`: absent when
      `pagemap` or `cse_image` is absent or the first image has no `src`; an
      `IndexError` when `cse_image` is an empty list; otherwise the first image's `src`. */
  function ImageOf(item: Item): (r: Result<Option<string>, Fault>)
    ensures r.Failure? <==> (item.pagemap.Some? && item.pagemap.value.cseImage == Some([]))
    ensures r.Failure? ==> r.error == IndexOutOfRange
    ensures r == Success(None) <==>
      (item.pagemap.None? || item.pagemap.value.cseImage.None?
       || (item.pagemap.value.cseImage.value != [] && item.pagemap.value.cseImage.value[0].src.None?))
    ensures r.Success? && r.value.Some? ==>
      item.pagemap.Some? && item.pagemap.value.cseImage.Some? && item.pagemap.value.cseImage.value != []
      && r.value == item.pagemap.value.cseImage.value[0].src
  {
    var images := item.pagemap.GetOr(Pagemap(None)).cseImage.GetOr([Image(None)]);
    if images == [] then Failure(IndexOutOfRange) else Success(images[0].src)
  }

  /** The dictionary built for one item: `item["title"]`, then `item["link"]`,
      then the image, so the first missing piece decides the fault. */
  function Simplify(item: Item): (r: Result<SimplifiedResult, Fault>)
    ensures r.Success? <==> item.title.Some? && item.link.Some? && ImageOf(item).Success?
    ensures r.Success? ==>
      r.value.title == item.title.value && r.value.link == item.link.value
      && r.value.image == ImageOf(item).value
    ensures item.title.None? ==> r == Failure(KeyMissing(Title))
    ensures item.title.Some? && item.link.None? ==> r == Failure(KeyMissing(Link))
    ensures item.title.Some? && item.link.Some? && ImageOf(item).Failure? ==> r == Failure(IndexOutOfRange)
  {
    match (item.title, item.link)
    case (None, _) => Failure(KeyMissing(Title))
    case (Some(_), None) => Failure(KeyMissing(Link))
    case (Some(title), Some(link)) =>
      match ImageOf(item)
      case Failure(f) => Failure(f)
      case Success(image) => Success(SimplifiedResult(title, link, image))
  }

  /** The list comprehension over `items`: every item simplified, in order, or the
      fault of the first item that cannot be. */
  function SimplifyAll(items: seq<Item>): (r: Result<seq<SimplifiedResult>, Fault>)
    ensures r.Success? <==> forall i :: 0 <= i < |items| ==> Simplify(items[i]).Success?
    ensures r.Success? ==>
      |r.value| == |items| && forall i :: 0 <= i < |items| ==> Simplify(items[i]) == Success(r.value[i])
    ensures r.Failure? ==>
      exists k :: (0 <= k < |items| && Simplify(items[k]) == Failure(r.error)
                   && forall j :: 0 <= j < k ==> Simplify(items[j]).Success?)
  {
    if items == [] then Success([])
    else
      match Simplify(items[0])
      case Failure(f) => Failure(f)
      case Success(first) =>
        var rest := SimplifyAll(items[1..]);
        assert forall i :: 1 <= i < |items| ==> items[i] == items[1..][i - 1];
        match rest
        case Failure(f) =>
          assert exists k :: (1 <= k < |items| && Simplify(items[k]) == Failure(f)
                              && forall j :: 0 <= j < k ==> Simplify(items[j]).Success?);
          Failure(f)
        case Success(others) => Success([first] + others)
  }

  /** `results[:3]`: the first three items, or all of them when there are fewer. */
  function TopThree(items: seq<Item>): (r: seq<Item>)
    ensures |r| == if |items| < 3 then |items| else 3
    ensures r == items[..|r|]
  {
    if |items| <= 3 then items else items[..3]
  }

  // ---------------------------------------------------------------- the handler

  /** The message counts as a query: present and not whitespace only. */
  predicate ValidQuery(message: Option<string>) {
    !AllIn(message.GetOr(""), Whitespace)
  }

  /** The reply of the `try` block and its two `except` clauses, once the request
      was sent: `results` with one to three entries, or `reply` with the no-results
      text, the connection-error text or the unexpected-error prefix. */
  function ReplyTo(outcome: ProviderOutcome): (r: Response)
    ensures r != EmptyBody
    ensures r.Results? ==> 1 <= |r.results| <= 3
    ensures r.Reply? ==>
      r.text == NoResultsText || r.text == ConnectErrorText || StartsWith(r.text, UnexpectedPrefix)
  {
    match outcome
    case TransportFailure => Reply(ConnectErrorText)
    case OtherFailure(d) =>
      assert StartsWith(UnexpectedPrefix + d, UnexpectedPrefix);
      Reply(UnexpectedPrefix + d)
    case Answered(items) =>
      var results := items.GetOr([]);
      if results == [] then Reply(NoResultsText)
      else
        match SimplifyAll(TopThree(results))
        case Success(rs) => Results(rs)
        case Failure(f) =>
          assert StartsWith(UnexpectedPrefix + Describe(f), UnexpectedPrefix);
          Reply(UnexpectedPrefix + Describe(f))
  }

  /** The `/chat` handler. The message is stripped first (before the OPTIONS test,
      as in the handler); OPTIONS answers with an empty body; an absent or blank
      message answers with the guidance text; otherwise one provider request is
      sent with the stripped message as `q`, and its outcome decides the answer. */
  function Chat(config: Config, httpMethod: HttpMethod, message: Option<string>, outcome: ProviderOutcome): (r: Exchange)
    ensures httpMethod == Options ==> r == Exchange(None, EmptyBody)
    ensures httpMethod == Post && !ValidQuery(message) ==> r == Exchange(None, Reply(InvalidQueryText))
    ensures httpMethod == Post && ValidQuery(message) ==>
      r.call == Some(SearchRequest(ApiUrl, config.apiKey, config.engineId, Strip(message.GetOr(""))))
      && Strip(message.GetOr("")) != []
  {
    var query := Strip(message.GetOr(""));
    if httpMethod == Options then Exchange(None, EmptyBody)
    else if query == [] then Exchange(None, Reply(InvalidQueryText))
    else Exchange(Some(SearchRequest(ApiUrl, config.apiKey, config.engineId, query)), ReplyTo(outcome))
  }
}
