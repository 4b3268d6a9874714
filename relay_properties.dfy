/** What the `/chat` handler promises, stated over `Relay.Chat` for every input. */
module RelayProperties {
  import opened Wrappers
  import opened PyStr
  import opened Relay

  /** The fixed texts and the unexpected-error replies are all different, so a
      reply text tells which branch produced it: they differ in the first character. */
  lemma ReplyTextsDiffer(d: string)
    ensures UnexpectedPrefix + d != InvalidQueryText
    ensures UnexpectedPrefix + d != NoResultsText
    ensures UnexpectedPrefix + d != ConnectErrorText
  {
    var t := UnexpectedPrefix + d;
    assert t[0] == 'A';
    assert InvalidQueryText[0] == 'P';
    assert ConnectErrorText[0] == 'E';
    assert NoResultsText[0] == 'I';
  }

  /** Once the provider request is sent, the answer is the one `ReplyTo` gives. */
  lemma ChatForwards(config: Config, message: Option<string>, outcome: ProviderOutcome)
    requires ValidQuery(message)
    ensures Chat(config, Post, message, outcome).call.Some?
    ensures Chat(config, Post, message, outcome).response == ReplyTo(outcome)
  {
  }

  /** When no provider request is sent, the answer is the empty body for OPTIONS
      and the guidance reply for a POST. */
  lemma ChatWithoutCall(config: Config, httpMethod: HttpMethod, message: Option<string>, outcome: ProviderOutcome)
    requires httpMethod == Options || !ValidQuery(message)
    ensures Chat(config, httpMethod, message, outcome)
      == Exchange(None, if httpMethod == Options then EmptyBody else Reply(InvalidQueryText))
  {
  }

  /** Which provider outcomes give which fixed reply: the no-results text exactly
      for absent or empty `items`, the connection-error text exactly for a transport
      failure, and never the guidance text. */
  lemma ReplyToTexts(outcome: ProviderOutcome)
    ensures ReplyTo(outcome) != Reply(InvalidQueryText)
    ensures ReplyTo(outcome) == Reply(NoResultsText) <==> outcome == Answered(None) || outcome == Answered(Some([]))
    ensures ReplyTo(outcome) == Reply(ConnectErrorText) <==> outcome == TransportFailure
  {
    match outcome
    case OtherFailure(d) => ReplyTextsDiffer(d);
    case Answered(items) =>
      var results := items.GetOr([]);
      if results != [] {
        match SimplifyAll(TopThree(results))
        case Success(_) =>
        case Failure(f) => ReplyTextsDiffer(Describe(f));
      }
    case TransportFailure =>
  }

  /** A POST whose message is absent or blank gets exactly the guidance reply and
      sends no provider request; no other POST gets that reply. */
  lemma BlankMessageRejected(config: Config, message: Option<string>, outcome: ProviderOutcome)
    ensures Chat(config, Post, message, outcome).response == Reply(InvalidQueryText) <==> !ValidQuery(message)
    ensures !ValidQuery(message) ==> Chat(config, Post, message, outcome).call == None
  {
    if ValidQuery(message) {
      ChatForwards(config, message, outcome);
      ReplyToTexts(outcome);
    }
  }

  /** A provider request is sent exactly for a POST with a valid query; its `q` is
      the message with its whitespace padding cut off, and the key and engine id
      are passed through unchanged. */
  lemma QueryIsStrippedMessage(config: Config, httpMethod: HttpMethod, message: Option<string>, outcome: ProviderOutcome)
    ensures Chat(config, httpMethod, message, outcome).call.Some? <==> httpMethod == Post && ValidQuery(message)
    ensures Chat(config, httpMethod, message, outcome).call.Some? ==>
      var req := Chat(config, httpMethod, message, outcome).call.value;
      req.url == ApiUrl && req.key == config.apiKey && req.cx == config.engineId
      && req.q != [] && Unpadded(req.q, Whitespace)
      && exists pre, post :: message.GetOr("") == pre + req.q + post && AllIn(pre, Whitespace) && AllIn(post, Whitespace)
  {
    if httpMethod == Post && ValidQuery(message) {
      var pre, post := StripSplits(message.GetOr(""), Whitespace);
    }
  }

  /** When no provider request is sent (OPTIONS, or a blank message), the answer
      does not depend on what the provider would have answered. */
  lemma NoCallNoDependence(config: Config, httpMethod: HttpMethod, message: Option<string>, o1: ProviderOutcome, o2: ProviderOutcome)
    requires Chat(config, httpMethod, message, o1).call.None?
    ensures Chat(config, httpMethod, message, o1) == Chat(config, httpMethod, message, o2)
  {
  }

  /** `results[:3]` keeps the provider's order: its i-th item is the i-th item. */
  lemma TopThreeAt(items: seq<Item>, i: nat)
    requires i < |TopThree(items)|
    ensures TopThree(items)[i] == items[i]
  {
  }

  /** When the provider answers a non-empty `items` list and each of its first
      three items has `title` and `link` and no empty `cse_image` list, the
      answer is `results`: min(3, |items|) entries, the i-th built from the i-th item. */
  lemma CompleteItemsGiveResults(config: Config, message: Option<string>, items: seq<Item>)
    requires ValidQuery(message) && items != []
    requires forall i :: 0 <= i < |items| && i < 3 ==>
      items[i].title.Some? && items[i].link.Some?
      && !(items[i].pagemap.Some? && items[i].pagemap.value.cseImage == Some([]))
    ensures var r := Chat(config, Post, message, Answered(Some(items))).response;
      r.Results? && |r.results| == (if |items| < 3 then |items| else 3)
      && forall i :: 0 <= i < |r.results| ==>
        r.results[i].title == items[i].title.value && r.results[i].link == items[i].link.value
        && r.results[i].image == ImageOf(items[i]).value
  {
    var rs := CompleteItemsReply(items);
    ChatForwards(config, message, Answered(Some(items)));
    var r := Chat(config, Post, message, Answered(Some(items))).response;
    assert r == Results(rs);
    TopThreeResults(items, rs);
    forall i | 0 <= i < |rs|
      ensures rs[i].title == items[i].title.value && rs[i].link == items[i].link.value
      ensures rs[i].image == ImageOf(items[i]).value
    {
    }
  }

  /** A non-empty `items` list whose first three items can all be reshaped gives
      the `results` answer of the comprehension over `results[:3]`. */
  lemma CompleteItemsReply(items: seq<Item>) returns (rs: seq<SimplifiedResult>)
    requires items != []
    requires forall i :: 0 <= i < |items| && i < 3 ==>
      items[i].title.Some? && items[i].link.Some?
      && !(items[i].pagemap.Some? && items[i].pagemap.value.cseImage == Some([]))
    ensures SimplifyAll(TopThree(items)) == Success(rs)
    ensures ReplyTo(Answered(Some(items))) == Results(rs)
  {
    var top := TopThree(items);
    forall i | 0 <= i < |top| ensures Simplify(top[i]).Success? {
      TopThreeAt(items, i);
    }
    rs := SimplifyAll(top).value;
    assert Some(items).GetOr([]) == items;
  }

  /** Conversely, a `results` answer comes only from a POST with a valid query whose
      provider answered a non-empty `items` list; it holds one to three entries, in
      the provider's order, each copying its item's `title` and `link`. */
  lemma ResultsComeFromItems(config: Config, httpMethod: HttpMethod, message: Option<string>, outcome: ProviderOutcome)
    requires Chat(config, httpMethod, message, outcome).response.Results?
    ensures httpMethod == Post && ValidQuery(message)
    ensures outcome.Answered? && outcome.items.Some? && outcome.items.value != []
    ensures var rs := Chat(config, httpMethod, message, outcome).response.results;
      var items := outcome.items.value;
      1 <= |rs| <= 3 && |rs| == (if |items| < 3 then |items| else 3)
      && forall i :: 0 <= i < |rs| ==>
        items[i].title == Some(rs[i].title) && items[i].link == Some(rs[i].link)
        && ImageOf(items[i]) == Success(rs[i].image)
  {
    if httpMethod == Options || !ValidQuery(message) {
      assert false;
    } else {
      ChatForwards(config, message, outcome);
      ReplyToResults(outcome);
      TopThreeResults(outcome.items.value, ReplyTo(outcome).results);
    }
  }

  /** A `results` answer of `ReplyTo` is the comprehension over `results[:3]` of a
      non-empty `items` list. */
  lemma ReplyToResults(outcome: ProviderOutcome)
    requires ReplyTo(outcome).Results?
    ensures outcome.Answered? && outcome.items.Some? && outcome.items.value != []
    ensures SimplifyAll(TopThree(outcome.items.value)) == Success(ReplyTo(outcome).results)
  {
  }

  /** The comprehension over `results[:3]` has min(3, n) entries, each copied from
      the item at its position. */
  lemma TopThreeResults(items: seq<Item>, rs: seq<SimplifiedResult>)
    requires items != [] && SimplifyAll(TopThree(items)) == Success(rs)
    ensures 1 <= |rs| <= 3 && |rs| == (if |items| < 3 then |items| else 3)
    ensures forall i :: 0 <= i < |rs| ==>
      items[i].title == Some(rs[i].title) && items[i].link == Some(rs[i].link)
      && ImageOf(items[i]) == Success(rs[i].image)
  {
    forall i | 0 <= i < |rs|
      ensures items[i].title == Some(rs[i].title) && items[i].link == Some(rs[i].link)
      ensures ImageOf(items[i]) == Success(rs[i].image)
    {
      TopThreeAt(items, i);
    }
  }

  /** For a POST with a valid query, the no-results reply comes exactly when the
      provider answered with `items` absent or an empty list. */
  lemma NoResultsReply(config: Config, message: Option<string>, outcome: ProviderOutcome)
    requires ValidQuery(message)
    ensures Chat(config, Post, message, outcome).response == Reply(NoResultsText)
      <==> outcome == Answered(None) || outcome == Answered(Some([]))
  {
    ChatForwards(config, message, outcome);
    ReplyToTexts(outcome);
  }

  /** For a POST with a valid query, a transport-level failure gets exactly the
      connection-error reply, and any other failure the unexpected-error reply
      with its description. */
  lemma ProviderFailureReplies(config: Config, message: Option<string>, d: string)
    requires ValidQuery(message)
    ensures Chat(config, Post, message, TransportFailure).response == Reply(ConnectErrorText)
    ensures Chat(config, Post, message, OtherFailure(d)).response == Reply(UnexpectedPrefix + d)
  {
    ChatForwards(config, message, TransportFailure);
    ChatForwards(config, message, OtherFailure(d));
  }

  /** The connection-error reply is given for a transport failure and nothing else. */
  lemma ConnectErrorOnlyFromTransport(config: Config, httpMethod: HttpMethod, message: Option<string>, outcome: ProviderOutcome)
    ensures Chat(config, httpMethod, message, outcome).response == Reply(ConnectErrorText)
      <==> httpMethod == Post && ValidQuery(message) && outcome == TransportFailure
  {
    if httpMethod == Post && ValidQuery(message) {
      ChatForwards(config, message, outcome);
      ReplyToTexts(outcome);
    }
  }

  /** The comprehension stops at the first item that cannot be reshaped, with that item's fault. */
  lemma {:induction false} FirstFaultOfAll(items: seq<Item>, k: nat)
    requires k < |items|
    requires Simplify(items[k]).Failure?
    requires forall j :: 0 <= j < k ==> Simplify(items[j]).Success?
    ensures SimplifyAll(items) == Failure(Simplify(items[k]).error)
  {
    if k > 0 {
      assert Simplify(items[0]).Success?;
      forall j | 0 <= j < k - 1 ensures Simplify(items[1..][j]).Success? {
        assert items[1..][j] == items[j + 1];
      }
      FirstFaultOfAll(items[1..], k - 1);
    }
  }

  /** The comprehension over `results[:3]` fails with the fault of item `k` when that
      is the first of the first three items that cannot be reshaped. */
  lemma TopThreeFirstFault(items: seq<Item>, k: nat)
    requires k < |items| && k < 3
    requires Simplify(items[k]).Failure?
    requires forall j :: 0 <= j < k ==> Simplify(items[j]).Success?
    ensures SimplifyAll(TopThree(items)) == Failure(Simplify(items[k]).error)
  {
    var top := TopThree(items);
    forall j | 0 <= j <= k ensures top[j] == items[j] {
      TopThreeAt(items, j);
    }
    FirstFaultOfAll(top, k);
  }

  /** A fault in the comprehension over a non-empty `items` becomes the unexpected-error reply. */
  lemma ReplyToFault(items: seq<Item>, f: Fault)
    requires items != [] && SimplifyAll(TopThree(items)) == Failure(f)
    ensures ReplyTo(Answered(Some(items))) == Reply(UnexpectedPrefix + Describe(f))
  {
    assert Some(items).GetOr([]) == items;
  }

  /** When the first of the first three items that cannot be reshaped is item `k`,
      its fault, described as Python would, ends the unexpected-error reply. */
  lemma FirstFaultDecides(config: Config, message: Option<string>, items: seq<Item>, k: nat)
    requires ValidQuery(message)
    requires k < |items| && k < 3
    requires Simplify(items[k]).Failure?
    requires forall j :: 0 <= j < k ==> Simplify(items[j]).Success?
    ensures Chat(config, Post, message, Answered(Some(items))).response
      == Reply(UnexpectedPrefix + Describe(Simplify(items[k]).error))
  {
    ChatForwards(config, message, Answered(Some(items)));
    TopThreeFirstFault(items, k);
    ReplyToFault(items, Simplify(items[k]).error);
  }

  /** `str(KeyError("title"))` is `'title'`, quotes included; likewise for `link`. */
  lemma KeyErrorTexts()
    ensures Describe(KeyMissing(Title)) == "'title'"
    ensures Describe(KeyMissing(Link)) == "'link'"
  {
  }

  /** Different faults are described differently, so the unexpected-error reply
      names the fault that caused it. */
  lemma DescribeInjective(f: Fault, g: Fault)
    requires Describe(f) == Describe(g)
    ensures f == g
  {
  }

  /** The unexpected-error reply of a reshaping fault determines the fault. */
  lemma FaultReplyNamesFault(f: Fault, g: Fault)
    requires UnexpectedPrefix + Describe(f) == UnexpectedPrefix + Describe(g)
    ensures f == g
  {
  }

  /** A used item with no `title`, or with a `title` but no `link`, is a `KeyError`
      that lands in the unexpected-error reply. */
  lemma MissingKeyIsUnexpectedError(config: Config, message: Option<string>, items: seq<Item>, k: nat)
    requires ValidQuery(message)
    requires k < |items| && k < 3
    requires items[k].title.None? || items[k].link.None?
    requires forall j :: 0 <= j < k ==> Simplify(items[j]).Success?
    ensures items[k].title.None? ==>
      Chat(config, Post, message, Answered(Some(items))).response == Reply(UnexpectedPrefix + "'title'")
    ensures items[k].title.Some? ==>
      Chat(config, Post, message, Answered(Some(items))).response == Reply(UnexpectedPrefix + "'link'")
  {
    FirstFaultDecides(config, message, items, k);
    KeyErrorTexts();
  }

  /** A used item whose `cse_image` is an empty list is an `IndexError` that lands in
      the unexpected-error reply, not an absent image. */
  lemma EmptyImageListIsUnexpectedError(config: Config, message: Option<string>, items: seq<Item>, k: nat)
    requires ValidQuery(message)
    requires k < |items| && k < 3
    requires items[k].title.Some? && items[k].link.Some?
    requires items[k].pagemap.Some? && items[k].pagemap.value.cseImage == Some([])
    requires forall j :: 0 <= j < k ==> Simplify(items[j]).Success?
    ensures Chat(config, Post, message, Answered(Some(items))).response
      == Reply(UnexpectedPrefix + "list index out of range")
  {
    FirstFaultDecides(config, message, items, k);
  }

  /** Only OPTIONS gets the empty body: every POST answer is JSON. */
  lemma OnlyOptionsEmpty(config: Config, httpMethod: HttpMethod, message: Option<string>, outcome: ProviderOutcome)
    ensures Chat(config, httpMethod, message, outcome).response == EmptyBody <==> httpMethod == Options
  {
    if httpMethod == Post && ValidQuery(message) {
      ChatForwards(config, message, outcome);
    } else {
      ChatWithoutCall(config, httpMethod, message, outcome);
    }
  }

  /** A `reply` answer carries one of the four texts: the guidance, no-results and
      connection-error texts, or the unexpected-error prefix followed by a description. */
  lemma ReplyIsOneOfFour(config: Config, httpMethod: HttpMethod, message: Option<string>, outcome: ProviderOutcome)
    ensures Chat(config, httpMethod, message, outcome).response.Reply? ==>
      var text := Chat(config, httpMethod, message, outcome).response.text;
      text == InvalidQueryText || text == NoResultsText || text == ConnectErrorText
      || StartsWith(text, UnexpectedPrefix)
  {
    if httpMethod == Post && ValidQuery(message) {
      ChatForwards(config, message, outcome);
    } else {
      ChatWithoutCall(config, httpMethod, message, outcome);
    }
  }

  // ------------------------------------------------------------- scenarios

  /** `{"message": "  "}` gets the guidance reply. */
  lemma BlankScenario(config: Config, outcome: ProviderOutcome)
    ensures Chat(config, Post, Some("  "), outcome) == Exchange(None, Reply(InvalidQueryText))
  {
    assert ' ' in Whitespace;
  }

  function TwoItems(): seq<Item> {
    [Item(Some("A"), Some("http://a"), None), Item(Some("B"), Some("http://b"), None)]
  }

  /** Two items without `pagemap` reshape into two results in the same order, without images. */
  lemma TwoItemsReply()
    ensures ReplyTo(Answered(Some(TwoItems())))
      == Results([SimplifiedResult("A", "http://a", None), SimplifiedResult("B", "http://b", None)])
  {
    var items := TwoItems();
    assert TopThree(items) == items;
    var a, b := SimplifiedResult("A", "http://a", None), SimplifiedResult("B", "http://b", None);
    assert Simplify(items[0]) == Success(a);
    assert Simplify(items[1]) == Success(b);
    assert SimplifyAll(items).value == [a, b];
  }

  /** A chat message with two such items in the provider's answer gets those two results. */
  lemma TwoItemsScenario(config: Config)
    ensures Chat(config, Post, Some("q"), Answered(Some(TwoItems()))).response
      == Results([SimplifiedResult("A", "http://a", None), SimplifiedResult("B", "http://b", None)])
  {
    assert "q"[0] !in Whitespace;
    ChatForwards(config, Some("q"), Answered(Some(TwoItems())));
    TwoItemsReply();
  }
}
