# chatbot-backend `/chat` relay, modelled in Dafny

The backend has one endpoint, `/chat`. It strips the chat widget's `message`,
sends it as the query `q` of one Google Custom Search request, and reshapes the
answer into at most three `{title, link, image}` entries. Otherwise it answers
with one of four fixed reply texts. This project models that handler, `chat()`
in `app.py`, as one pure function, `Relay.Chat`, and proves what it promises.

- `wrappers.dfy`, module `Wrappers`: `Option` and `Result`.
- `pystr.dfy`, module `PyStr`: Python's `str.strip`. `StripChars(s, cs)` is
  `strip(chars)`. `Strip(s)` is `strip()` with no argument: it strips the
  characters Python's `str.isspace()` accepts, listed in `Whitespace`.
- `relay.dfy`, module `Relay`: the entities and the handler.
  - `Item`, `Pagemap` and `Image` are the provider's JSON, with every key optional.
  - `ProviderOutcome` is what the outbound call ends in. `Answered(None)` stands
    for an answer whose `items` key is absent or `null`; both are falsy in the
    handler's `if results:` test.
  - `ImageOf`, `Simplify`, `SimplifyAll` and `TopThree` model the
    `results[:3]` comprehension. They include the `.get` default chain and the
    `KeyError`/`IndexError` faults.
  - `ValidQuery` is the handler's test of the message: present and not
    whitespace only, so that its stripped form is non-empty.
  - `Chat` returns an `Exchange`: the provider request it sends (`None` when it
    sends none) and the response body.
- `relay_properties.dfy`, module `RelayProperties`: the handler's properties,
  stated over `Chat` for all inputs.

Inputs that stand for I/O or configuration:
- The provider's answer is the `outcome` argument of `Chat`. `Chat` only reads
  it when `call` is `Some`, and `NoCallNoDependence` proves this.
- The API key and the search-engine id are the `Config` argument. Each is
  `Option<string>`, because `os.getenv` gives `None` for an unset variable.
  They are passed through into the request unchanged.

Points where the code's behaviour is easy to misread, and which the model follows:
- The comment on `app.py:21` says the CORS library handles the preflight, but
  the code reads and strips the body first (`app.py:20`) and only then tests
  the method (`app.py:21`). `Chat` keeps that order. Because it takes the
  already-parsed message as an argument, the body read cannot fail in the model.
- An empty `cse_image` list does not give a null image: `[0]` raises
  `IndexError` (`app.py:47`), which the generic handler turns into the
  unexpected-error reply (`app.py:56-57`). `ImageOf` and
  `EmptyImageListIsUnexpectedError` model this.
- A `KeyError` or `IndexError` during reshaping gets CPython's `str(e)` as its
  description (`Describe`): `'title'` or `'link'` with the quotes, and
  `list index out of range`. `str(KeyError(k))` is `repr(k)`, which is `k` in
  single quotes only for keys like these two, so `Fault` names its key by the
  `ItemKey` datatype (`Title` or `Link`) rather than by an arbitrary string.
- In `requests` 2.27 and later, a body that does not decode as JSON raises
  `requests.exceptions.JSONDecodeError`, a subclass of `RequestException`. It
  therefore gets the connection-error reply and belongs to `TransportFailure`.

## Model

| member | source | states |
|---|---|---|
| `PyStr.StripChars` | app.py:20 | no character of the set at either end of the result; the result is empty exactly when every character of the input is in the set |
| `PyStr.Strip` | app.py:20 | `str.strip()`: no Python whitespace at either end; empty exactly when the message is whitespace only |
| `PyStr.StripLeading` | app.py:20 | the result is a suffix of the input, everything dropped is in the set, and it does not start with a character of the set |
| `PyStr.StripTrailing` | app.py:20 | the result is a prefix of the input, everything dropped is in the set, and it does not end with a character of the set |
| `PyStr.StripSplits` | app.py:20 | every string is padding, then its stripped form, then padding |
| `PyStr.StripPadded` | app.py:20 | stripping the padding off a string with unpadded ends gives that string back, so the stripped form is unique |
| `PyStr.StripUnpadded` | app.py:20 | a string with no whitespace at either end is its own stripped form |
| `PyStr.StripIdempotent` | app.py:20 | stripping twice is stripping once |
| `Relay.ImageOf` | app.py:47 | `IndexError` exactly when `cse_image` is an empty list; no image exactly when `pagemap` or `cse_image` is absent or the first image has no `src`; otherwise the first image's `src` |
| `Relay.Simplify` | app.py:44-48 | succeeds exactly when `title` and `link` are present and the image lookup does not fail, and then copies them; a missing `title` is `KeyError('title')` before `link` is looked at, then `KeyError('link')`, then the `IndexError` |
| `Relay.SimplifyAll` | app.py:43-50 | succeeds exactly when every item can be reshaped, giving one entry per item in the same order; otherwise fails with the fault of an item whose predecessors all succeed |
| `Relay.TopThree` | app.py:49 | `results[:3]`: a prefix of the items of length min(3, n) |
| `Relay.ReplyTo` | app.py:34-57 | once the request is sent, the answer is never the empty body: it is `results` with 1 to 3 entries, or `reply` with the no-results text, the connection-error text or a text that starts with the unexpected-error prefix |
| `Relay.Chat` | app.py:19-32 | OPTIONS gets the empty body and sends nothing; a POST with a blank or absent message gets the guidance reply and sends nothing; otherwise it sends one request to the search endpoint with the configured key and engine id and `q` set to the stripped, non-empty message |
| `RelayProperties.ChatForwards` | app.py:24-59 | for a POST with a valid query, a request is sent and the answer is decided by the provider outcome alone |
| `RelayProperties.ChatWithoutCall` | app.py:21-25 | when no request is sent, OPTIONS gets the empty body and a POST gets the guidance reply |
| `RelayProperties.ReplyToTexts` | app.py:34-57 | once sent, the guidance text never comes back; the no-results text comes exactly for absent or empty `items`; the connection-error text comes exactly for a transport failure |
| `RelayProperties.BlankMessageRejected` | app.py:20-25 | a POST gets `{"reply": "Please provide a valid query."}` if and only if its message is absent or whitespace only, and then no request is sent |
| `RelayProperties.QueryIsStrippedMessage` | app.py:20-32 | a request is sent if and only if the method is POST and the query is valid; its `q` is the message minus its whitespace padding, and the key and `cx` pass through unchanged |
| `RelayProperties.NoCallNoDependence` | app.py:21-25 | when no request is sent, the answer does not depend on the provider |
| `RelayProperties.TopThreeAt` | app.py:49 | the slice keeps the provider's order |
| `RelayProperties.CompleteItemsGiveResults` | app.py:39-51 | a non-empty `items` whose first three members have `title` and `link` and no empty `cse_image` gives `results` of length min(3, \|items\|), the i-th entry copying item i's title, link and image |
| `RelayProperties.CompleteItemsReply` | app.py:39-51 | a non-empty `items` whose first three members have `title` and `link` and no empty `cse_image` gives the `results` answer of the comprehension over `results[:3]` |
| `RelayProperties.ResultsComeFromItems` | app.py:39-51 | a `results` answer means a valid POST whose provider answered a non-empty `items`; it has 1 to 3 entries, min(3, \|items\|) of them, each copied from the item at the same position |
| `RelayProperties.ReplyToResults` | app.py:39-51 | once sent, a `results` answer is the comprehension over `results[:3]` of a non-empty `items` list |
| `RelayProperties.TopThreeResults` | app.py:43-50 | a successful comprehension over the slice of a non-empty `items` has min(3, n) entries, each copied from the item at its position |
| `RelayProperties.NoResultsReply` | app.py:39-53 | for a valid POST, the no-results reply comes if and only if `items` is absent or empty |
| `RelayProperties.ProviderFailureReplies` | app.py:54-57 | a transport failure gives exactly the connection-error reply; another failure gives the unexpected-error prefix followed by its description |
| `RelayProperties.ConnectErrorOnlyFromTransport` | app.py:34-55 | the connection-error reply is given if and only if a valid POST's request failed at the transport level |
| `RelayProperties.FirstFaultOfAll` | app.py:43-50 | the comprehension fails with the fault of the first item that cannot be reshaped |
| `RelayProperties.FirstFaultDecides` | app.py:42-57 | if item k is the first of the first three items that cannot be reshaped, the reply is the unexpected-error prefix plus that fault's description |
| `RelayProperties.KeyErrorTexts` | app.py:56-57 | the descriptions of the two `KeyError`s are `'title'` and `'link'` |
| `RelayProperties.DescribeInjective` | app.py:57 | different reshaping faults get different `str(e)` texts, so the description names the fault |
| `RelayProperties.FaultReplyNamesFault` | app.py:56-57 | two unexpected-error replies for reshaping faults are equal only for the same fault |
| `RelayProperties.MissingKeyIsUnexpectedError` | app.py:45-46 | a used item missing `title` (or, failing that, `link`) gives the unexpected-error reply naming that key |
| `RelayProperties.EmptyImageListIsUnexpectedError` | app.py:47 | a used item with an empty `cse_image` list gives the unexpected-error reply with `list index out of range`, not a null image |
| `RelayProperties.TopThreeFirstFault` | app.py:43-50 | the comprehension over `results[:3]` fails with the fault of the first of the first three items that cannot be reshaped |
| `RelayProperties.ReplyToFault` | app.py:56-57 | a fault in the comprehension over a non-empty `items` becomes the unexpected-error prefix followed by the fault's description |
| `RelayProperties.OnlyOptionsEmpty` | app.py:21-22 | the empty body is answered exactly to OPTIONS, so every POST answer is JSON |
| `RelayProperties.ReplyIsOneOfFour` | app.py:24-57 | a `reply` answer carries the guidance text, the no-results text, the connection-error text or the unexpected-error prefix followed by a description |
| `RelayProperties.BlankScenario` | app.py:20-25 | `{"message": "  "}` gets the guidance reply and sends nothing |
| `RelayProperties.TwoItemsReply` | app.py:39-51 | two items without `pagemap` reshape into two results, in order, with null images |
| `RelayProperties.TwoItemsScenario` | app.py:39-51 | two items without `pagemap` give two results, in order, with null images |

## Left out

- Flask application setup, routing and `app.run(debug=True)`. The framework rejects methods other than POST and OPTIONS, so `HttpMethod` has only those two.
- The `Access-Control-Allow-*` headers. They come from flask_cors `CORS(app)`, a library whose code is not part of this model.
- The HTTP status: every answer of `chat()` has status 200, so `Response` records only the body.
- The `requests.get` call, `raise_for_status` and `response.json()`. These are network I/O, replaced by the `ProviderOutcome` argument.
- `requests` leaves out query parameters whose value is `None`. `SearchRequest` keeps the key and id as `Option<string>` and does not model how they are encoded in the URL.
- Loading `.env` and reading the environment, replaced by the `Config` argument.
- `jsonify` serialisation. The model builds the reply value, not the JSON bytes.
- The crash raised outside the `try` when the body is not JSON, when it is JSON but not an object (a list, say, which has no `.get`), or when `message` is present but is not a string or is `null`. This is framework-level behaviour. The `Option<string>` type of `message` leaves these cases out.
- A browser preflight is an OPTIONS request without a JSON body, so it fails at `app.py:20` and never reaches the method test on `app.py:21`. `Chat`'s OPTIONS clause and `OnlyOptionsEmpty` describe only OPTIONS requests that do carry a JSON object body.
- Python strings decoded from JSON can hold lone surrogates (`"\ud800"`). Dafny's `char` is a Unicode scalar value, so such messages and result fields cannot be represented.
- The provider JSON is typed. `items`, `pagemap` and `cse_image` are lists or objects, and `title`, `link` and `src` are strings. Exceptions from other JSON shapes, such as `data` not being an object, are represented by `OtherFailure` with their description as an opaque string.
- For `title`, `link`, `pagemap` and `cse_image`, `None` means the key is absent, not JSON `null`. A `null` `title` or `link` raises no `KeyError` at `app.py:45-46` and is copied into the entry as `null`. A `null` `pagemap` or `cse_image` raises `AttributeError` or `TypeError` at `app.py:47` rather than giving a null image. Both cases are outside the typed model.
- The description carried by `OtherFailure` is opaque. The model does not claim what Python's `str(e)` would be for those exceptions.

## Verification

Run `dafny verify wrappers.dfy pystr.dfy relay.dfy relay_properties.dfy` to check all four files together.
