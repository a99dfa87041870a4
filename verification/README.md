# Candidate service handlers: a Dafny model

This project models the three HTTP handlers of a small serverless "candidates" service:

- `gtg`, a health check;
- `candidates`, which lists every stored candidate;
- `candidate`, which reads or creates one candidate named by the request path.

The model covers the request dispatch and the response contract. That means name validation, the verb checks, the status codes, the `{"error": message}` envelope and the effect of each request on the document collection.

- `Envelope` (envelope.dfy): responses are a status plus a JSON body value (no body, one object, or an array of objects). Errors use the `{"error": message}` object with the three fixed messages.
- `DocumentStore` (store.dfy): the "candidates" collection is an in-memory map from document name to record. The store's failure mode is a field: while `outage` is `Some(msg)`, every store call raises with `msg`. `Collection` is the live store. Its `Get`, `Set` and `Stream` methods stand for the client's `document().get()`, `document().set()` and `stream()`. Each call is logged in a ghost `calls` sequence, so contracts can say that the store was not touched at all. `Stream` returns the records in an order the store chooses. Its contract is stated as a multiset (`RecordBag`) and says nothing about order.
- `Handlers` (handlers.dfy): `Gtg`, `ParseName`, `Strip` (Python's `str.strip()`), the reference definition `CandidateExchange`, and the imperative handlers `Candidate` and `Candidates` that drive a `Collection`. `Candidate` is proved equal to `CandidateExchange`. `Candidates` keeps the source's copying loop.
- `HandlerProperties` (properties.dfy): the handlers' promises as lemmas over `CandidateExchange` and the record bag.

A few points where the code decides the behaviour:

- The name is `path[1:]`. The first character is dropped whatever it is. An empty path gives the empty name, which is rejected. So `candidate` answers only for paths of the form `/<name>`. A path such as `/candidates/alice` gives the name `candidates/alice`, which still holds a `/` and is rejected with 400. The worked example therefore uses `/alice`.
- `gtg` runs the hostname command before it looks at `details`. An exception raised by the popen or read call gives 500 with that exception's message, even when `details` is absent. A command that fails without raising (non-zero exit, not installed) does not give 500: its standard output, usually empty, is used as the hostname and the answer is 200. The shell's error text goes to standard error and never reaches the response.
- `gtg` reports the stripped command output as `hostname`. That output can be empty, so a non-empty hostname is not guaranteed.
- `details` counts when it is present and non-empty, which is Python's truthiness of the query value. `?details=` gives the empty 200.

## Model

| member | source | states |
|---|---|---|
| `Envelope.ErrorResponse` | 01-cloudfunctions/code/main.py:30 | an error response carries the given status and a body whose only field is "error", holding the message |
| `DocumentStore.Fetch` | 01-cloudfunctions/code/main.py:56-59 | a document read raises exactly when the store is down, and with the outage message; otherwise it finds a record exactly when the key is stored, and that record is the stored one |
| `DocumentStore.Upsert` | 01-cloudfunctions/code/main.py:69-70 | a write stores the record under its key when the store is up, and every other key keeps its presence and record; a write that raises changes nothing |
| `DocumentStore.Collection.Get` | 01-cloudfunctions/code/main.py:56-57 | reading one document logs one read of that key and returns what `Fetch` gives on the current state |
| `DocumentStore.Collection.Set` | 01-cloudfunctions/code/main.py:69-70 | writing one document logs one write and leaves the documents as `Upsert` says; it raises, with the outage message, exactly when the store is down |
| `DocumentStore.Collection.Stream` | 01-cloudfunctions/code/main.py:35 | streaming the collection logs one scan; it raises exactly when the store is down, and otherwise yields every stored record once (as a multiset) in an order the store chooses |
| `DocumentStore.RecordBagSize` | 01-cloudfunctions/code/main.py:35-38 | the bag of streamed records has one element per stored document |
| `DocumentStore.RecordBagCount` | 01-cloudfunctions/code/main.py:35-38 | a record occurs in the bag exactly as many times as documents hold it |
| `DocumentStore.RecordBagRemove` | 01-cloudfunctions/code/main.py:37-38 | taking one document out of the collection takes exactly one copy of its record out of the bag, whichever document is taken |
| `Handlers.Strip` | 01-cloudfunctions/code/main.py:12 | the stripped hostname is a contiguous slice of the command output, starting right after its leading whitespace; everything before and everything after the slice is whitespace, and the slice starts and ends with a non-whitespace character (so every address `hostname -I` prints on its line is kept) |
| `Handlers.StripEmptyIffAllSpace` | 01-cloudfunctions/code/main.py:12 | the stripped hostname is empty exactly when the command output is all whitespace |
| `Handlers.Gtg` | 01-cloudfunctions/code/main.py:8-23 | status 200 exactly when the popen/read call returns; 500 with the exception's message when it raises; a command that fails without raising yields its standard output (possibly empty) as the hostname; on 200 the body is empty exactly when `details` is absent or the empty string (`?details=` counts as absent, Python's truthiness of `if details:`), and otherwise is exactly {connected: "true", hostname: stripped output} |
| `Handlers.ParseName` | 01-cloudfunctions/code/main.py:48-50 | a name is accepted exactly when the path has at least two characters and no '/' after the first; the accepted name is the path minus its first character |
| `Handlers.CandidateDoc` | 01-cloudfunctions/code/main.py:68 | the written record has the single field CandidateName, holding the name |
| `Handlers.CandidateExchange` | 01-cloudfunctions/code/main.py:46-76 | the reference definition of `candidate` on a store value; its own contract only summarises every exchange: the status is one of 200, 400, 404, 405 and 500; at most one store call is made, and one is made exactly for GET or POST on a valid name; the documents change only on a POST of a valid name while the store is up. Its full promises are the `HandlerProperties` lemmas |
| `Handlers.Candidate` | 01-cloudfunctions/code/main.py:46-76 | the handler over the live collection returns the response of `CandidateExchange`, leaves the documents it specifies, and appends exactly its store calls to the log |
| `Handlers.Candidates` | 01-cloudfunctions/code/main.py:26-43 | a non-GET verb gives 405 with no store call, whatever is stored; a GET makes one scan, answers 500 with the store's message when it raises, and otherwise answers 200 with an array of one entry per stored document whose multiset is the record bag |
| `HandlerProperties.BadRequestExactlyOnInvalidName` | 01-cloudfunctions/code/main.py:48-53 | status 400 arises exactly for an invalid name, for every verb, so validation precedes dispatch; the response is then the "name is invalid" error, with the documents unchanged and no store call |
| `HandlerProperties.GetIsReadOnlyLookup` | 01-cloudfunctions/code/main.py:53-62 | GET on a valid name makes one read of that name and never changes the documents; it answers 200 with the stored record, 404 "name not found" when absent, or 500 when the store raises |
| `HandlerProperties.PostUpserts` | 01-cloudfunctions/code/main.py:64-71 | POST on a valid name makes one write of {CandidateName: name}; when the store is up the documents become the old ones with that key overwritten and the answer is 200 with the same object; when it raises, 500 and no change |
| `HandlerProperties.OtherVerbsNotAllowed` | 01-cloudfunctions/code/main.py:73 | any other verb on a valid name gives 405 "Method not allowed", with no store call and no change, even while the store is down |
| `HandlerProperties.OnlyPostWrites` | 01-cloudfunctions/code/main.py:53-73 | only a POST on a valid name can change the documents, and never any key but that name |
| `HandlerProperties.PostThenGet` | 01-cloudfunctions/code/main.py:53-71 | after a successful POST, a GET of the same name answers 200 with {CandidateName: name} |
| `HandlerProperties.PostIdempotent` | 01-cloudfunctions/code/main.py:64-71 | a second POST of the same name leaves the documents as the first did and gives the same response |
| `HandlerProperties.ListingMatchesDocuments` | 01-cloudfunctions/code/main.py:34-40 | a listing whose multiset is the record bag has one entry per document; each record appears as often as documents hold it, appears exactly when some document holds it, and an empty collection lists as [] |
| `HandlerProperties.AliceScenario` | 01-cloudfunctions/code/main.py:46-73 | on an empty collection, POST /alice and GET /alice give 200 {CandidateName: "alice"}, GET /bob gives 404, GET /a/b gives 400 and DELETE /alice gives 405 |

## Left out

- Store client construction: building the store client and selecting the "candidates" collection (lines 32-33, 54-56, 65-69) are not modelled. A failure there counts as the same store outage as the call that follows.
- Store failures: a raising store call is modelled as failing as a whole. A stream that breaks part-way and a write that raises after it has taken effect are not modelled. A failing `Set` leaves the documents unchanged.
- Record values: records hold string fields only. Documents written by other clients with non-string values are outside the model.
- Serialisation: Flask `Response`/`jsonify` byte encoding and the `application/json` mimetype that every response carries are not modelled. A body is a JSON value. A failure of `jsonify` itself is not modelled.
- Hostname: the shell call `hostname -I` (line 12) is an input to `Gtg`. It is given either the standard output that the popen/read call returned, whatever the command's exit status, or the message of an exception that popen or read raised.
- Logging: `logging.exception` calls (lines 22, 42, 75) are not modelled. They do not affect the response.
- Registration: the `functions_framework.http` registration and the runtime's routing of requests to the handlers are not modelled.
- Concurrency: two requests racing on one document are not modelled. Each handler call is one sequential exchange.
- Listing order: `Handlers.Candidates` does not fix the order of the listing. The order is chosen by the store, so only the multiset and the length are stated.
