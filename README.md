# AbstractGoogleClient: URL normalization and client builder

This project models the configuration layer of the Google API Java client's
`AbstractGoogleClient`. A generated API client uses it to turn a root URL (such
as `https://www.googleapis.com`) and a service path (such as `/tasks/v1`) into a
base URL. The model covers:

- `normalizeRootUrl`, which appends a missing trailing `/`.
- `normalizeServicePath`, which maps `""` and `"/"` to `""` and rejects any
  other one-character path. For a longer path it appends a missing trailing `/`
  and then removes one leading `/`.
- The immutable client (`Client`): its constructors, its base URL and batch
  URL, and the decisions `buildHttpRequest` makes on each request.
- The mutable `Builder`, as a Dafny class whose setters each change one field.

Java `null` becomes `Option.None`. Each thrown exception becomes a
`Result.Err` or `Outcome.Fail` that carries an `Error`:

- `Preconditions.checkNotNull` and null dereferences become `NullPointer`.
- `Preconditions.checkArgument` becomes `IllegalArgument`.

Opaque collaborators are represented by a `Ref` identity. These are transports,
object parsers, initializers, subscription managers and request bodies.

The normalizers are pure functions. The builder is a class. Its invariant
`Valid()` says that the root URL ends with `/` and that the service path is
empty or ends with `/`. Each setter preserves that invariant. Each setter's
`modifies` clause names only its own field, so the verifier checks that nothing
else changes.

Three facts about the service path came out of the proofs:

- For paths of two or more characters, the order of "append `/`" and "strip
  one leading `/`" does not matter (`AppendAndStripCommute`). The order
  matters only for `""` and `"/"`, exactly the inputs the code does not send
  through those two steps.
- Only one leading slash is removed, so `"//"` normalizes to `"/"`. That result
  begins with a slash, even though the accessor's documentation says a service
  path does not. Normalizing a path a second time therefore changes it exactly
  when the path starts with `"//"` (`NormalizeServicePathIdempotentIff`).
- With such a path, the base URL has a double slash where the root URL and the
  service path meet (`DoubleSlashServicePathDoublesJoin`). The root URL
  normalizer likewise keeps a root such as `https://x//`. When the path is
  canonical and non-empty and the root does not end in `//`, there is exactly
  one slash at the join (`BaseUrlSingleSlashAtJoin`).

The model applies the two service-path steps in the code's order: append
first, then strip. The commutation lemma shows that reading the steps in the
other order gives the same result on every input that reaches them.

## Model

| member | source | states |
|---|---|---|
| `AbstractGoogleClient.WithTrailingSlash` | google-api-client/src/main/java/com/google/api/client/googleapis/services/AbstractGoogleClient.java:400-402 | the result ends with `/`, extends the input by at most one character, and equals the input when the input already ends with `/` |
| `AbstractGoogleClient.WithoutLeadingSlash` | google-api-client/src/main/java/com/google/api/client/googleapis/services/AbstractGoogleClient.java:420-422 | exactly one leading `/` is removed when present; otherwise the input is returned unchanged |
| `AbstractGoogleClient.NormalizeRootUrl` | google-api-client/src/main/java/com/google/api/client/googleapis/services/AbstractGoogleClient.java:397-404 | fails with the "root URL cannot be null." NullPointerException exactly on null; otherwise the result ends with `/` and is the input with a slash appended only if one was missing |
| `AbstractGoogleClient.NormalizeRootUrlIdempotent` | google-api-client/src/main/java/com/google/api/client/googleapis/services/AbstractGoogleClient.java:397-404 | normalizing a root URL twice gives the same result as normalizing it once |
| `AbstractGoogleClient.NormalizeRootUrlFixedPoints` | google-api-client/src/main/java/com/google/api/client/googleapis/services/AbstractGoogleClient.java:397-404 | a root URL is returned unchanged if and only if it already ends with `/` |
| `AbstractGoogleClient.NormalizeServicePath` | google-api-client/src/main/java/com/google/api/client/googleapis/services/AbstractGoogleClient.java:406-425 | fails exactly on null (NullPointerException with its message) or on a one-character path other than `/` (IllegalArgumentException with its message); maps `""` and `"/"` to `""`; for longer paths the result ends with `/` and is the slash-terminated input minus one leading `/` when the input has one |
| `AbstractGoogleClient.AppendAndStripCommute` | google-api-client/src/main/java/com/google/api/client/googleapis/services/AbstractGoogleClient.java:416-423 | for paths of length at least 2, appending the trailing slash and removing one leading slash give the same result in either order |
| `AbstractGoogleClient.NormalizeServicePathStripThenAppend` | google-api-client/src/main/java/com/google/api/client/googleapis/services/AbstractGoogleClient.java:406-408 | removing one leading slash and then appending a missing trailing slash gives the code's result on every path of length at least 2 |
| `AbstractGoogleClient.NormalizeServicePathFixesCanonical` | google-api-client/src/main/java/com/google/api/client/googleapis/services/AbstractGoogleClient.java:138-148 | `""` and every path that ends with `/` and does not begin with `/` are returned unchanged |
| `AbstractGoogleClient.NormalizedServicePathCanonicalIff` | google-api-client/src/main/java/com/google/api/client/googleapis/services/AbstractGoogleClient.java:410-424 | a normalized path is canonical (no leading `/`) if and only if the input does not start with `//` |
| `AbstractGoogleClient.NormalizeServicePathIdempotentIff` | google-api-client/src/main/java/com/google/api/client/googleapis/services/AbstractGoogleClient.java:410-424 | normalizing a path a second time leaves it unchanged if and only if the input does not start with `//` |
| `AbstractGoogleClient.NormalizeServicePathExamples` | google-api-client/src/main/java/com/google/api/client/googleapis/services/AbstractGoogleClient.java:410-424 | worked cases: `/v1` gives `v1/`, `tasks/v1` gives `tasks/v1/`, `/` and `""` give `""`, `a` is rejected, and `//` gives `/` |
| `AbstractGoogleClient.Client.BaseUrl` | google-api-client/src/main/java/com/google/api/client/googleapis/services/AbstractGoogleClient.java:150-160 | the base URL is the root URL followed by the service path, and it ends with `/` for every valid client |
| `AbstractGoogleClient.Client.BatchUrl` | google-api-client/src/main/java/com/google/api/client/googleapis/services/AbstractGoogleClient.java:380-385 | the batch URL is the root URL followed by exactly `batch` |
| `AbstractGoogleClient.Client.BuildHttpRequest` | google-api-client/src/main/java/com/google/api/client/googleapis/services/AbstractGoogleClient.java:241-254 | the client's parser is installed; User-Agent becomes the application name exactly when one is configured and is otherwise untouched; content becomes EmptyContent exactly when the method argument is `POST` and no content was given; method and URL are untouched |
| `AbstractGoogleClient.BuildHttpRequestIdempotent` | google-api-client/src/main/java/com/google/api/client/googleapis/services/AbstractGoogleClient.java:241-254 | a sanity property of the model, not a source promise (the source builds a new request on each call): applying the decoration twice gives the same result as applying it once |
| `AbstractGoogleClient.NewClient` | google-api-client/src/main/java/com/google/api/client/googleapis/services/AbstractGoogleClient.java:110-124 | construction succeeds exactly when the root URL is not null, the service path normalizes and the transport is not null; the first failing check decides the exception; on success the client is valid, holds both normalized URLs and stores every other argument unchanged |
| `AbstractGoogleClient.NewClientWithDefaults` | google-api-client/src/main/java/com/google/api/client/googleapis/services/AbstractGoogleClient.java:90-95 | the short constructor has no Google request initializer, application name or subscription manager, and does not suppress pattern checks |
| `AbstractGoogleClient.ConstructedBaseUrlEndsWithSlash` | google-api-client/src/main/java/com/google/api/client/googleapis/services/AbstractGoogleClient.java:150-160 | every constructed client's base URL equals normalized root plus normalized path and ends with `/` |
| `AbstractGoogleClient.BaseUrlSingleSlashAtJoin` | google-api-client/src/main/java/com/google/api/client/googleapis/services/AbstractGoogleClient.java:138-160 | with a non-empty canonical service path and a root URL that does not end in `//`, the root's last character is `/` and the characters on either side of it are not, so exactly one `/` separates root and path in the base URL |
| `AbstractGoogleClient.DoubleSlashServicePathDoublesJoin` | google-api-client/src/main/java/com/google/api/client/googleapis/services/AbstractGoogleClient.java:410-424 | the service path `//` is accepted and yields the base URL `https://x//` for root `https://x` |
| `AbstractGoogleClient.NewClientKeepsCanonicalValues` | google-api-client/src/main/java/com/google/api/client/googleapis/services/AbstractGoogleClient.java:110-124 | constructing a client from an already-canonical root URL and service path stores exactly those values |
| `AbstractGoogleClient.NewBuilder` | google-api-client/src/main/java/com/google/api/client/googleapis/services/AbstractGoogleClient.java:477-484 | the builder is created exactly when the transport and parser are not null, the root URL is not null and the service path normalizes; checks run in source order; a fresh builder is valid, holds the normalized URLs and the given initializer, and has every other optional setting absent or false |
| `AbstractGoogleClient.Builder.constructor` | google-api-client/src/main/java/com/google/api/client/googleapis/services/AbstractGoogleClient.java:477-484 | after its checks pass, the builder stores the normalized URLs; `suppressPatternChecks` starts out false and the other optional settings start out absent |
| `AbstractGoogleClient.Builder.SetRootUrl` | google-api-client/src/main/java/com/google/api/client/googleapis/services/AbstractGoogleClient.java:530-533 | stores the normalized root URL and keeps the invariant; on null it fails and nothing changes; only `rootUrl` may change |
| `AbstractGoogleClient.Builder.SetServicePath` | google-api-client/src/main/java/com/google/api/client/googleapis/services/AbstractGoogleClient.java:566-569 | stores the normalized service path and keeps the invariant; when normalization fails nothing changes; only `servicePath` may change |
| `AbstractGoogleClient.Builder.SetGoogleClientRequestInitializer` | google-api-client/src/main/java/com/google/api/client/googleapis/services/AbstractGoogleClient.java:584-588 | stores the argument and changes no other field |
| `AbstractGoogleClient.Builder.SetHttpRequestInitializer` | google-api-client/src/main/java/com/google/api/client/googleapis/services/AbstractGoogleClient.java:603-606 | stores the argument and changes no other field |
| `AbstractGoogleClient.Builder.SetApplicationName` | google-api-client/src/main/java/com/google/api/client/googleapis/services/AbstractGoogleClient.java:625-628 | stores the argument and changes no other field |
| `AbstractGoogleClient.Builder.SetSubscriptionManager` | google-api-client/src/main/java/com/google/api/client/googleapis/services/AbstractGoogleClient.java:642-645 | stores the argument and changes no other field |
| `AbstractGoogleClient.Builder.SetSuppressPatternChecks` | google-api-client/src/main/java/com/google/api/client/googleapis/services/AbstractGoogleClient.java:652-667 | stores the argument (the default being false) and changes no other field |
| `AbstractGoogleClient.Builder.GetRootUrl` | google-api-client/src/main/java/com/google/api/client/googleapis/services/AbstractGoogleClient.java:506-516 | returns the stored root URL, which ends with `/` |
| `AbstractGoogleClient.Builder.GetServicePath` | google-api-client/src/main/java/com/google/api/client/googleapis/services/AbstractGoogleClient.java:535-545 | returns the stored service path, which is empty or ends with `/` |

## Left out

- HTTP transport and the request factory. The constructor's choice between `createRequestFactory()` and `createRequestFactory(initializer)` is not modelled. Only the null-transport failure is kept, and the client does not store a factory.
- `MethodOverride.intercept` and the request factory's own work in `buildHttpRequest`. Both are foreign code, so their result enters `Client.BuildHttpRequest` as the parameter `built`.
- `Client.BuildHttpRequest` captures only the method, URL, content, User-Agent and parser of a request. Other headers are not modelled.
- `executeUnparsed` (both overloads) and `executeAsInputStream` are left out because they are network I/O.
- `BatchRequest` construction and behaviour are left out, because it is a foreign class. Only the batch URL string is modelled (`Client.BatchUrl`).
- `initialize` and the `GoogleClientRequestInitializer` / `HttpRequestInitializer` callbacks are left out. They are foreign code that is only called or stored.
- The logger, `ObjectParser` and `SubscriptionManager` are reduced to opaque `Ref` values, because they are only stored and returned.
- The "thread-safe" claim is left out, because the model has no concurrency.
- Plain accessors that only return a field are the fields themselves. This covers all of the client's getters and the builder's getters other than `getRootUrl` and `getServicePath`.
- The abstract `Builder.build` is left out, because subclasses implement it. `NewClientKeepsCanonicalValues` states what a canonical builder passes on to a client.
- NormalizeServicePath: lengths count Unicode scalar values (Dafny `char`), not Java's UTF-16 code units, and lone surrogates cannot be represented. A single supplementary-plane character has length 1 here but 2 in Java, so the model rejects it where Java would append a slash. The documented domain is URL-encoded ASCII (`AbstractGoogleClient.java` lines 59, 539 and 548), where the two lengths agree. The same counting applies to `NormalizeRootUrl` and the base URL, but there it changes no outcome.
- Builder setters return nothing here; Java returns `this` so that calls can be chained.
- The Dafny `Builder` constructor requires a service path that normalizes. In Java the constructor throws instead, and that throwing path is modelled by `NewBuilder`.
