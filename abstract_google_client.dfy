/**
 * The configuration layer of a generated Google API client: the root URL and
 * service path normalizers, the immutable client they feed, the decisions
 * `buildHttpRequest` takes on every outbound request, and the mutable builder.
 */
module AbstractGoogleClient {
  import opened Wrappers

  /**
   * The exceptions the client's precondition checks throw. A NullPointerException
   * carries the message given to `checkNotNull`, or none when the check has no
   * message or a null reference is dereferenced.
   */
  datatype Error =
    | NullPointer(detail: Option<string>)
    | IllegalArgument(message: string)

  const RootUrlNullMessage: string := "root URL cannot be null."
  const ServicePathNullMessage: string := "service path cannot be null"
  const ServicePathLengthOneMessage: string := "service path must equal \"/\" if it is of length 1."

  /** The name of the POST method (`HttpMethods.POST`); method names compare case-sensitively. */
  const Post: string := "POST"

  /**
   * An opaque collaborator: an HTTP transport, an object parser, a request
   * initializer, a subscription manager or a body, known only by identity.
   */
  datatype Ref = Ref(id: nat)

  // ---------------------------------------------------------------------------
  // URL normalization
  // ---------------------------------------------------------------------------

  /** `String.endsWith("/")`. */
  predicate EndsWithSlash(s: string) {
    |s| > 0 && s[|s| - 1] == '/'
  }

  /** `String.startsWith("/")`. */
  predicate StartsWithSlash(s: string) {
    |s| > 0 && s[0] == '/'
  }

  /** The form a stored service path has: empty, or ending with a slash. */
  predicate ServicePathWellFormed(p: string) {
    p == "" || EndsWithSlash(p)
  }

  /**
   * What normalization establishes about a stored pair of URLs, in the client and
   * in its builder alike: the root URL ends with a slash and the service path is
   * empty or ends with one.
   */
  predicate UrlsWellFormed(rootUrl: string, servicePath: string) {
    EndsWithSlash(rootUrl) && ServicePathWellFormed(servicePath)
  }

  /** The documented canonical service path: empty, or ending and not beginning with a slash. */
  predicate ServicePathCanonical(p: string) {
    p == "" || (EndsWithSlash(p) && !StartsWithSlash(p))
  }

  /**
   * `s` with a slash appended unless it already ends with one: the shortest
   * extension of `s` that ends with a slash.
   */
  function WithTrailingSlash(s: string): (r: string)
    ensures EndsWithSlash(r)
    ensures |s| <= |r| <= |s| + 1 && r[..|s|] == s
    ensures EndsWithSlash(s) ==> r == s
  {
    if EndsWithSlash(s) then s else s + "/"
  }

  /** `s` without its first character when that is a slash; at most one slash goes. */
  function WithoutLeadingSlash(s: string): (r: string)
    ensures StartsWithSlash(s) ==> "/" + r == s
    ensures !StartsWithSlash(s) ==> r == s
  {
    if StartsWithSlash(s) then s[1..] else s
  }

  /** `normalizeRootUrl`: rejects null, otherwise appends a missing trailing slash. */
  function NormalizeRootUrl(rootUrl: Option<string>): (r: Result<string, Error>)
    ensures r.Err? <==> rootUrl.None?
    ensures r.Err? ==> r.error == NullPointer(Some(RootUrlNullMessage))
    ensures r.Ok? ==> EndsWithSlash(r.value) && r.value == WithTrailingSlash(rootUrl.value)
  {
    match rootUrl
    case None => Err(NullPointer(Some(RootUrlNullMessage)))
    case Some(s) => Ok(WithTrailingSlash(s))
  }

  /**
   * `normalizeServicePath`: rejects null and every one-character path other
   * than "/"; maps "" and "/" to ""; for longer paths appends a missing
   * trailing slash and then removes one leading slash.
   */
  function NormalizeServicePath(servicePath: Option<string>): (r: Result<string, Error>)
    ensures r.Err? <==> servicePath.None? || (|servicePath.value| == 1 && servicePath.value != "/")
    ensures servicePath.None? ==> r.error == NullPointer(Some(ServicePathNullMessage))
    ensures servicePath.Some? && r.Err? ==> r.error == IllegalArgument(ServicePathLengthOneMessage)
    ensures r.Ok? ==> ServicePathWellFormed(r.value)
    ensures r.Ok? && |servicePath.value| <= 1 ==> r.value == ""
    ensures r.Ok? && |servicePath.value| >= 2 ==>
      && EndsWithSlash(r.value)
      && (StartsWithSlash(servicePath.value) ==> "/" + r.value == WithTrailingSlash(servicePath.value))
      && (!StartsWithSlash(servicePath.value) ==> r.value == WithTrailingSlash(servicePath.value))
  {
    match servicePath
    case None => Err(NullPointer(Some(ServicePathNullMessage)))
    case Some(s) =>
      if |s| == 1 then
        if s == "/" then Ok("") else Err(IllegalArgument(ServicePathLengthOneMessage))
      else if |s| > 0 then
        Ok(WithoutLeadingSlash(WithTrailingSlash(s)))
      else
        Ok(s)
  }

  /** Normalizing a root URL twice gives what normalizing it once gives. */
  lemma NormalizeRootUrlIdempotent(rootUrl: string)
    ensures NormalizeRootUrl(Some(rootUrl)).Ok?
    ensures NormalizeRootUrl(Some(NormalizeRootUrl(Some(rootUrl)).value)) == NormalizeRootUrl(Some(rootUrl))
  {
  }

  /** A root URL is a fixed point of the normalizer exactly when it already ends with a slash. */
  lemma NormalizeRootUrlFixedPoints(rootUrl: string)
    ensures NormalizeRootUrl(Some(rootUrl)) == Ok(rootUrl) <==> EndsWithSlash(rootUrl)
  {
  }

  /**
   * For paths of two or more characters it does not matter whether the slash is
   * appended before or after the leading slash is removed. It matters for "" and
   * "/" (one order gives "", the other "/"), exactly the inputs the normalizer
   * does not send through these two steps.
   */
  lemma AppendAndStripCommute(s: string)
    requires |s| >= 2
    ensures WithoutLeadingSlash(WithTrailingSlash(s)) == WithTrailingSlash(WithoutLeadingSlash(s))
  {
  }

  /** The same for the order the normalizer uses: append, then strip, is strip, then append. */
  lemma NormalizeServicePathStripThenAppend(s: string)
    requires |s| >= 2
    ensures NormalizeServicePath(Some(s)) == Ok(WithTrailingSlash(WithoutLeadingSlash(s)))
  {
    AppendAndStripCommute(s);
  }

  /** "" and every canonical path (ends with a slash, does not begin with one) are left unchanged. */
  lemma NormalizeServicePathFixesCanonical(p: string)
    requires ServicePathCanonical(p)
    ensures NormalizeServicePath(Some(p)) == Ok(p)
  {
  }

  /** A path that normalizes starts with "//" when and only when its normal form still begins with a slash. */
  lemma NormalizedServicePathCanonicalIff(s: string)
    requires NormalizeServicePath(Some(s)).Ok?
    ensures ServicePathCanonical(NormalizeServicePath(Some(s)).value) <==> !(|s| >= 2 && s[0] == '/' && s[1] == '/')
  {
  }

  /**
   * Normalizing a service path a second time changes nothing, except when the
   * path starts with "//": then the first pass leaves a leading slash that the
   * second pass removes.
   */
  lemma NormalizeServicePathIdempotentIff(s: string)
    requires NormalizeServicePath(Some(s)).Ok?
    ensures NormalizeServicePath(Some(NormalizeServicePath(Some(s)).value)) == NormalizeServicePath(Some(s))
        <==> !(|s| >= 2 && s[0] == '/' && s[1] == '/')
  {
  }

  /** The worked examples: "/v1" becomes "v1/", "/" and "" become "", "//" becomes "/" but "/" becomes "". */
  lemma NormalizeServicePathExamples()
    ensures NormalizeServicePath(Some("/v1")) == Ok("v1/")
    ensures NormalizeServicePath(Some("tasks/v1")) == Ok("tasks/v1/")
    ensures NormalizeServicePath(Some("/")) == Ok("")
    ensures NormalizeServicePath(Some("")) == Ok("")
    ensures NormalizeServicePath(Some("a")) == Err(IllegalArgument(ServicePathLengthOneMessage))
    ensures NormalizeServicePath(Some("//")) == Ok("/")
    ensures NormalizeServicePath(Some("/")) != Ok("/")
  {
    assert WithTrailingSlash("/v1") == "/v1/";
    assert WithTrailingSlash("tasks/v1") == "tasks/v1/";
  }

  // ---------------------------------------------------------------------------
  // The client
  // ---------------------------------------------------------------------------

  /** Content of an HTTP request: the EmptyContent marker or a caller-supplied body. */
  datatype Content = EmptyContent | Supplied(body: Ref)

  /** The parts of an HTTP request that `buildHttpRequest` reads or sets. */
  datatype HttpRequest = HttpRequest(
    requestMethod: string,
    url: string,
    content: Option<Content>,
    userAgent: Option<string>,
    parser: Option<Ref>)

  /** An `AbstractGoogleClient` after construction; none of its fields change afterwards. */
  datatype Client = Client(
    rootUrl: string,
    servicePath: string,
    applicationName: Option<string>,
    objectParser: Option<Ref>,
    googleClientRequestInitializer: Option<Ref>,
    subscriptionManager: Option<Ref>,
    suppressPatternChecks: bool)
  {
    /** What construction establishes about the stored URLs. */
    predicate Valid() {
      UrlsWellFormed(rootUrl, servicePath)
    }

    /** `getBaseUrl`: the root URL followed by the service path; it ends with a slash. */
    function BaseUrl(): (r: string)
      ensures |r| == |rootUrl| + |servicePath|
      ensures r[..|rootUrl|] == rootUrl && r[|rootUrl|..] == servicePath
      ensures Valid() ==> EndsWithSlash(r)
    {
      rootUrl + servicePath
    }

    /** The URL `batch` gives the batch request: the root URL followed by "batch". */
    function BatchUrl(): (r: string)
      ensures |r| == |rootUrl| + 5
      ensures r[..|rootUrl|] == rootUrl && r[|rootUrl|..] == "batch"
    {
      rootUrl + "batch"
    }

    /**
     * The decisions of `buildHttpRequest` on the request `built` that the request
     * factory made from `requestMethod`, the URL and `content`: the client's parser
     * is installed, the User-Agent becomes the application name when one is
     * configured, and a POST without content gets the EmptyContent marker.
     */
    function BuildHttpRequest(built: HttpRequest, requestMethod: string, content: Option<Content>): (r: HttpRequest)
      ensures r.requestMethod == built.requestMethod && r.url == built.url
      ensures r.parser == objectParser
      ensures applicationName.Some? ==> r.userAgent == applicationName
      ensures applicationName.None? ==> r.userAgent == built.userAgent
      ensures content.None? && requestMethod == Post ==> r.content == Some(EmptyContent)
      ensures !(content.None? && requestMethod == Post) ==> r.content == built.content
    {
      var withAgent :=
        if applicationName.Some? then built.(userAgent := applicationName) else built;
      var withParser := withAgent.(parser := objectParser);
      if content.None? && requestMethod == Post then withParser.(content := Some(EmptyContent)) else withParser
    }
  }

  /**
   * The full `AbstractGoogleClient` constructor: normalizes the root URL, then the
   * service path, then dereferences the transport to obtain the request factory.
   */
  function NewClient(
    transport: Option<Ref>, rootUrl: Option<string>, servicePath: Option<string>,
    objectParser: Option<Ref>, googleClientRequestInitializer: Option<Ref>,
    applicationName: Option<string>, subscriptionManager: Option<Ref>,
    suppressPatternChecks: bool): (r: Result<Client, Error>)
    ensures r.Ok? <==> rootUrl.Some? && NormalizeServicePath(servicePath).Ok? && transport.Some?
    ensures rootUrl.None? ==> r == Err(NormalizeRootUrl(rootUrl).error)
    ensures rootUrl.Some? && NormalizeServicePath(servicePath).Err? ==> r == Err(NormalizeServicePath(servicePath).error)
    ensures rootUrl.Some? && NormalizeServicePath(servicePath).Ok? && transport.None? ==> r == Err(NullPointer(None))
    ensures r.Ok? ==>
      && r.value.Valid()
      && r.value.rootUrl == NormalizeRootUrl(rootUrl).value
      && r.value.servicePath == NormalizeServicePath(servicePath).value
      && r.value.applicationName == applicationName
      && r.value.objectParser == objectParser
      && r.value.googleClientRequestInitializer == googleClientRequestInitializer
      && r.value.subscriptionManager == subscriptionManager
      && r.value.suppressPatternChecks == suppressPatternChecks
  {
    match NormalizeRootUrl(rootUrl)
    case Err(e) => Err(e)
    case Ok(root) =>
      match NormalizeServicePath(servicePath)
      case Err(e) => Err(e)
      case Ok(path) =>
        if transport.None? then Err(NullPointer(None))
        else Ok(Client(root, path, applicationName, objectParser, googleClientRequestInitializer,
                       subscriptionManager, suppressPatternChecks))
  }

  /** The five-argument constructor: no Google request initializer, application name or subscription manager, and pattern checks on. */
  function NewClientWithDefaults(
    transport: Option<Ref>, rootUrl: Option<string>, servicePath: Option<string>,
    objectParser: Option<Ref>): (r: Result<Client, Error>)
    ensures r.Ok? <==> rootUrl.Some? && NormalizeServicePath(servicePath).Ok? && transport.Some?
    ensures r.Ok? ==>
      && r.value.rootUrl == NormalizeRootUrl(rootUrl).value
      && r.value.servicePath == NormalizeServicePath(servicePath).value
      && r.value.objectParser == objectParser
      && r.value.googleClientRequestInitializer.None?
      && r.value.applicationName.None?
      && r.value.subscriptionManager.None?
      && !r.value.suppressPatternChecks
  {
    NewClient(transport, rootUrl, servicePath, objectParser, None, None, None, false)
  }

  /** Every client that construction produces has a base URL equal to root plus path and ending with a slash. */
  lemma ConstructedBaseUrlEndsWithSlash(
    transport: Option<Ref>, rootUrl: Option<string>, servicePath: Option<string>,
    objectParser: Option<Ref>, googleClientRequestInitializer: Option<Ref>,
    applicationName: Option<string>, subscriptionManager: Option<Ref>,
    suppressPatternChecks: bool)
    requires NewClient(transport, rootUrl, servicePath, objectParser, googleClientRequestInitializer,
                       applicationName, subscriptionManager, suppressPatternChecks).Ok?
    ensures var c := NewClient(transport, rootUrl, servicePath, objectParser, googleClientRequestInitializer,
                               applicationName, subscriptionManager, suppressPatternChecks).value;
      && c.BaseUrl() == NormalizeRootUrl(rootUrl).value + NormalizeServicePath(servicePath).value
      && EndsWithSlash(c.BaseUrl())
  {
  }

  /**
   * With a non-empty canonical service path and a root URL that does not itself
   * end in "//", the base URL has exactly one slash where the root URL and the
   * service path meet: the character before the join is the only slash among the
   * two characters on either side of it. (The root normalizer keeps a root such
   * as "https://x//", so the condition on the root is needed.)
   */
  lemma BaseUrlSingleSlashAtJoin(c: Client)
    requires c.Valid() && ServicePathCanonical(c.servicePath) && c.servicePath != ""
    requires |c.rootUrl| < 2 || c.rootUrl[|c.rootUrl| - 2] != '/'
    ensures c.BaseUrl()[|c.rootUrl| - 1] == '/'
    ensures c.BaseUrl()[|c.rootUrl|] != '/'
    ensures |c.rootUrl| >= 2 ==> c.BaseUrl()[|c.rootUrl| - 2] != '/'
  {
  }

  /** The service path "//" survives as "/", so the base URL doubles the slash at the join. */
  lemma DoubleSlashServicePathDoublesJoin(transport: Ref)
    ensures NewClient(Some(transport), Some("https://x"), Some("//"), None, None, None, None, false).Ok?
    ensures NewClient(Some(transport), Some("https://x"), Some("//"), None, None, None, None, false).value.BaseUrl()
      == "https://x//"
  {
  }

  /**
   * Constructing a client from values that are already canonical (as a builder
   * holds them) stores exactly those values.
   */
  lemma NewClientKeepsCanonicalValues(
    transport: Ref, rootUrl: string, servicePath: string, objectParser: Option<Ref>,
    googleClientRequestInitializer: Option<Ref>, applicationName: Option<string>,
    subscriptionManager: Option<Ref>, suppressPatternChecks: bool)
    requires EndsWithSlash(rootUrl) && ServicePathCanonical(servicePath)
    ensures NewClient(Some(transport), Some(rootUrl), Some(servicePath), objectParser,
                      googleClientRequestInitializer, applicationName, subscriptionManager,
                      suppressPatternChecks)
      == Ok(Client(rootUrl, servicePath, applicationName, objectParser,
                   googleClientRequestInitializer, subscriptionManager, suppressPatternChecks))
  {
  }

  /**
   * A sanity property of the model rather than a promise of the source (which
   * builds a fresh request on every call): decorating a request a second time
   * with the same arguments changes nothing.
   */
  lemma BuildHttpRequestIdempotent(c: Client, built: HttpRequest, requestMethod: string, content: Option<Content>)
    ensures c.BuildHttpRequest(c.BuildHttpRequest(built, requestMethod, content), requestMethod, content)
      == c.BuildHttpRequest(built, requestMethod, content)
  {
  }

  // ---------------------------------------------------------------------------
  // The builder
  // ---------------------------------------------------------------------------

  /** `AbstractGoogleClient.Builder`: collects the client's settings through setters. */
  class Builder {
    const transport: Ref
    const objectParser: Ref
    var googleClientRequestInitializer: Option<Ref>
    var httpRequestInitializer: Option<Ref>
    var rootUrl: string
    var servicePath: string
    var applicationName: Option<string>
    var subscriptionManager: Option<Ref>
    var suppressPatternChecks: bool

    /** The stored root URL ends with a slash; the stored service path is empty or ends with one. */
    ghost predicate Valid()
      reads this
    {
      UrlsWellFormed(rootUrl, servicePath)
    }

    /**
     * The body of the builder's constructor once its null checks have passed
     * (`NewBuilder` performs them): both URLs go through their setters and every
     * optional setting starts out absent or false.
     */
    constructor (transport: Ref, rootUrl: string, servicePath: string, objectParser: Ref,
                 httpRequestInitializer: Option<Ref>)
      requires NormalizeServicePath(Some(servicePath)).Ok?
      ensures Valid()
      ensures this.transport == transport && this.objectParser == objectParser
      ensures this.rootUrl == NormalizeRootUrl(Some(rootUrl)).value
      ensures this.servicePath == NormalizeServicePath(Some(servicePath)).value
      ensures this.httpRequestInitializer == httpRequestInitializer
      ensures googleClientRequestInitializer.None? && applicationName.None? && subscriptionManager.None?
      ensures !suppressPatternChecks
    {
      this.transport := transport;
      this.objectParser := objectParser;
      this.rootUrl := NormalizeRootUrl(Some(rootUrl)).value;
      this.servicePath := NormalizeServicePath(Some(servicePath)).value;
      this.httpRequestInitializer := httpRequestInitializer;
      googleClientRequestInitializer := None;
      applicationName := None;
      subscriptionManager := None;
      suppressPatternChecks := false;
    }

    /** `setRootUrl`: stores the normalized root URL; on null it throws and the builder is unchanged. */
    method SetRootUrl(rootUrl: Option<string>) returns (outcome: Outcome<Error>)
      requires Valid()
      modifies this`rootUrl
      ensures Valid()
      ensures outcome.Fail? <==> rootUrl.None?
      ensures outcome.Fail? ==> outcome.error == NormalizeRootUrl(rootUrl).error && this.rootUrl == old(this.rootUrl)
      ensures outcome.Pass? ==> this.rootUrl == NormalizeRootUrl(rootUrl).value
    {
      match NormalizeRootUrl(rootUrl)
      case Err(e) =>
        outcome := Fail(e);
      case Ok(url) =>
        this.rootUrl := url;
        outcome := Pass;
    }

    /** `setServicePath`: stores the normalized service path; when normalization throws the builder is unchanged. */
    method SetServicePath(servicePath: Option<string>) returns (outcome: Outcome<Error>)
      requires Valid()
      modifies this`servicePath
      ensures Valid()
      ensures outcome.Fail? <==> NormalizeServicePath(servicePath).Err?
      ensures outcome.Fail? ==> outcome.error == NormalizeServicePath(servicePath).error && this.servicePath == old(this.servicePath)
      ensures outcome.Pass? ==> this.servicePath == NormalizeServicePath(servicePath).value
    {
      match NormalizeServicePath(servicePath)
      case Err(e) =>
        outcome := Fail(e);
      case Ok(path) =>
        this.servicePath := path;
        outcome := Pass;
    }

    /** `setGoogleClientRequestInitializer`. */
    method SetGoogleClientRequestInitializer(googleClientRequestInitializer: Option<Ref>)
      requires Valid()
      modifies this`googleClientRequestInitializer
      ensures Valid()
      ensures this.googleClientRequestInitializer == googleClientRequestInitializer
    {
      this.googleClientRequestInitializer := googleClientRequestInitializer;
    }

    /** `setHttpRequestInitializer`. */
    method SetHttpRequestInitializer(httpRequestInitializer: Option<Ref>)
      requires Valid()
      modifies this`httpRequestInitializer
      ensures Valid()
      ensures this.httpRequestInitializer == httpRequestInitializer
    {
      this.httpRequestInitializer := httpRequestInitializer;
    }

    /** `setApplicationName`. */
    method SetApplicationName(applicationName: Option<string>)
      requires Valid()
      modifies this`applicationName
      ensures Valid()
      ensures this.applicationName == applicationName
    {
      this.applicationName := applicationName;
    }

    /** `setSubscriptionManager`. */
    method SetSubscriptionManager(subscriptionManager: Option<Ref>)
      requires Valid()
      modifies this`subscriptionManager
      ensures Valid()
      ensures this.subscriptionManager == subscriptionManager
    {
      this.subscriptionManager := subscriptionManager;
    }

    /** `setSuppressPatternChecks`. */
    method SetSuppressPatternChecks(suppressPatternChecks: bool)
      requires Valid()
      modifies this`suppressPatternChecks
      ensures Valid()
      ensures this.suppressPatternChecks == suppressPatternChecks
    {
      this.suppressPatternChecks := suppressPatternChecks;
    }

    /** `getRootUrl`: the stored root URL, which ends with a slash. */
    method GetRootUrl() returns (r: string)
      requires Valid()
      ensures r == rootUrl && EndsWithSlash(r)
    {
      r := rootUrl;
    }

    /** `getServicePath`: the stored service path, empty or ending with a slash. */
    method GetServicePath() returns (r: string)
      requires Valid()
      ensures r == servicePath && ServicePathWellFormed(r)
    {
      r := servicePath;
    }
  }

  /**
   * The builder's constructor with its checks in order: the transport and the
   * object parser must not be null, then the root URL and the service path are
   * set through their setters, each of which may throw.
   */
  method NewBuilder(transport: Option<Ref>, rootUrl: Option<string>, servicePath: Option<string>,
                    objectParser: Option<Ref>, httpRequestInitializer: Option<Ref>)
    returns (r: Result<Builder, Error>)
    ensures r.Ok? <==> transport.Some? && objectParser.Some? && rootUrl.Some? && NormalizeServicePath(servicePath).Ok?
    ensures transport.None? || (transport.Some? && objectParser.None?) ==> r == Err(NullPointer(None))
    ensures transport.Some? && objectParser.Some? && rootUrl.None? ==> r == Err(NormalizeRootUrl(rootUrl).error)
    ensures transport.Some? && objectParser.Some? && rootUrl.Some? && NormalizeServicePath(servicePath).Err? ==>
      r == Err(NormalizeServicePath(servicePath).error)
    ensures r.Ok? ==>
      && fresh(r.value)
      && r.value.Valid()
      && r.value.transport == transport.value
      && r.value.objectParser == objectParser.value
      && r.value.rootUrl == NormalizeRootUrl(rootUrl).value
      && r.value.servicePath == NormalizeServicePath(servicePath).value
      && r.value.httpRequestInitializer == httpRequestInitializer
      && r.value.googleClientRequestInitializer.None?
      && r.value.applicationName.None?
      && r.value.subscriptionManager.None?
      && !r.value.suppressPatternChecks
  {
    if transport.None? || objectParser.None? {
      return Err(NullPointer(None));
    }
    if rootUrl.None? {
      return Err(NormalizeRootUrl(rootUrl).error);
    }
    if NormalizeServicePath(servicePath).Err? {
      return Err(NormalizeServicePath(servicePath).error);
    }
    var b := new Builder(transport.value, rootUrl.value, servicePath.value, objectParser.value,
                         httpRequestInitializer);
    return Ok(b);
  }
}
