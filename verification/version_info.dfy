/**
 * VersionInfo: one published version of a plugin, as the repository API describes it,
 * with its two helpers: the Sponge API version it depends on, and the connection that
 * downloads it (direct for staff-approved versions, through a one-time POST link for the others).
 */
module Versions {
  import opened Wrappers
  import opened Faults
  import opened JavaText
  import opened Transport

  /** A dependency entry; Gson leaves a field null when the JSON object lacks it. */
  datatype Dependency = Dependency(pluginId: Option<string>, version: Option<string>)

  /** The fields of a version record that the model uses (`None` is a null list). */
  datatype VersionInfo = VersionInfo(
    name: string,
    pluginId: string,
    md5: string,
    href: string,
    author: string,
    dependencies: Option<seq<Dependency>>,
    id: Int32,
    fileSize: Int32,
    downloads: Int32,
    staffApproved: bool)

  const SPONGE_API := "spongeapi"

  /**
   * The outcome of scanning deps in order: the version of the first entry whose
   * pluginId is "spongeapi" (that version may itself be null), null when there is none,
   * and a NullPointerException on a null pluginId met before any match.
   */
  function ApiVersion(deps: seq<Dependency>): Result<Option<string>, Fault>
    decreases |deps|
  {
    if |deps| == 0 then Success(None)
    else if deps[0].pluginId.None? then Failure(NullReference)
    else if deps[0].pluginId.value == SPONGE_API then Success(deps[0].version)
    else ApiVersion(deps[1..])
  }

  /** A "spongeapi" entry preceded only by other plugins decides the result; later duplicates do not matter. */
  lemma {:induction false} ApiVersionFirstMatch(deps: seq<Dependency>, i: nat)
    requires i < |deps| && deps[i].pluginId == Some(SPONGE_API)
    requires forall j :: 0 <= j < i ==> deps[j].pluginId.Some? && deps[j].pluginId.value != SPONGE_API
    ensures ApiVersion(deps) == Success(deps[i].version)
    decreases i
  {
    if i > 0 {
      ApiVersionFirstMatch(deps[1..], i - 1);
    }
  }

  /** With no "spongeapi" entry (the empty list included), the result is null. */
  lemma {:induction false} ApiVersionAbsent(deps: seq<Dependency>)
    requires forall j :: 0 <= j < |deps| ==> deps[j].pluginId.Some? && deps[j].pluginId.value != SPONGE_API
    ensures ApiVersion(deps) == Success(None)
    decreases |deps|
  {
    if |deps| > 0 {
      ApiVersionAbsent(deps[1..]);
    }
  }

  /** A non-null answer names the version of some "spongeapi" entry. */
  lemma {:induction false} ApiVersionFound(deps: seq<Dependency>)
    requires ApiVersion(deps).Success? && ApiVersion(deps).value.Some?
    ensures exists i :: 0 <= i < |deps| && deps[i].pluginId == Some(SPONGE_API) && deps[i].version == ApiVersion(deps).value
    decreases |deps|
  {
    if deps[0].pluginId != Some(SPONGE_API) {
      ApiVersionFound(deps[1..]);
      var i :| 0 <= i < |deps[1..]| && deps[1..][i].pluginId == Some(SPONGE_API) && deps[1..][i].version == ApiVersion(deps).value;
      assert deps[i + 1] == deps[1..][i];
    }
  }

  /** getApiVersion(): the for-each loop with its early return. */
  method GetApiVersion(v: VersionInfo) returns (r: Result<Option<string>, Fault>)
    ensures v.dependencies.None? ==> r == Failure(NullReference)
    ensures v.dependencies.Some? ==> r == ApiVersion(v.dependencies.value)
  {
    if v.dependencies.None? {
      return Failure(NullReference);
    }
    var deps := v.dependencies.value;
    var i := 0;
    while i < |deps|
      invariant 0 <= i <= |deps|
      invariant ApiVersion(deps) == ApiVersion(deps[i..])
    {
      var d := deps[i];
      if d.pluginId.None? {
        return Failure(NullReference);
      }
      if d.pluginId.value == SPONGE_API {
        return Success(d.version);
      }
      assert deps[i..][1..] == deps[i + 1..];
      i := i + 1;
    }
    return Success(None);
  }

  const DOWNLOAD_BASE := "https://ore.spongepowered.org/api/projects/"
  const VERSIONS_PART := "/versions/"
  const DOWNLOAD_PART := "/download"

  /** The download (or, for unapproved versions, the download-metadata) URL of a version. */
  function DownloadUrl(pluginId: string, name: string): (url: string)
    ensures |url| == |DOWNLOAD_BASE| + |pluginId| + |VERSIONS_PART| + |name| + |DOWNLOAD_PART|
    ensures url[..|DOWNLOAD_BASE|] == DOWNLOAD_BASE
    ensures url[|url| - |DOWNLOAD_PART|..] == DOWNLOAD_PART
  {
    DOWNLOAD_BASE + pluginId + VERSIONS_PART + name + DOWNLOAD_PART
  }

  /** Where two download URLs of the same length first differ when one plugin id is shorter. */
  lemma DownloadUrlAt(p1: string, n1: string, p2: string, n2: string)
    requires |p1| < |p2|
    ensures DownloadUrl(p1, n1)[|DOWNLOAD_BASE| + |p1|] == '/'
    ensures DownloadUrl(p2, n2)[|DOWNLOAD_BASE| + |p1|] == p2[|p1|]
  {
  }

  /** Plugin ids contain no '/', so distinct (plugin, version name) pairs get distinct URLs. */
  lemma DownloadUrlInjective(p1: string, n1: string, p2: string, n2: string)
    requires '/' !in p1 && '/' !in p2
    requires DownloadUrl(p1, n1) == DownloadUrl(p2, n2)
    ensures p1 == p2 && n1 == n2
  {
    var u1, u2 := DownloadUrl(p1, n1), DownloadUrl(p2, n2);
    var b := |DOWNLOAD_BASE|;
    if |p1| < |p2| {
      DownloadUrlAt(p1, n1, p2, n2);
      assert false;
    } else if |p2| < |p1| {
      DownloadUrlAt(p2, n2, p1, n1);
      assert false;
    }
    assert p1 == u1[b..b + |p1|] == u2[b..b + |p2|] == p2;
    var k := b + |p1| + |VERSIONS_PART|;
    assert n1 == u1[k..k + |n1|];
    assert n2 == u2[k..k + |n2|];
  }

  /** A JSON tree as Gson's JsonParser builds it. */
  datatype Json =
    | JNull
    | JBool(b: bool)
    | JNumber(text: string)
    | JString(s: string)
    | JArray(items: seq<Json>)
    | JObject(members: map<string, Json>)

  /**
   * JsonElement.getAsString(): a primitive's text, the one element of a one-element
   * array, and otherwise the exception (`None`) that Gson throws.
   */
  function AsString(j: Json): Option<string>
    decreases j
  {
    match j
    case JString(s) => Some(s)
    case JNumber(t) => Some(t)
    case JBool(b) => Some(if b then "true" else "false")
    case JArray(items) => if |items| == 1 then AsString(items[0]) else None
    case JNull => None
    case JObject(_) => None
  }

  /**
   * parse(..).getAsJsonObject().get("post").getAsString() on the metadata document.
   * `get` answers null for an absent member, so an object without "post" ends in a
   * NullPointerException; a document Gson cannot parse (`None`), one that is not an
   * object, or a "post" member without a string form ends in a Gson exception.
   */
  function PostUrl(doc: Option<Json>): (post: Result<string, Fault>)
    ensures post.Success? ==> doc.Some? && doc.value.JObject? && "post" in doc.value.members
    ensures doc.Some? && doc.value.JObject? && "post" in doc.value.members && doc.value.members["post"].JString?
            ==> post == Success(doc.value.members["post"].s)
    ensures post == Failure(NullReference) <==> doc.Some? && doc.value.JObject? && "post" !in doc.value.members
    ensures post.Failure? ==> post.error == NullReference || post.error == JsonFault
  {
    match doc
    case Some(JObject(m)) =>
      if "post" !in m then Failure(NullReference)
      else (match AsString(m["post"])
        case Some(url) => Success(url)
        case None => Failure(JsonFault))
    case _ => Failure(JsonFault)
  }

  /** What the resolver leaves set on the connection it returns (`None`: as the configuration opened it). */
  datatype Request = Request(url: Url, requestMethod: Option<string>, followRedirects: Option<bool>)

  /** The connection openDownloadConnection(cfg) returns, or the exception it throws. */
  function ResolveResult(v: VersionInfo, x: Exchange, parseJson: string -> Option<Json>): Result<Request, Fault> {
    var first := Absolute(DownloadUrl(v.pluginId, v.name));
    if v.staffApproved then
      if x.openFails then Failure(TransportFault) else Success(Request(first, None, None))
    else if x.streamFails then Failure(TransportFault)
    // JsonParser rethrows an IOException of the stream it reads as its own JsonIOException
    else if x.bodyBreaks then Failure(JsonFault)
    else match PostUrl(parseJson(x.body))
      case Failure(fault) => Failure(fault)
      case Success(post) =>
        if x.openFails then Failure(TransportFault)
        else Success(Request(Absolute(post), Some("POST"), Some(true)))
  }

  /** The calls openDownloadConnection(cfg) makes on the transport, in order. */
  function ResolveEvents(v: VersionInfo, cfg: ConnectionConfig, x: Exchange, parseJson: string -> Option<Json>): seq<Event> {
    var first := Absolute(DownloadUrl(v.pluginId, v.name));
    if v.staffApproved then [Opened(cfg, first)]
    else
      [StreamOpened(cfg, first)] +
      if x.streamFails then []
      else
        [StreamClosed] +
        var post := PostUrl(parseJson(x.body));
        if x.bodyBreaks || post.Failure? then []
        else
          [Opened(cfg, Absolute(post.value))] +
          if x.openFails then [] else [RequestMethodSet("POST"), FollowRedirectsSet(true)]
  }

  /**
   * A staff-approved version costs one request, to its download URL, and the connection
   * comes back with neither its method nor its redirect flag touched.
   */
  lemma ResolveApproved(v: VersionInfo, cfg: ConnectionConfig, x: Exchange, parseJson: string -> Option<Json>)
    requires v.staffApproved
    ensures ResolveEvents(v, cfg, x, parseJson) == [Opened(cfg, Absolute(DownloadUrl(v.pluginId, v.name)))]
    ensures !x.openFails ==> ResolveResult(v, x, parseJson) == Success(Request(Absolute(DownloadUrl(v.pluginId, v.name)), None, None))
  {
  }

  /**
   * An unapproved version whose metadata names a post URL: the metadata is read from
   * the download URL, its stream closed, and only then a second connection opened to
   * the post URL, set to POST with redirects followed.
   */
  lemma ResolveUnapproved(v: VersionInfo, cfg: ConnectionConfig, x: Exchange, parseJson: string -> Option<Json>, post: string)
    requires !v.staffApproved && !x.streamFails && !x.bodyBreaks && !x.openFails
    requires PostUrl(parseJson(x.body)) == Success(post)
    ensures ResolveEvents(v, cfg, x, parseJson) ==
      [StreamOpened(cfg, Absolute(DownloadUrl(v.pluginId, v.name))), StreamClosed,
       Opened(cfg, Absolute(post)), RequestMethodSet("POST"), FollowRedirectsSet(true)]
    ensures ResolveResult(v, x, parseJson) == Success(Request(Absolute(post), Some("POST"), Some(true)))
  {
  }

  /** The number of requests: one when approved or when no post URL is obtained, two otherwise. */
  lemma {:induction false} ResolveRequestCount(v: VersionInfo, cfg: ConnectionConfig, x: Exchange, parseJson: string -> Option<Json>)
    ensures Requests(ResolveEvents(v, cfg, x, parseJson)) ==
      if v.staffApproved || x.streamFails || x.bodyBreaks || PostUrl(parseJson(x.body)).Failure? then 1 else 2
  {
    var first := Absolute(DownloadUrl(v.pluginId, v.name));
    var events := ResolveEvents(v, cfg, x, parseJson);
    if v.staffApproved {
      assert Requests(events) == 1 + Requests([]);
    } else if x.streamFails {
      assert events == [StreamOpened(cfg, first)];
      assert Requests(events) == 1 + Requests([]);
    } else {
      var rest := events[2..];
      assert events == [StreamOpened(cfg, first), StreamClosed] + rest;
      RequestsConcat([StreamOpened(cfg, first), StreamClosed], rest);
      assert Requests([StreamOpened(cfg, first), StreamClosed]) == 1 + Requests([StreamClosed]);
      assert Requests([StreamClosed]) == Requests([]);
      var post := PostUrl(parseJson(x.body));
      if x.bodyBreaks || post.Failure? {
        assert rest == [];
      } else {
        var tail := rest[1..];
        assert rest == [Opened(cfg, Absolute(post.value))] + tail;
        if !x.openFails {
          var settings := [RequestMethodSet("POST"), FollowRedirectsSet(true)];
          assert tail == settings;
          assert Requests(settings) == Requests(settings[1..]) == Requests([]);
        }
        assert Requests(rest) == 1 + Requests(tail);
      }
    }
  }

  /**
   * Metadata that is an object without a "post" member: `get("post")` is null, the call
   * fails with a NullPointerException after closing the stream, and no second connection
   * is opened.
   */
  lemma ResolveMissingPost(v: VersionInfo, cfg: ConnectionConfig, x: Exchange, parseJson: string -> Option<Json>)
    requires !v.staffApproved && !x.streamFails && !x.bodyBreaks
    requires parseJson(x.body).Some? && parseJson(x.body).value.JObject? && "post" !in parseJson(x.body).value.members
    ensures ResolveResult(v, x, parseJson) == Failure(NullReference)
    ensures ResolveEvents(v, cfg, x, parseJson) == [StreamOpened(cfg, Absolute(DownloadUrl(v.pluginId, v.name))), StreamClosed]
  {
  }

  /**
   * Metadata Gson cannot use otherwise (unparsable, not an object, or a "post" member
   * without a string form): a Gson exception after closing the stream, and no second
   * connection.
   */
  lemma ResolveUnusablePost(v: VersionInfo, cfg: ConnectionConfig, x: Exchange, parseJson: string -> Option<Json>)
    requires !v.staffApproved && !x.streamFails && !x.bodyBreaks
    requires PostUrl(parseJson(x.body)).Failure?
    requires !(parseJson(x.body).Some? && parseJson(x.body).value.JObject? && "post" !in parseJson(x.body).value.members)
    ensures ResolveResult(v, x, parseJson) == Failure(JsonFault)
    ensures ResolveEvents(v, cfg, x, parseJson) == [StreamOpened(cfg, Absolute(DownloadUrl(v.pluginId, v.name))), StreamClosed]
  {
  }

  /**
   * A metadata stream that breaks while JsonParser reads it: the parser's exception
   * (not the stream's IOException) after closing the stream, and no second connection.
   */
  lemma ResolveMetadataBreaks(v: VersionInfo, cfg: ConnectionConfig, x: Exchange, parseJson: string -> Option<Json>)
    requires !v.staffApproved && !x.streamFails && x.bodyBreaks
    ensures ResolveResult(v, x, parseJson) == Failure(JsonFault)
    ensures ResolveEvents(v, cfg, x, parseJson) == [StreamOpened(cfg, Absolute(DownloadUrl(v.pluginId, v.name))), StreamClosed]
  {
  }

  /** The connection co is the one req describes, on a transport answering as x. */
  ghost predicate Describes(co: HttpConnection, req: Request, x: Exchange)
    reads co
  {
    && co.url == req.url
    && co.requestMethod == (if req.requestMethod.Some? then req.requestMethod.value else "GET")
    && co.followRedirects == (if req.followRedirects.Some? then req.followRedirects.value else x.defaultFollowRedirects)
  }

  /** openDownloadConnection(cfg): the configuration passed in is the one used for every request. */
  method OpenDownloadConnection(v: VersionInfo, cfg: ConnectionConfig, net: Network, parseJson: string -> Option<Json>)
    returns (r: Result<HttpConnection, Fault>)
    modifies net.log
    ensures net.log.events == old(net.log.events) + ResolveEvents(v, cfg, net.exchange, parseJson)
    ensures r.Success? <==> ResolveResult(v, net.exchange, parseJson).Success?
    ensures r.Failure? ==> r.error == ResolveResult(v, net.exchange, parseJson).error
    ensures r.Success? ==> fresh(r.value) && r.value.config == cfg
    ensures r.Success? ==> Describes(r.value, ResolveResult(v, net.exchange, parseJson).value, net.exchange)
  {
    var url := Absolute(DownloadUrl(v.pluginId, v.name));
    if v.staffApproved {
      r := net.OpenHttpConnection(cfg, url);
      return;
    }
    var stream := net.OpenStream(cfg, url);
    if stream.Failure? {
      return Failure(stream.error);
    }
    var metadata := stream.value;
    var text := metadata.ReadRemaining();
    // a read failure surfaces from JsonParser as its JsonIOException
    var post := if text.Success? then PostUrl(parseJson(text.value)) else Failure(JsonFault);
    metadata.Close();
    if post.Failure? {
      return Failure(post.error);
    }
    url := Absolute(post.value);
    r := net.OpenHttpConnection(cfg, url);
    if r.Failure? {
      return;
    }
    var co := r.value;
    co.SetRequestMethod("POST");
    co.SetInstanceFollowRedirects(true);
  }

  /** openDownloadConnection(): the same, with the application's connection configuration. */
  method OpenDownloadConnectionDefault(v: VersionInfo, appConfig: ConnectionConfig, net: Network, parseJson: string -> Option<Json>)
    returns (r: Result<HttpConnection, Fault>)
    modifies net.log
    ensures net.log.events == old(net.log.events) + ResolveEvents(v, appConfig, net.exchange, parseJson)
    ensures r.Success? <==> ResolveResult(v, net.exchange, parseJson).Success?
    ensures r.Failure? ==> r.error == ResolveResult(v, net.exchange, parseJson).error
    ensures r.Success? ==> fresh(r.value) && r.value.config == appConfig
    ensures r.Success? ==> Describes(r.value, ResolveResult(v, net.exchange, parseJson).value, net.exchange)
  {
    r := OpenDownloadConnection(v, appConfig, net, parseJson);
  }
}
