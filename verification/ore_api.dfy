/**
 * OreAPI: listing the versions of a project. The request suffix is built from the
 * project id, the page and the channel filter; the response is rejected unless its
 * status is 2xx; its Content-Length (or -1) is given to the caller's listener provider;
 * the body is read through a reader that reports every character to that listener and
 * reports the end of the stream as soon as the listener is cancelled; the connection is
 * disconnected on every way out once it has been opened.
 */
module OreApi {
  import opened Wrappers
  import opened Faults
  import opened JavaText
  import opened Transport
  import opened Listeners
  import opened Versions

  /** URL_BASE, the API root every request suffix is appended to. */
  const BASE := "https://ore.spongepowered.org/api/v1/"

  /** The query without its optional channel filter. */
  function PageQuery(projectId: string, offset: Int32, limit: Int32): string {
    "projects/" + projectId + "/versions?offset=" + DecimalString(offset) + "&limit=" + DecimalString(limit)
  }

  const CHANNELS_PARAM := "&channels="

  /**
   * The request suffix: the page query, followed by the comma-joined channels, in the
   * order given, if and only if at least one channel is given.
   */
  function VersionsSuffix(projectId: string, offset: Int32, limit: Int32, channels: seq<string>): (suffix: string)
    ensures var query := PageQuery(projectId, offset, limit);
      && |query| <= |suffix| && suffix[..|query|] == query
      && (|channels| == 0 <==> suffix == query)
      && (|channels| > 0 ==> suffix[|query|..] == CHANNELS_PARAM + Join(",", channels))
  {
    PageQuery(projectId, offset, limit) + ChannelFilter(channels)
  }

  /** The optional `&channels=` part of the suffix. */
  function ChannelFilter(channels: seq<string>): (filter: string)
    ensures |channels| == 0 <==> |filter| == 0
  {
    if |channels| != 0 then CHANNELS_PARAM + Join(",", channels) else ""
  }

  /** The URL of the listing request. */
  function VersionsUrl(projectId: string, offset: Int32, limit: Int32, channels: seq<string>): Url {
    Suffixed(BASE, VersionsSuffix(projectId, offset, limit, channels))
  }

  /**
   * The channel filter can be read back from the suffix: splitting what follows
   * "&channels=" at commas gives the channels, in order (for channel names without commas).
   */
  lemma ChannelsRecoverable(projectId: string, offset: Int32, limit: Int32, channels: seq<string>)
    requires |channels| > 0
    requires forall i :: 0 <= i < |channels| ==> ',' !in channels[i]
    ensures var start := |PageQuery(projectId, offset, limit)| + |CHANNELS_PARAM|;
      var suffix := VersionsSuffix(projectId, offset, limit, channels);
      start <= |suffix| && Split(suffix[start..], ',') == channels
  {
    var query := PageQuery(projectId, offset, limit);
    var suffix := VersionsSuffix(projectId, offset, limit, channels);
    assert suffix[|query| + |CHANNELS_PARAM|..] == Join([','], channels);
    SplitJoin(channels, ',');
  }

  /**
   * The page numbers can be read back from the query, whatever their sign: the offset
   * right after "?offset=", the limit at the very end.
   */
  lemma PageRecoverable(projectId: string, offset: Int32, limit: Int32)
    ensures var query := PageQuery(projectId, offset, limit);
      var start := |"projects/" + projectId + "/versions?offset="|;
      var offsetText := DecimalString(offset);
      start + |offsetText| <= |query| && ParseLong(Some(query[start..start + |offsetText|])) == Some(offset as int)
    ensures var query := PageQuery(projectId, offset, limit);
      var limitText := DecimalString(limit);
      |limitText| <= |query| && ParseLong(Some(query[|query| - |limitText|..])) == Some(limit as int)
  {
    var query := PageQuery(projectId, offset, limit);
    var head := "projects/" + projectId + "/versions?offset=";
    var offsetText := DecimalString(offset);
    var limitText := DecimalString(limit);
    assert query == head + offsetText + "&limit=" + limitText;
    assert query[|head|..|head| + |offsetText|] == offsetText;
    assert query[|query| - |limitText|..] == limitText;
    ParseLongDecimalString(offset);
    ParseLongDecimalString(limit);
  }

  /** Java's int division, which truncates toward zero. */
  function JavaDiv(a: int, b: int): int
    requires b != 0
  {
    var q := (if a < 0 then -a else a) / (if b < 0 then -b else b);
    if (a < 0) == (b < 0) then q else -q
  }

  /** `getResponseCode() / 100 != 2` rejects exactly the codes outside 200..299. */
  function StatusAccepted(code: Int32): (accepted: bool)
    ensures accepted <==> 200 <= code <= 299
  {
    JavaDiv(code, 100) == 2
  }

  /** The expected size: the parsed Content-Length, or -1 when it does not parse (a missing header included). */
  function ExpectedSize(header: Option<string>): (expected: Int64)
    ensures header.None? ==> expected == -1
    ensures expected != -1 ==> ParseLong(header) == Some(expected)
    ensures ParseLong(header).Some? ==> expected == ParseLong(header).value
    ensures ParseLong(header).None? ==> expected == -1
  {
    match ParseLong(header)
    case Some(n) => n
    case None => -1
  }

  /** Whatever long the server states is passed on unchanged, a negative one included. */
  lemma ExpectedSizeOfDecimal(n: Int64)
    ensures ExpectedSize(Some(DecimalString(n))) == n
  {
    ParseLongDecimalString(n);
  }

  /**
   * The reader the response body is decoded through: an InputStreamReader over the
   * body whose reads consult the listener first. `delivered` is every character it has
   * handed to the decoder; the listener's counter has grown by exactly that many.
   */
  class TrackedReader {
    const listener: IncrementalListener
    const source: CharSource
    ghost const start: int
    ghost var delivered: string

    ghost predicate Valid()
      reads this, listener, source
    {
      && delivered + source.rest == source.all
      && listener.consumed == start + |delivered|
    }

    constructor (source: CharSource, listener: IncrementalListener)
      requires source.rest == source.all
      ensures this.source == source && this.listener == listener
      ensures Valid() && delivered == [] && start == listener.consumed
    {
      this.source := source;
      this.listener := listener;
      start := listener.consumed;
      delivered := [];
    }

    /** read(): end of stream once cancelled; otherwise the delegate's character, counted. */
    method Read() returns (r: Result<int, Fault>)
      requires Valid()
      modifies this, listener, source, source.log
      ensures Valid()
      ensures listener.cancelled == old(listener.cancelled)
      ensures old(listener.cancelled) ==>
        && r == Success(-1)
        && delivered == old(delivered) && source.rest == old(source.rest)
        && listener.consumed == old(listener.consumed)
        && source.log.events == old(source.log.events)
      ensures !old(listener.cancelled) ==>
        && source.log.events == old(source.log.events) + [BodyRead(1)]
        && if old(source.rest) == [] then
             && r == (if source.breaks then Failure(TransportFault) else Success(-1))
             && delivered == old(delivered) && listener.consumed == old(listener.consumed)
           else
             && r == Success(old(source.rest)[0] as int)
             && delivered == old(delivered) + [old(source.rest)[0]]
             && listener.consumed == old(listener.consumed) + 1
    {
      var cancelled := listener.IsCancelled();
      if cancelled {
        return Success(-1);
      }
      ghost var before := source.rest;
      r := source.Read();
      if r.Success? && r.value != -1 {
        listener.Increment(1);
        delivered := delivered + [before[0]];
      }
    }

    /**
     * read(cbuf, offset, length): end of stream once cancelled, without touching the
     * delegate or the buffer; otherwise exactly the delegate's result, with the
     * listener incremented by the count handed over whenever that result is not -1.
     */
    method ReadInto(cbuf: array<char>, offset: int, length: int) returns (r: Result<int, Fault>)
      requires Valid()
      modifies this, listener, source, source.log, cbuf
      ensures Valid()
      ensures listener.cancelled == old(listener.cancelled)
      ensures old(listener.cancelled) ==>
        && r == Success(-1)
        && delivered == old(delivered) && source.rest == old(source.rest)
        && listener.consumed == old(listener.consumed)
        && source.log.events == old(source.log.events)
        && cbuf[..] == old(cbuf[..])
      ensures !old(listener.cancelled) ==>
        && ReadIntoOutcome(old(source.rest), source.breaks, offset, length, cbuf.Length, r)
        && source.rest == old(source.rest)[Taken(r)..]
        && delivered == old(delivered) + old(source.rest)[..Taken(r)]
        && listener.consumed == old(listener.consumed) + Taken(r)
        && (Taken(r) > 0 ==> cbuf[offset..offset + Taken(r)] == old(source.rest)[..Taken(r)])
        && (forall i :: 0 <= i < cbuf.Length && !(offset <= i < offset + Taken(r)) ==> cbuf[i] == old(cbuf[i]))
        && source.log.events == old(source.log.events) +
             (if 0 <= offset && 0 < length && offset + length <= cbuf.Length then [BodyRead(length)] else [])
    {
      var cancelled := listener.IsCancelled();
      if cancelled {
        return Success(-1);
      }
      ghost var before := source.rest;
      r := source.ReadInto(cbuf, offset, length);
      if r.Success? && r.value != -1 {
        listener.Increment(r.value);
        delivered := delivered + before[..r.value];
      }
    }
  }

  /** The size of the character buffer Gson's JsonReader reads into. */
  const BUFFER_SIZE := 1024

  /**
   * The reading half of GSON.fromJson(in, ...): buffered reads until the reader reports
   * the end of the stream or throws. The user's cancellation, if any, lands just before
   * read number `cancelAfterReads` (counting from 0).
   */
  method ReadDocument(reader: TrackedReader, cancelAfterReads: Option<nat>) returns (text: string, failed: bool, ghost bodyReads: seq<Event>)
    requires reader.Valid() && reader.delivered == []
    modifies reader, reader.listener, reader.source, reader.source.log
    ensures reader.Valid() && text == reader.delivered
    ensures reader.source.log.events == old(reader.source.log.events) + bodyReads
    ensures forall e :: e in bodyReads ==> e == BodyRead(BUFFER_SIZE)
    ensures failed ==> text == reader.source.all && reader.source.breaks
    ensures !reader.listener.cancelled ==> text == reader.source.all && (failed <==> reader.source.breaks)
    ensures cancelAfterReads.None? ==> reader.listener.cancelled == old(reader.listener.cancelled)
  {
    var buf := new char[BUFFER_SIZE];
    text, failed, bodyReads := [], false, [];
    var count := 0;
    while true
      invariant reader.Valid() && text == reader.delivered
      invariant reader.source.log.events == old(reader.source.log.events) + bodyReads
      invariant forall e :: e in bodyReads ==> e == BodyRead(BUFFER_SIZE)
      invariant cancelAfterReads.None? ==> reader.listener.cancelled == old(reader.listener.cancelled)
      decreases |reader.source.rest|
    {
      if cancelAfterReads == Some(count) {
        reader.listener.Cancel();
      }
      ghost var cancelled := reader.listener.cancelled;
      var r := reader.ReadInto(buf, 0, BUFFER_SIZE);
      if !cancelled {
        bodyReads := bodyReads + [BodyRead(BUFFER_SIZE)];
      }
      count := count + 1;
      if r.Failure? {
        failed := true;
        return;
      }
      if r.value == -1 {
        return;
      }
      text := text + buf[..r.value];
    }
  }

  /** Whether getProjectVersions reaches the body: opened, connected, status 2xx. */
  predicate ReachesBody(x: Exchange) {
    !x.openFails && !x.connectFails && StatusAccepted(x.code)
  }

  /** The calls made between opening the connection and disconnecting it. */
  function ConnectedEvents(x: Exchange, bodyReads: seq<Event>): seq<Event> {
    [ConnectAttempted] +
    if x.connectFails || !StatusAccepted(x.code) then []
    else [ListenerProvided(ExpectedSize(HeaderField(x, "Content-Length")))] + bodyReads + [StreamClosed]
  }

  /** The calls getProjectVersions makes on the transport and on the provider, in order. */
  function FetchEvents(x: Exchange, config: ConnectionConfig, url: Url, bodyReads: seq<Event>): seq<Event> {
    [Opened(config, url)] + if x.openFails then [] else ConnectedEvents(x, bodyReads) + [Disconnected]
  }

  /** What getProjectVersions returns or throws, given what the decoder was handed. */
  function FetchResult(x: Exchange, parse: string -> Option<seq<VersionInfo>>, delivered: string, readFailed: bool)
    : Result<seq<VersionInfo>, Fault>
  {
    if x.openFails || x.connectFails then Failure(TransportFault)
    else if !StatusAccepted(x.code) then Failure(BadResponseCode(x.code))
    // Gson rethrows an IOException of the reader it decodes from as its own exception
    else if readFailed then Failure(JsonFault)
    else match parse(delivered)
      case None => Failure(JsonFault)
      case Some(versions) => Success(versions)
  }

  /**
   * Once the connection has been obtained it is disconnected exactly once, as the
   * last call; when opening failed nothing is disconnected.
   */
  lemma {:induction false} FetchReleasesConnection(x: Exchange, config: ConnectionConfig, url: Url, bodyReads: seq<Event>)
    requires forall e :: e in bodyReads ==> e.BodyRead?
    ensures var events := FetchEvents(x, config, url, bodyReads);
      && Count(events, Disconnected) == (if x.openFails then 0 else 1)
      && (!x.openFails ==> events[|events| - 1] == Disconnected)
  {
    var head := [Opened(config, url)];
    var events := FetchEvents(x, config, url, bodyReads);
    if x.openFails {
      CountAbsent(head, Disconnected);
    } else {
      var middle := ConnectedEvents(x, bodyReads);
      assert events == head + middle + [Disconnected];
      assert Disconnected !in head + middle;
      CountAbsent(head + middle, Disconnected);
      CountConcat(head + middle, [Disconnected], Disconnected);
      assert Count([Disconnected], Disconnected) == 1 + Count([], Disconnected);
    }
  }

  /**
   * The listener provider is asked for a listener, and the body is read, only when
   * the connection opened and connected and its status is 2xx; a bad status becomes
   * BadResponseCode carrying that status.
   */
  lemma FetchChecksStatusFirst(x: Exchange, config: ConnectionConfig, url: Url, bodyReads: seq<Event>,
                               parse: string -> Option<seq<VersionInfo>>, delivered: string, readFailed: bool)
    requires forall e :: e in bodyReads ==> e.BodyRead?
    ensures var events := FetchEvents(x, config, url, bodyReads);
      var proceeds := ReachesBody(x);
      && (ListenerProvided(ExpectedSize(HeaderField(x, "Content-Length"))) in events <==> proceeds)
      && (!proceeds ==> forall e :: e in events ==> !e.ListenerProvided? && !e.BodyRead?)
      && (forall i :: 0 <= i < |events| && events[i].BodyRead? ==> 2 < i && events[2].ListenerProvided?)
    ensures !x.openFails && !x.connectFails && !StatusAccepted(x.code) ==>
      FetchResult(x, parse, delivered, readFailed) == Failure(BadResponseCode(x.code))
  {
    var events := FetchEvents(x, config, url, bodyReads);
    if ReachesBody(x) {
      var expected := ExpectedSize(HeaderField(x, "Content-Length"));
      assert events == [Opened(config, url), ConnectAttempted, ListenerProvided(expected)] + bodyReads + [StreamClosed, Disconnected];
      assert events[2] == ListenerProvided(expected);
    }
  }

  /**
   * The whole-call contract shared by the three overloads: the calls made, the result,
   * and what the decoder was handed (a prefix of the body; the whole body when reading failed).
   */
  ghost predicate Fetched(x: Exchange, config: ConnectionConfig, url: Url, parse: string -> Option<seq<VersionInfo>>,
                          before: seq<Event>, after: seq<Event>, r: Result<seq<VersionInfo>, Fault>,
                          bodyReads: seq<Event>, delivered: string, readFailed: bool)
  {
    && (forall e :: e in bodyReads ==> e.BodyRead?)
    && after == before + FetchEvents(x, config, url, bodyReads)
    && r == FetchResult(x, parse, delivered, readFailed)
    && delivered <= x.body
    && (readFailed ==> delivered == x.body && x.bodyBreaks)
  }

  /** A listing whose connection could not be opened: one call, and the transport fault. */
  lemma FetchedNotOpened(x: Exchange, config: ConnectionConfig, url: Url, parse: string -> Option<seq<VersionInfo>>,
                         before: seq<Event>, r: Result<seq<VersionInfo>, Fault>)
    requires x.openFails && r == Failure(TransportFault)
    ensures Fetched(x, config, url, parse, before, before + [Opened(config, url)], r, [], [], false)
  {
  }

  /** A listing whose connection was obtained: the connected calls sit between the open and the disconnect. */
  lemma FetchedOpened(x: Exchange, config: ConnectionConfig, url: Url, parse: string -> Option<seq<VersionInfo>>,
                      before: seq<Event>, r: Result<seq<VersionInfo>, Fault>,
                      bodyReads: seq<Event>, delivered: string, readFailed: bool)
    requires !x.openFails
    requires forall e :: e in bodyReads ==> e.BodyRead?
    requires r == FetchResult(x, parse, delivered, readFailed)
    requires delivered <= x.body && (readFailed ==> delivered == x.body && x.bodyBreaks)
    ensures Fetched(x, config, url, parse, before, before + [Opened(config, url)] + ConnectedEvents(x, bodyReads) + [Disconnected],
                    r, bodyReads, delivered, readFailed)
  {
    assert before + [Opened(config, url)] + ConnectedEvents(x, bodyReads) + [Disconnected]
        == before + FetchEvents(x, config, url, bodyReads);
  }

  /**
   * The part of getProjectVersions between obtaining the connection and the finally
   * block: connect, check the status, size the listener, decode through the tracked reader.
   */
  method ReadVersions(co: HttpConnection, p: ListenerProvider,
                      parse: string -> Option<seq<VersionInfo>>, cancelAfterReads: Option<nat>)
    returns (r: Result<seq<VersionInfo>, Fault>, ghost bodyReads: seq<Event>, ghost delivered: string,
             ghost readFailed: bool, ghost listener: IncrementalListener?)
    requires p.log == co.log && !co.exchange.openFails
    modifies co.log
    ensures forall e :: e in bodyReads ==> e.BodyRead?
    ensures co.log.events == old(co.log.events) + ConnectedEvents(co.exchange, bodyReads)
    ensures r == FetchResult(co.exchange, parse, delivered, readFailed)
    ensures delivered <= co.exchange.body
    ensures readFailed ==> delivered == co.exchange.body && co.exchange.bodyBreaks
    ensures (listener != null) == ReachesBody(co.exchange)
    ensures listener != null ==>
      && fresh(listener)
      && listener.expected == ExpectedSize(HeaderField(co.exchange, "Content-Length"))
      && listener.consumed == |delivered|
    ensures listener != null && !listener.cancelled ==> delivered == co.exchange.body && readFailed == co.exchange.bodyBreaks
    ensures listener != null && cancelAfterReads.None? ==> !listener.cancelled
  {
    bodyReads, delivered, readFailed, listener := [], [], false, null;
    var connected := co.Connect();
    if !connected {
      return Failure(TransportFault), bodyReads, delivered, readFailed, listener;
    }
    var code := co.GetResponseCode();
    if !StatusAccepted(code) {
      return Failure(BadResponseCode(code)), bodyReads, delivered, readFailed, listener;
    }
    var header := co.GetHeaderField("Content-Length");
    var l := p.Provide(ExpectedSize(header));
    listener := l;
    var body := co.GetInputStream();
    var reader := new TrackedReader(body, l);
    var text, failed;
    text, failed, bodyReads := ReadDocument(reader, cancelAfterReads);
    body.Close();
    delivered, readFailed := text, failed;
    if failed {
      r := Failure(JsonFault);
    } else {
      r := match parse(text)
        case None => Failure(JsonFault)
        case Some(versions) => Success(versions);
    }
  }

  /**
   * getProjectVersions(config, p, projectId, offset, limit, channels). The connection is
   * opened with the application's configuration `appConfig`, not with `config`, which
   * the body never reads. `parse` stands for Gson's decoding of the characters read.
   */
  method GetProjectVersionsVia(config: ConnectionConfig, p: ListenerProvider, projectId: string,
                               offset: Int32, limit: Int32, channels: seq<string>,
                               appConfig: ConnectionConfig, net: Network,
                               parse: string -> Option<seq<VersionInfo>>, cancelAfterReads: Option<nat>)
    returns (r: Result<seq<VersionInfo>, Fault>, ghost bodyReads: seq<Event>, ghost delivered: string,
             ghost readFailed: bool, ghost listener: IncrementalListener?)
    requires p.log == net.log
    modifies net.log
    ensures Fetched(net.exchange, appConfig, VersionsUrl(projectId, offset, limit, channels), parse,
                    old(net.log.events), net.log.events, r, bodyReads, delivered, readFailed)
    ensures (listener != null) == ReachesBody(net.exchange)
    ensures listener != null ==>
      && fresh(listener)
      && listener.expected == ExpectedSize(HeaderField(net.exchange, "Content-Length"))
      && listener.consumed == |delivered|
    ensures listener != null && !listener.cancelled ==> delivered == net.exchange.body && readFailed == net.exchange.bodyBreaks
    ensures listener != null && cancelAfterReads.None? ==> !listener.cancelled
  {
    var url := VersionsUrl(projectId, offset, limit, channels);
    bodyReads, delivered, readFailed, listener := [], [], false, null;
    var co: HttpConnection? := null;
    // try
    var connection := net.OpenHttpConnection(appConfig, url);
    if connection.Failure? {
      r := Failure(connection.error);
    } else {
      co := connection.value;
      r, bodyReads, delivered, readFailed, listener := ReadVersions(co, p, parse, cancelAfterReads);
    }
    // finally
    if co != null {
      co.Disconnect();
      FetchedOpened(net.exchange, appConfig, url, parse, old(net.log.events), r, bodyReads, delivered, readFailed);
    } else {
      FetchedNotOpened(net.exchange, appConfig, url, parse, old(net.log.events), r);
    }
  }

  /** getProjectVersions(p, projectId, offset, limit, channels): the application's configuration. */
  method GetProjectVersionsPage(p: ListenerProvider, projectId: string, offset: Int32, limit: Int32, channels: seq<string>,
                                appConfig: ConnectionConfig, net: Network,
                                parse: string -> Option<seq<VersionInfo>>, cancelAfterReads: Option<nat>)
    returns (r: Result<seq<VersionInfo>, Fault>, ghost bodyReads: seq<Event>, ghost delivered: string,
             ghost readFailed: bool, ghost listener: IncrementalListener?)
    requires p.log == net.log
    modifies net.log
    ensures Fetched(net.exchange, appConfig, VersionsUrl(projectId, offset, limit, channels), parse,
                    old(net.log.events), net.log.events, r, bodyReads, delivered, readFailed)
    ensures (listener != null) == ReachesBody(net.exchange)
    ensures listener != null ==>
      && fresh(listener)
      && listener.expected == ExpectedSize(HeaderField(net.exchange, "Content-Length"))
      && listener.consumed == |delivered|
    ensures listener != null && !listener.cancelled ==> delivered == net.exchange.body && readFailed == net.exchange.bodyBreaks
    ensures listener != null && cancelAfterReads.None? ==> !listener.cancelled
  {
    r, bodyReads, delivered, readFailed, listener :=
      GetProjectVersionsVia(appConfig, p, projectId, offset, limit, channels, appConfig, net, parse, cancelAfterReads);
  }

  /** getProjectVersions(p, projectId, channels): the first page of ten. */
  method GetProjectVersions(p: ListenerProvider, projectId: string, channels: seq<string>,
                            appConfig: ConnectionConfig, net: Network,
                            parse: string -> Option<seq<VersionInfo>>, cancelAfterReads: Option<nat>)
    returns (r: Result<seq<VersionInfo>, Fault>, ghost bodyReads: seq<Event>, ghost delivered: string,
             ghost readFailed: bool, ghost listener: IncrementalListener?)
    requires p.log == net.log
    modifies net.log
    ensures Fetched(net.exchange, appConfig, VersionsUrl(projectId, 0, 10, channels), parse,
                    old(net.log.events), net.log.events, r, bodyReads, delivered, readFailed)
    ensures (listener != null) == ReachesBody(net.exchange)
    ensures listener != null ==>
      && fresh(listener)
      && listener.expected == ExpectedSize(HeaderField(net.exchange, "Content-Length"))
      && listener.consumed == |delivered|
    ensures listener != null && !listener.cancelled ==> delivered == net.exchange.body && readFailed == net.exchange.bodyBreaks
    ensures listener != null && cancelAfterReads.None? ==> !listener.cancelled
  {
    r, bodyReads, delivered, readFailed, listener :=
      GetProjectVersionsPage(p, projectId, 0, 10, channels, appConfig, net, parse, cancelAfterReads);
  }
}
