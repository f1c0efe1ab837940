/**
 * The HTTP transport the client talks to, kept abstract: a scripted server (`Exchange`)
 * says how each call behaves, and every call the client makes is appended to a shared
 * `EventLog`, so that the order of opens, reads, closes and disconnects can be stated.
 */
module Transport {
  import opened Wrappers
  import opened Faults
  import opened JavaText

  /** A ConnectionConfiguration, known only by its identity. */
  datatype ConnectionConfig = ConnectionConfig(name: string)

  /**
   * A request target: a suffix appended to a base URL (IOUtil.appendSuffix, left
   * uninterpreted) or a complete URL string.
   */
  datatype Url = Suffixed(base: string, suffix: string) | Absolute(spec: string)

  /** How the server and the network answer, for every connection the client opens. */
  datatype Exchange = Exchange(
    openFails: bool,              // openHttpConnection throws
    connectFails: bool,           // connect() or reading the status line throws
    code: Int32,                  // the response code
    headers: map<string, string>, // the response header fields
    body: string,                 // the response body, as characters
    bodyBreaks: bool,             // reading past the end of `body` throws instead of reporting the end
    streamFails: bool,            // openStream throws
    defaultFollowRedirects: bool) // the redirect flag a newly opened connection carries

  /** HttpURLConnection.getHeaderField: null when the field is absent. */
  function HeaderField(x: Exchange, name: string): Option<string> {
    if name in x.headers then Some(x.headers[name]) else None
  }

  /** One observable call on the transport or on the progress listener. */
  datatype Event =
    | Opened(config: ConnectionConfig, url: Url)  // an HTTP connection was requested
    | ConnectAttempted
    | ListenerProvided(expected: int)             // the listener provider was asked for a listener
    | BodyRead(requested: int)                    // a read reached the underlying character stream
    | StreamOpened(config: ConnectionConfig, url: Url)
    | StreamClosed
    | RequestMethodSet(requestMethod: string)
    | FollowRedirectsSet(follow: bool)
    | Disconnected

  /** The number of occurrences of e in events. */
  function Count(events: seq<Event>, e: Event): nat {
    if events == [] then 0 else (if events[0] == e then 1 else 0) + Count(events[1..], e)
  }

  /** The number of requests issued: connections and streams opened. */
  function Requests(events: seq<Event>): nat {
    if events == [] then 0
    else (if events[0].Opened? || events[0].StreamOpened? then 1 else 0) + Requests(events[1..])
  }

  lemma {:induction false} CountConcat(a: seq<Event>, b: seq<Event>, e: Event)
    ensures Count(a + b, e) == Count(a, e) + Count(b, e)
    decreases |a|
  {
    if a != [] {
      assert (a + b)[1..] == a[1..] + b;
      CountConcat(a[1..], b, e);
    } else {
      assert a + b == b;
    }
  }

  lemma {:induction false} CountAbsent(a: seq<Event>, e: Event)
    requires e !in a
    ensures Count(a, e) == 0
    decreases |a|
  {
    if a != [] {
      CountAbsent(a[1..], e);
    }
  }

  lemma {:induction false} RequestsConcat(a: seq<Event>, b: seq<Event>)
    ensures Requests(a + b) == Requests(a) + Requests(b)
    decreases |a|
  {
    if a != [] {
      assert (a + b)[1..] == a[1..] + b;
      RequestsConcat(a[1..], b);
    } else {
      assert a + b == b;
    }
  }

  class EventLog {
    var events: seq<Event>

    constructor ()
      ensures events == []
    {
      events := [];
    }

    method Record(e: Event)
      modifies this
      ensures events == old(events) + [e]
    {
      events := events + [e];
    }
  }

  /** The number of characters a read result hands over (none for -1, 0 or an exception). */
  function Taken(r: Result<int, Fault>): nat {
    if r.Success? && r.value > 0 then r.value else 0
  }

  /**
   * The results InputStreamReader.read(cbuf, offset, length) may give when `rest` is
   * what is left of the stream: IndexOutOfBoundsException for a range outside the
   * buffer, 0 for an empty request, -1 (or the stream's IOException) at the end, and
   * otherwise between 1 and `length` characters, never more than remain.
   */
  predicate ReadIntoOutcome(rest: string, breaks: bool, offset: int, length: int, capacity: int, r: Result<int, Fault>) {
    if offset < 0 || length < 0 || offset + length > capacity then r == Failure(IndexOutOfBounds)
    else if length == 0 then r == Success(0)
    else if rest == [] then r == (if breaks then Failure(TransportFault) else Success(-1))
    else r.Success? && 1 <= r.value <= length && r.value <= |rest|
  }

  /** An InputStreamReader over a response body: the characters not yet read are `rest`. */
  class CharSource {
    const log: EventLog
    ghost const all: string
    const breaks: bool
    var rest: string

    constructor (log: EventLog, text: string, breaks: bool)
      ensures this.log == log && all == text && rest == text && this.breaks == breaks
    {
      this.log := log;
      all := text;
      rest := text;
      this.breaks := breaks;
    }

    /** read(): the next character, or -1 at the end of the stream. */
    method Read() returns (r: Result<int, Fault>)
      modifies this, log
      ensures log.events == old(log.events) + [BodyRead(1)]
      ensures old(rest) == [] ==> rest == [] && r == (if breaks then Failure(TransportFault) else Success(-1))
      ensures old(rest) != [] ==> rest == old(rest)[1..] && r == Success(old(rest)[0] as int)
    {
      log.Record(BodyRead(1));
      if rest == [] {
        r := if breaks then Failure(TransportFault) else Success(-1);
      } else {
        r := Success(rest[0] as int);
        rest := rest[1..];
      }
    }

    /** read(cbuf, offset, length): copies the characters it hands over into cbuf[offset..]. */
    method ReadInto(cbuf: array<char>, offset: int, length: int) returns (r: Result<int, Fault>)
      modifies this, log, cbuf
      ensures ReadIntoOutcome(old(rest), breaks, offset, length, cbuf.Length, r)
      ensures rest == old(rest)[Taken(r)..]
      ensures Taken(r) > 0 ==> cbuf[offset..offset + Taken(r)] == old(rest)[..Taken(r)]
      ensures forall i :: 0 <= i < cbuf.Length && !(offset <= i < offset + Taken(r)) ==> cbuf[i] == old(cbuf[i])
      ensures log.events == old(log.events) +
        (if 0 <= offset && 0 < length && offset + length <= cbuf.Length then [BodyRead(length)] else [])
    {
      if offset < 0 || length < 0 || offset + length > cbuf.Length {
        return Failure(IndexOutOfBounds);
      }
      if length == 0 {
        return Success(0);
      }
      log.Record(BodyRead(length));
      if rest == [] {
        return if breaks then Failure(TransportFault) else Success(-1);
      }
      var n :| 1 <= n <= length && n <= |rest|;
      forall i | 0 <= i < n {
        cbuf[offset + i] := rest[i];
      }
      rest := rest[n..];
      r := Success(n);
    }

    /** Drains the stream, as a parser reading a whole document does. */
    method ReadRemaining() returns (r: Result<string, Fault>)
      modifies this
      ensures rest == []
      ensures r == if breaks then Failure(TransportFault) else Success(old(rest))
    {
      r := if breaks then Failure(TransportFault) else Success(rest);
      rest := [];
    }

    method Close()
      modifies log
      ensures log.events == old(log.events) + [StreamClosed]
    {
      log.Record(StreamClosed);
    }
  }

  /** An HttpURLConnection: its target, and the two settings the client may change. */
  class HttpConnection {
    const log: EventLog
    const exchange: Exchange
    const url: Url
    const config: ConnectionConfig
    var requestMethod: string
    var followRedirects: bool

    constructor (log: EventLog, exchange: Exchange, config: ConnectionConfig, url: Url)
      ensures this.log == log && this.exchange == exchange && this.config == config && this.url == url
      ensures requestMethod == "GET" && followRedirects == exchange.defaultFollowRedirects
    {
      this.log := log;
      this.exchange := exchange;
      this.config := config;
      this.url := url;
      requestMethod := "GET";
      followRedirects := exchange.defaultFollowRedirects;
    }

    /** connect() followed by reading the status line; false is the IOException. */
    method Connect() returns (ok: bool)
      modifies log
      ensures log.events == old(log.events) + [ConnectAttempted]
      ensures ok == !exchange.connectFails
    {
      log.Record(ConnectAttempted);
      ok := !exchange.connectFails;
    }

    method GetResponseCode() returns (code: Int32)
      ensures code == exchange.code
    {
      code := exchange.code;
    }

    method GetHeaderField(name: string) returns (value: Option<string>)
      ensures value == HeaderField(exchange, name)
    {
      value := HeaderField(exchange, name);
    }

    method GetInputStream() returns (s: CharSource)
      ensures fresh(s) && s.log == log
      ensures s.all == exchange.body && s.rest == exchange.body && s.breaks == exchange.bodyBreaks
    {
      s := new CharSource(log, exchange.body, exchange.bodyBreaks);
    }

    method SetRequestMethod(m: string)
      modifies this, log
      ensures requestMethod == m && followRedirects == old(followRedirects)
      ensures log.events == old(log.events) + [RequestMethodSet(m)]
    {
      log.Record(RequestMethodSet(m));
      requestMethod := m;
    }

    method SetInstanceFollowRedirects(follow: bool)
      modifies this, log
      ensures followRedirects == follow && requestMethod == old(requestMethod)
      ensures log.events == old(log.events) + [FollowRedirectsSet(follow)]
    {
      log.Record(FollowRedirectsSet(follow));
      followRedirects := follow;
    }

    method Disconnect()
      modifies log
      ensures log.events == old(log.events) + [Disconnected]
    {
      log.Record(Disconnected);
    }
  }

  /** ConnectionConfiguration's two ways of reaching a URL, over the scripted exchange. */
  class Network {
    const log: EventLog
    const exchange: Exchange

    constructor (log: EventLog, exchange: Exchange)
      ensures this.log == log && this.exchange == exchange
    {
      this.log := log;
      this.exchange := exchange;
    }

    /** openHttpConnection(url): a new, not yet connected connection. */
    method OpenHttpConnection(config: ConnectionConfig, url: Url) returns (r: Result<HttpConnection, Fault>)
      modifies log
      ensures log.events == old(log.events) + [Opened(config, url)]
      ensures r.Failure? <==> exchange.openFails
      ensures r.Failure? ==> r.error == TransportFault
      ensures r.Success? ==> fresh(r.value) && r.value.log == log && r.value.exchange == exchange
      ensures r.Success? ==> r.value.config == config && r.value.url == url
      ensures r.Success? ==> r.value.requestMethod == "GET" && r.value.followRedirects == exchange.defaultFollowRedirects
    {
      log.Record(Opened(config, url));
      if exchange.openFails {
        r := Failure(TransportFault);
      } else {
        var co := new HttpConnection(log, exchange, config, url);
        r := Success(co);
      }
    }

    /** openStream(url): the response body of a GET to url. */
    method OpenStream(config: ConnectionConfig, url: Url) returns (r: Result<CharSource, Fault>)
      modifies log
      ensures log.events == old(log.events) + [StreamOpened(config, url)]
      ensures r.Failure? <==> exchange.streamFails
      ensures r.Failure? ==> r.error == TransportFault
      ensures r.Success? ==> fresh(r.value) && r.value.log == log
      ensures r.Success? ==> r.value.rest == exchange.body && r.value.breaks == exchange.bodyBreaks
    {
      log.Record(StreamOpened(config, url));
      if exchange.streamFails {
        r := Failure(TransportFault);
      } else {
        var s := new CharSource(log, exchange.body, exchange.bodyBreaks);
        r := Success(s);
      }
    }
  }
}
