# Ore plugin-repository client, modelled in Dafny

This project models the client side of the Ore plugin-repository API (`OreAPI` and
`VersionInfo`). It covers two operations.

**Version listing** (`OreAPI.getProjectVersions`):
- build the request suffix `projects/<id>/versions?offset=<o>&limit=<l>`, plus
  `&channels=<c1,c2,...>` only when channels are given;
- open and connect the connection;
- reject any status outside 2xx;
- pass the parsed `Content-Length`, or -1, to the caller's listener provider;
- decode the body through a reader that checks the listener's cancellation flag before
  every read and reports every character it delivers;
- disconnect in `finally`.

**Download resolution** (`VersionInfo.openDownloadConnection`):
- a staff-approved version gets one connection, to its download URL;
- any other version first has a JSON document read from that URL. Its `post` member
  names a second URL, which is opened with method `POST` and redirects followed.

It also models the first-match search `VersionInfo.getApiVersion`.

Modules:
- `Wrappers`: Option and Result (null and exceptions).
- `Faults`: the exceptions raised.
- `JavaText`: the Java text library the client relies on.
  - `Integer.toString` / `Long.toString` is `DecimalString`.
  - `Long.parseLong` is `ParseLong`.
  - `String.join` is `Join`. Its inverse `Split` is used only in lemmas.
- `Transport`: the HTTP transport as collaborators over a scripted `Exchange`.
  - The calls whose order matters are recorded in an `EventLog`. These are: opening a
    connection or a stream, `connect`, each body read with a non-empty request, closing the
    body, setting the request method or the redirect flag, `disconnect`, and the provider's
    `provide`.
  - `getResponseCode`, `getHeaderField`, `getInputStream`, the draining of the metadata
    stream, and the listener's `isCancelled` and `increment` are not recorded. Their effects
    appear in results and fields instead.
  - `CharSource` is the `InputStreamReader` over a body. Its buffered read may hand
    over any count from 1 to what was asked.
- `Listeners`: the progress listener (a cancellation flag and a counter) and its provider.
- `Versions`: `VersionInfo.java`.
- `OreApi`: `OreAPI.java`.

Behaviour the model follows on purpose:
- The six-argument `getProjectVersions` takes a `config` and never uses it. The
  connection is opened with the application's configuration (`OreAPI.java:68`).
  `GetProjectVersionsVia` takes that configuration as `appConfig`, and its trace records
  `appConfig` in the `Opened` event.
- A `Content-Length` that parses as a negative long goes to the provider unchanged. Only
  text that does not parse (a missing header included) becomes -1.
- The status check is `code / 100 != 2` with Java's truncating division. It rejects every
  code outside 200..299: 1xx, 3xx and -1 as well as 4xx and 5xx.
- The buffered read increments the listener whenever the delegate's result is not -1.
  That includes a zero-length read, which increments by 0.
- Channels are a sequence and are joined in the given order.
- Any body read happens inside `GSON.fromJson` or `JsonParser.parse`. Both rethrow the
  reader's IOException as their own exception, so a body that breaks surfaces as that
  exception (`JsonFault`).
- The connection returned by `openDownloadConnection` is not closed by it. Only the
  metadata stream is closed, and it is closed before the second connection is opened.

## Model

| member | source | states |
|---|---|---|
| `JavaText.DecimalString` | src/main/java/net/smoofyuniverse/common/ore/OreAPI.java:62 | The text appended for an int is non-empty. It starts with '-' exactly when the number is negative and is otherwise all digits. |
| `JavaText.ParseLong` | src/main/java/net/smoofyuniverse/common/ore/OreAPI.java:75 | A value is produced only for a string of digits with at most one leading '+' or '-' and at least one digit. Its sign follows the sign character. Null, empty, lone-sign and non-digit input gives the NumberFormatException. |
| `JavaText.ParseLongUnsigned` | src/main/java/net/smoofyuniverse/common/ore/OreAPI.java:75 | Any non-empty digit string parses to its decimal value when it fits a long, leading zeros included ("007" is 7). Out of range it gives the NumberFormatException. |
| `JavaText.ParseLongPlus` | src/main/java/net/smoofyuniverse/common/ore/OreAPI.java:75 | A leading '+' before a non-empty digit string is accepted and leaves the value unchanged ("+5" is 5). Out of range it gives the NumberFormatException. |
| `JavaText.ParseLongMinus` | src/main/java/net/smoofyuniverse/common/ore/OreAPI.java:75 | A leading '-' before a non-empty digit string negates its value ("-0" is 0), down to the smallest long. Out of range it gives the NumberFormatException. |
| `JavaText.ParseLongDecimalString` | src/main/java/net/smoofyuniverse/common/ore/OreAPI.java:75 | Parsing the decimal text of any long gives that long back, negative values included. |
| `JavaText.Join` | src/main/java/net/smoofyuniverse/common/ore/OreAPI.java:64 | Joining one channel gives that channel. Joining several starts with the first channel followed by the separator. |
| `JavaText.SplitJoin` | src/main/java/net/smoofyuniverse/common/ore/OreAPI.java:64 | Splitting the comma-joined channels at commas gives the channels back, in their order (channels without commas). |
| `OreApi.VersionsSuffix` | src/main/java/net/smoofyuniverse/common/ore/OreAPI.java:62-64 | The suffix starts with `projects/<id>/versions?offset=<o>&limit=<l>`. It equals that query exactly when no channels are given. Otherwise the rest is `&channels=` followed by the joined channels. |
| `OreApi.ChannelFilter` | src/main/java/net/smoofyuniverse/common/ore/OreAPI.java:63-64 | The `&channels=` part is empty exactly when no channels are given. |
| `OreApi.ChannelsRecoverable` | src/main/java/net/smoofyuniverse/common/ore/OreAPI.java:62-64 | What follows `&channels=` in the suffix splits back into the given channels, in order. |
| `OreApi.PageRecoverable` | src/main/java/net/smoofyuniverse/common/ore/OreAPI.java:62 | The offset right after `?offset=` and the limit at the end of the query both parse back to the values passed, whatever their sign. |
| `OreApi.StatusAccepted` | src/main/java/net/smoofyuniverse/common/ore/OreAPI.java:70-71 | With truncating division, the status passes the check if and only if it lies in 200..299. |
| `OreApi.ExpectedSize` | src/main/java/net/smoofyuniverse/common/ore/OreAPI.java:73-78 | The expected size is the parsed Content-Length whenever the header parses. It is -1 exactly when the header does not parse, a missing header included. |
| `OreApi.ExpectedSizeOfDecimal` | src/main/java/net/smoofyuniverse/common/ore/OreAPI.java:73-80 | Any long written in the header reaches the provider unchanged, negative ones included (no clamping). |
| `OreApi.TrackedReader.constructor` | src/main/java/net/smoofyuniverse/common/ore/OreAPI.java:82 | A new reader over a fresh body has delivered nothing. Its invariant holds: delivered characters followed by the unread rest make up the body, and the listener's counter equals its starting value plus the count delivered. |
| `OreApi.TrackedReader.Read` | src/main/java/net/smoofyuniverse/common/ore/OreAPI.java:85-93 | Cancelled: returns -1 and changes nothing (no delegate read, no increment, no log entry). Otherwise: the next character with an increment of 1, or the delegate's -1 or exception with no increment. The invariant is kept. |
| `OreApi.TrackedReader.ReadInto` | src/main/java/net/smoofyuniverse/common/ore/OreAPI.java:96-104 | Cancelled: returns -1 and touches neither the delegate, the buffer nor the counter. Otherwise: exactly a possible delegate result, the handed-over characters copied into the buffer, and the counter grown by that count. The invariant is kept. |
| `OreApi.ReadDocument` | src/main/java/net/smoofyuniverse/common/ore/OreAPI.java:106 | Decoding reads the body in order, and the text read is what the reader delivered. Without cancellation it is the whole body, the counter grows by its length, and reading fails exactly when the body breaks. After cancellation it is a prefix. |
| `OreApi.ReadVersions` | src/main/java/net/smoofyuniverse/common/ore/OreAPI.java:69-107 | Connect, then check the status. Only on 2xx: give the expected size to the provider, read through the tracked reader, close it and decode. The result is one of: the connect fault; `BadResponseCode(code)`; Gson's exception when the body breaks during decoding or does not decode; or the decoded versions. |
| `OreApi.FetchReleasesConnection` | src/main/java/net/smoofyuniverse/common/ore/OreAPI.java:108-111 | Once the connection is obtained it is disconnected exactly once, as the last call, on every path. When opening fails nothing is disconnected. |
| `OreApi.FetchChecksStatusFirst` | src/main/java/net/smoofyuniverse/common/ore/OreAPI.java:70-80 | The provider is called if and only if the connection opened and connected with a 2xx status. Every body read comes after that call. A bad status fails with its code. |
| `OreApi.GetProjectVersionsVia` | src/main/java/net/smoofyuniverse/common/ore/OreAPI.java:61-112 | The whole call: the request goes to the suffix URL with the application's configuration, not the `config` argument. The call trace and result follow `FetchEvents` / `FetchResult`. A body that breaks while Gson reads it gives Gson's exception, not the IOException. The listener gets the expected size, and its counter equals the characters delivered. |
| `OreApi.GetProjectVersionsPage` | src/main/java/net/smoofyuniverse/common/ore/OreAPI.java:57-59 | Same contract as the full call for the given page. |
| `OreApi.GetProjectVersions` | src/main/java/net/smoofyuniverse/common/ore/OreAPI.java:53-55 | Same contract as the full call with offset 0 and limit 10. Every other argument is passed through unchanged. |
| `Versions.GetApiVersion` | src/main/java/net/smoofyuniverse/common/ore/object/VersionInfo.java:45-51 | The loop returns what `ApiVersion` specifies. A null dependency list raises a NullPointerException. |
| `Versions.ApiVersionFirstMatch` | src/main/java/net/smoofyuniverse/common/ore/object/VersionInfo.java:46-48 | The first "spongeapi" entry in list order decides the result. Later duplicates are ignored. |
| `Versions.ApiVersionAbsent` | src/main/java/net/smoofyuniverse/common/ore/object/VersionInfo.java:50 | With no "spongeapi" entry, the empty list included, the result is null. |
| `Versions.ApiVersionFound` | src/main/java/net/smoofyuniverse/common/ore/object/VersionInfo.java:45-51 | A non-null result is the version of some "spongeapi" entry. |
| `Versions.DownloadUrl` | src/main/java/net/smoofyuniverse/common/ore/object/VersionInfo.java:58 | The URL starts with the Ore projects base, ends with `/download`, and has the length of its parts. |
| `Versions.DownloadUrlInjective` | src/main/java/net/smoofyuniverse/common/ore/object/VersionInfo.java:58 | For plugin ids without '/', different (plugin, version) pairs have different URLs. |
| `Versions.PostUrl` | src/main/java/net/smoofyuniverse/common/ore/object/VersionInfo.java:63 | A post URL is found only in a JSON object with a `post` member, and a string member gives exactly that string. An object without `post` gives the NullPointerException, and only it does. Every other failure is a Gson exception. |
| `Versions.ResolveApproved` | src/main/java/net/smoofyuniverse/common/ore/object/VersionInfo.java:59-60 | An approved version makes exactly one call, an open of the download URL. The connection comes back with method and redirect flag as opened. |
| `Versions.ResolveUnapproved` | src/main/java/net/smoofyuniverse/common/ore/object/VersionInfo.java:62-69 | The calls are: the metadata stream opened on the download URL, then closed, then the post URL opened and set to POST with redirects followed. |
| `Versions.ResolveMissingPost` | src/main/java/net/smoofyuniverse/common/ore/object/VersionInfo.java:62-64 | Metadata that is an object without `post` makes the call fail with a NullPointerException after the stream is closed. No second connection is opened. |
| `Versions.ResolveUnusablePost` | src/main/java/net/smoofyuniverse/common/ore/object/VersionInfo.java:62-64 | Metadata that does not parse, is not an object, or has a `post` without a string form makes the call fail with a Gson exception after the stream is closed. No second connection is opened. |
| `Versions.ResolveMetadataBreaks` | src/main/java/net/smoofyuniverse/common/ore/object/VersionInfo.java:62-64 | A metadata stream that breaks while it is parsed gives JsonParser's exception, not the IOException. The stream is closed and no second connection is opened. |
| `Versions.ResolveRequestCount` | src/main/java/net/smoofyuniverse/common/ore/object/VersionInfo.java:57-70 | One request when approved or when no post URL is obtained, two otherwise. |
| `Versions.OpenDownloadConnection` | src/main/java/net/smoofyuniverse/common/ore/object/VersionInfo.java:57-70 | The trace is `ResolveEvents`. Every request uses the `cfg` passed in. The returned fresh connection has the URL, method and redirect flag `ResolveResult` describes. Failures carry its fault: the IOException of an open, Gson's exception for broken or unusable metadata, or the NullPointerException for a missing `post`. |
| `Versions.OpenDownloadConnectionDefault` | src/main/java/net/smoofyuniverse/common/ore/object/VersionInfo.java:53-55 | Same contract as the full call, using the application's configuration. |

## Left out

- HTTP transport: connections, streams and the server are a scripted `Exchange`.
  - There are no timeouts, proxies or TLS.
  - The two connections of one download resolution share one script.
  - A failing `getInputStream` is not modelled: the body stream always opens. Its
    IOException would reach the caller unwrapped, unlike a failure during reading, which
    Gson rethrows as its own exception.
  - A failing `getResponseCode` counts as a failing connect.
  - Header lookup is exact, not case-insensitive.
- `IOUtil.appendSuffix` is not interpreted; the URL is the pair (base, suffix). URL
  validity (`MalformedURLException`) is not modelled, for the base or for the post URL.
- Gson decoding is the parameter `parse` applied to the characters delivered. `InstantAdapter`
  and the `createdAt`, `tags` and `channel` fields are not modelled.
  - Gson returns null for an empty document; the model's success value cannot be a null list.
- ReadDocument: Gson's own reading pattern is not modelled. It refills its 1024-character
  buffer at varying offsets. The model always asks for 1024 characters at offset 0 and
  reads until the end of the stream.
- The metadata stream of an unapproved download is drained in one step. Its reads are not
  traced.
- Characters, not bytes: charset decoding of the response is not modelled.
- JavaText.ParseLong accepts ASCII digits only. `Long.parseLong` also accepts other
  Unicode decimal digits.
- The `App` singleton, the logger and the static initializer are not modelled. The
  application's configuration is the parameter `appConfig`, and `URL_BASE` is the constant
  `BASE`.
- Listener internals (`IncrementalListener`, `IncrementalListenerProvider`) are not part of
  this model.
  - A provided listener starts uncancelled at zero.
  - Cancellation happens only before a read, at the point `cancelAfterReads` gives.
  - Concurrent or asynchronous cancellation during a read is not modelled.
- Null strings other than the dependency list and a dependency's fields are not modelled.
  Java would write "null" into a URL for a null plugin id or name, or for a null channel.
  A null `channels` array is not modelled either: it throws a NullPointerException at
  `channels.length` (`OreAPI.java:63`).
  A null entry inside the dependency list is not modelled either.
- Concurrency between calls is not modelled.
