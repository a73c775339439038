# Twitter for PHP, modelled in Dafny

A model of the `Twitter` class of Twitter for PHP (`twitter.class.php`,
version 1.3), with proofs about it. The class is a small client for the
Twitter REST API 1.0. The model covers three parts:

- **The authorization handshake of the constructor.** It is the
  three-legged OAuth flow of section 2 of RFC 5849.
  - Built without access credentials and with no pending request token, the
    client fetches a request token, keeps it in the session (`$_SESSION['__TWT']`)
    and signals a redirect to the authorization URL (code 301).
  - Built again, it exchanges the pending token for an access token, drops
    the session entry and signals the access token (code 200).
  - Built with an access key and secret, it is authorized.
- **Request building.**
  - `load` decodes the timeline and format flags (`$flags & 0x0F`,
    `$flags & 0x30`) and builds the timeline URL with its query string.
  - `search` accepts only the JSON and ATOM formats.
  - `send` shortens links when the message is longer than 140 code points.
  - `destroy` deletes a status by id.
  - All of them go through `httpRequest`. It refuses to run unless the client
    is authorized. It sends POST exactly when there is data to post. It picks
    the JSON decoder when `strpos($url, 'json')` is truthy and SimpleXML
    otherwise. It rejects an empty or undecodable body as "Invalid server
    response".
- **The stale-on-error cache of `cachedHttpRequest`.** It is used by `load`.
  - A fresh, non-empty cached response is served without a request.
  - Otherwise the live request is made, and on success it is written back
    stamped with the current time.
  - On a `TwitterException` the cached response is served, however stale it
    is.

Modules, one per file:

- `Results` (`results.dfy`): `Option`, `Result`, and the errors the class
  raises.
- `Text` (`text.dfy`): PHP string truthiness and `strpos`, plus the
  decimal rendering of integers and booleans in string interpolation, each
  with its parser and round-trip lemmas.
- `Payloads` (`payloads.dfy`): decoded payloads and the decoder rules.
  - The XML and JSON library functions are a parameter, a `Codec`.
  - `Lawful` states what the model assumes of them.
- `OAuth` (`oauth.dfy`): the TwitterOAuth collaborator.
  - Its remote behaviour is a `Remote` value.
  - A `Service` object logs every call, so "makes no request" is stated as
    "the log does not grow".
- `Requests` (`requests.dfy`): flags, URLs, the GET/POST choice, the
  140-code-point gate, and the outcome of one `httpRequest`.
- `Handshake` (`handshake.dfy`): one run of the constructor's handshake over
  the session.
- `Cache` (`cache.dfy`): one decision of `cachedHttpRequest`, and the cache
  directory as an object holding its files.
- `Client` (`client.dfy`): the `Twitter` class itself.
  - Its methods change the session, the service log, the cache files and
    `$this->oauth`.
  - Each method's postcondition ties it to the functions above.

Points where the code's behaviour is worth knowing:

- `search` posts its query: `httpRequest` receives `array('q' => $query)`,
  so the request is a POST.
- `include_rts=$retweets` renders FALSE as the empty string and TRUE as `1`.
- The decoder test is `strpos` truthiness. A URL that starts with `json`
  would get the XML decoder. Every URL the class builds starts with `http`.
- `cachedHttpRequest` reads the cache before `httpRequest` checks
  authorization. A client that is not authorized is still served stored
  entries, fresh or stale (`Client.UnauthorizedReadsCache`).

## Model

| member | source | states |
|---|---|---|
| Text.StrposTruthyMeaning | twitter.class.php:194 | `strpos($s, $p)` is truthy exactly when `$p` occurs in `$s` and not at index 0 |
| Text.Strpos | twitter.class.php:194 | `strpos` finds a match exactly when the pattern occurs, and then the first index where it occurs |
| Text.BoolToString | twitter.class.php:139 | a boolean interpolates to a string whose truthiness is the boolean |
| Text.IntToStringRoundTrip | twitter.class.php:139 | decimal interpolation of an integer reads back as the same integer |
| Payloads.DecoderFor | twitter.class.php:194-199 | a response is decoded as JSON exactly when "json" occurs in the URL other than at index 0 |
| Payloads.DecodeBody | twitter.class.php:194-205 | a body is accepted exactly when the chosen decoder parses it to a non-empty value; otherwise the error is "Invalid server response" |
| Payloads.StoredDecoder | twitter.class.php:223 | a cached text is decoded as XML exactly when its first byte is '<' (`strncmp` with '<' is 0), as JSON otherwise, the empty text included |
| Payloads.Encode | twitter.class.php:230 | under a lawful codec, the text written to the cache (`asXml()` or `json_encode`) starts with '<' exactly for an XML payload, so the first-byte rule picks its decoder again |
| Payloads.Member | twitter.class.php:175 | a property read `->name` yields the first child with that name, and nothing only when no child has it |
| Payloads.EncodeRoundTrip | twitter.class.php:223-230 | a non-empty payload written as `asXml()` or `json_encode` is read back by the first-byte rule with its own decoder, as the same value |
| Payloads.StatusId | twitter.class.php:113 | the returned id is the text of the response's first `id` member, and is absent exactly when there is no such member |
| Requests.TimelineOf | twitter.class.php:129 | the timeline table is set exactly for the codes 1 to 4 |
| Requests.FormatOf | twitter.class.php:130 | the format table is set exactly for the codes 0, 16, 32 and 48 |
| Requests.FormatBits | twitter.class.php:135 | `$flags & 0x30` is one of 0, 16, 32 and 48, and agrees with the flags in bits 4 and 5 (negative flags included) |
| Requests.DecodeLoadFlags | twitter.class.php:132-137 | a non-integer flag selects ME_AND_FRIENDS or ME by its truth value; an integer flag is accepted exactly when its low four bits are 1 to 4, with the timeline and format codes equal to the masked bits; otherwise InvalidArgumentException |
| Requests.TimelineBits | twitter.class.php:135 | `$flags & 0x0F` is the value in 0..15 congruent to the flags modulo 16, negative flags included |
| Requests.LoadFlagsIgnoreHighBits | twitter.class.php:135 | bits above 0x3F do not change the outcome of `load`'s flag check |
| Requests.DecodeSearchFlags | twitter.class.php:167-170 | `search` accepts a flag exactly when `$flags & 0x30` is JSON or ATOM, and rejects every other one with InvalidArgumentException |
| Requests.QueryRoundTrip | twitter.class.php:139 | the query string `count=…&page=…&include_rts=…` reads back as the count, page and retweets flag |
| Requests.LoadUrlRoundTrip | twitter.class.php:129-139 | the timeline URL reads back as the timeline, format, count, page and retweets flag it was built from |
| Requests.LoadUrl | twitter.class.php:139 | the timeline URL lies under `http://api.twitter.com/1/statuses/` and ends with the `count`, `page` and `include_rts` query string |
| Requests.LoadUrlInjective | twitter.class.php:139 | distinct `load` calls never share a URL, and so never share a cache file |
| Requests.LoadDecoder | twitter.class.php:139 | a timeline is decoded with the JSON decoder exactly for the JSON format; XML, RSS and ATOM use SimpleXML |
| Requests.SearchDecoder | twitter.class.php:172-175 | a search in JSON is decoded as JSON, one in ATOM as XML |
| Requests.SearchUrl | twitter.class.php:172-173 | the search URL is `http://search.twitter.com/search.` followed by the format's extension and nothing else |
| Requests.UpdateDecoder | twitter.class.php:109-112 | the status-update response is decoded as XML |
| Requests.OutgoingStatus | twitter.class.php:105-107 | a message of at most 140 code points is sent unchanged; a longer one is sent with its links shortened |
| Requests.DestroyUrlAsWrittenNamesNoStatus | twitter.class.php:152 | for every id, the URL as written carries a ':' before the id, so its last path segment names no status |
| Requests.DestroyUrlAsWrittenExample | twitter.class.php:152 | for the status 42 the URL as written ends in `/destroy/:42.xml` |
| Requests.DestroyUrlNamesStatus | twitter.class.php:152 | the corrected URL's last path segment reads back as the id to destroy |
| Requests.DestroyUrlAsWritten | twitter.class.php:152 | the URL `destroy` builds is the destroy endpoint, then ':' and the decimal id, then `.xml` |
| Requests.DestroyDecoder | twitter.class.php:152 | a destroy response is decoded as XML, both for the URL as written and for the corrected one |
| Requests.MethodFor | twitter.class.php:193 | the request is a POST exactly when there is data to post |
| Requests.HttpOutcome | twitter.class.php:187-206 | without authorization the result is "Not authorized" and no request is made; with it, a transport failure is passed on, and a body is decoded by the URL rule; a success is never empty and always carries the URL's decoder; every failure is a TwitterException |
| Handshake.PendingToken | twitter.class.php:60-61 | a request token is pending exactly when both session values are set and truthy |
| Handshake.Run | twitter.class.php:57-82 | truthy access key and secret authorize with no request and no session change; otherwise, with no pending token, one request-token call, the token stored in the session and a redirect to its authorization URL; with a pending token, one access-token call with it, the session entry removed whatever the call returns, and the access token signalled; a failed token call ends the run with `AuthFailed` carrying the library's error |
| Handshake.ThreeLeggedFlow | twitter.class.php:57-82 | from an empty session the constructor redirects, then exchanges exactly the token it stored and leaves no session entry behind; built with the access token, the client is authorized |
| Handshake.PendingTokenSingleUse | twitter.class.php:69-71 | once exchanged, a pending token is gone: the next run starts over with a request-token call |
| Cache.Candidate | twitter.class.php:222-224 | a stored response is a candidate exactly when it exists and decodes, by its first byte, to a non-empty value, and then it is that decoded value |
| Cache.Fresh | twitter.class.php:224 | a stored entry is fresh exactly when its age, the current time minus its modification time, is below the expiry time; with no positive expiry only an entry dated in the future is |
| Cache.Decide | twitter.class.php:215-239 | without a cache directory the call is the live request; a fresh, non-empty entry is served with no request; a successful refresh is written back stamped with the current time; a failed refresh falls back to the stored entry, fresh or stale; the cache never invents a failure or serves an empty value |
| Cache.FreshHitAfterRefresh | twitter.class.php:224-231 | after a successful refresh, any call within the expiry time gets the same payload with no request |
| Cache.StaleAfterFailedRefresh | twitter.class.php:228-237 | after a successful refresh, any later call whose request fails gets the refreshed payload, however old |
| Cache.CacheDir.Read | twitter.class.php:221-222 | reads the file stored for the URL, if any |
| Cache.CacheDir.Write | twitter.class.php:230 | stores the text for the URL stamped with the current time, leaving other files alone |
| OAuth.Service.GetRequestToken | twitter.class.php:62-63 | returns the service's request token and logs exactly one call |
| OAuth.Service.GetAccessToken | twitter.class.php:70-73 | returns the service's access token for the pending token and logs exactly one call |
| OAuth.Service.OAuthRequest | twitter.class.php:193 | returns the service's response to the signed request and logs exactly one call |
| Client.CachedCallKeepsFormat | twitter.class.php:215-239 | under a lawful codec, what the cache serves for a URL carries that URL's decoder, and what it writes keeps every stored entry consistent with its URL |
| Client.LoadResultFormat | twitter.class.php:127-140 | what `load` returns, from the cache or the service, is JSON exactly when JSON was asked for |
| Client.UnauthorizedReadsCache | twitter.class.php:217-236 | a client that is not authorized is still served a stored entry, fresh or stale, and writes nothing back |
| Client.Twitter.constructor | twitter.class.php:44 | a new object is not authorized |
| Client.Twitter.Authorize | twitter.class.php:57-82 | the constructor's effect on its outcome, the session, the service log and `$this->oauth` is exactly one run of the handshake; only the authorized outcome sets the credentials |
| Client.Twitter.IsAuthorized | twitter.class.php:90-93 | true exactly when the client holds credentials |
| Client.Twitter.HttpRequest | twitter.class.php:187-206 | the result is the outcome of one request, and the log grows by exactly that request, or by nothing when not authorized |
| Client.Twitter.CachedHttpRequest | twitter.class.php:215-239 | result, requests made and files written are exactly those of the cache decision for the stored entry and the current time |
| Client.Twitter.Send | twitter.class.php:103-114 | posts the status of at most 140 code points (or its shortened form) to the update URL; returns the new status's id or none; touches no cache file |
| Client.Twitter.Load | twitter.class.php:127-140 | bad flags fail with InvalidArgumentException before any request or file access; otherwise it is the cached request for the URL of the decoded timeline, format, count, page and retweets flag; the arguments default to ME, 20, 1 and FALSE |
| Client.Twitter.Destroy | twitter.class.php:150-154 | posts the id to the destroy URL as the class builds it (with the ':') and returns the echoed id or none |
| Client.Twitter.Search | twitter.class.php:165-176 | a format other than JSON or ATOM fails before any request; otherwise it posts the query and returns the `results` member of the response; the format defaults to JSON |

## Left out

- TwitterOAuth (`lib/twitteroauth.php`) is not part of this model. Its
  signing, its HTTP transport and its parsing of token responses are a
  `Remote` value. A failed call is a `Result` error, which the model turns
  into the `Transport` failure. That is an assumption about the library, not
  something the class does: `httpRequest` has no `try`, so an exception from
  `oAuthRequest` passes through unchanged, and `cachedHttpRequest` catches it
  only if it is a TwitterException. The model assumes it is. A failed
  transport that instead returns an empty or FALSE body is an undecodable
  body in the class, and the model gives "Invalid server response" for it,
  as the class does.
- Handshake.Run: a failed token call ends the run with `AuthFailed`, and the
  contract states this. The source would instead go on with NULL token
  fields; the model does not follow that path.
- `shortenUrl` and the link pattern of `send` are left out, because they are
  a cURL call to is.gd and a PCRE substitution. `send` takes the substitution
  as a function `shortenLinks`.
- `simplexml_load_string`, `json_decode`, `asXml`, `json_encode` and PHP's
  `empty()` on a decoded value are the `Codec` parameter. `Lawful` is assumed
  of them only where a lemma needs it.
- Payloads.StatusId: the truthiness of `$xml->id` is read as "the member
  exists". The model does not capture that an `<id/>` element with no text,
  children or attributes is falsy.
- The cache file name `twitter.` + `md5($url)`: files are keyed by URL, so
  md5 is assumed to have no collision on the URLs the class builds.
- File-system failures of `file_get_contents`, `filemtime` and
  `file_put_contents` are left out. So are concurrent writers and the
  static-property nature of `$cacheDir` and `$cacheExpire`, which are fields
  of one cache object here.
- `time()` is a parameter `now`, read once per call. In `Client.Twitter.Load`
  it comes first, ahead of the parameters that keep the source's defaults. `$_SESSION` is a
  `Session` object passed in. A session slot that holds a non-array value is
  not modelled.
- `iconv_strlen` counts code points. Strings here are sequences of code
  points, so invalid UTF-8, for which `iconv_strlen` returns FALSE, is not
  modelled.
- `search` with a non-integer `$flags` is not modelled: the mask of a
  non-integer value goes through PHP's conversion to integer.
- `$count` and `$page` of `load` are integers here. Other PHP values would be
  interpolated by their own string conversion.
- Integers are unbounded. The masks `& 0x0F` and `& 0x30` are the low bits
  of two's complement (Euclidean `%`), and these agree with 64-bit PHP for
  every integer PHP can hold.
- TwitterAuthException (lines 281-311) is the `Outcome` datatype. Its
  getters are its fields.
- The check that the cURL extension is loaded is left out.

## Findings

| source | as written | input that shows it | evidently intended | confidence | as-written member | corrected member |
|---|---|---|---|---|---|---|
| twitter.class.php:152 | `"…/statuses/destroy/:$id.xml"`: the route placeholder's ':' is kept in the URL | id 42 gives `http://api.twitter.com/1/statuses/destroy/:42.xml`, whose last segment `:42` is not a status id | `…/statuses/destroy/42.xml` | high, not executed | Requests.DestroyUrlAsWrittenNamesNoStatus | Requests.DestroyUrlNamesStatus |
