/** The request dispatcher: timeline and format flags, the URLs of `load`,
    `search`, `send` and `destroy`, the GET/POST choice, the 140-code-point
    gate of `send`, and the outcome of one signed request (`httpRequest`). */
module Requests {
  import opened Results
  import opened Text
  import opened Payloads
  import opened OAuth

  /** Timeline flags: Twitter::ME, ME_AND_FRIENDS, REPLIES, ALL. */
  datatype Timeline = Me | MeAndFriends | Replies | All {
    function Code(): int {
      match this
      case Me => 1
      case MeAndFriends => 2
      case Replies => 3
      case All => 4
    }

    function Path(): string {
      match this
      case Me => "user_timeline"
      case MeAndFriends => "friends_timeline"
      case Replies => "mentions"
      case All => "public_timeline"
    }
  }

  /** Output format flags: Twitter::XML, JSON, RSS, ATOM. */
  datatype Format = Xml | Json | Rss | Atom {
    function Code(): int {
      match this
      case Xml => 0
      case Json => 16
      case Rss => 32
      case Atom => 48
    }

    function Extension(): string {
      match this
      case Xml => "xml"
      case Json => "json"
      case Rss => "rss"
      case Atom => "atom"
    }
  }

  /** `$timelines[$bits]`, None when it is not set. */
  function TimelineOf(bits: int): (r: Option<Timeline>)
    ensures r.Some? <==> 1 <= bits <= 4
    ensures r.Some? ==> r.value.Code() == bits
  {
    if bits == 1 then Some(Me)
    else if bits == 2 then Some(MeAndFriends)
    else if bits == 3 then Some(Replies)
    else if bits == 4 then Some(All)
    else None
  }

  /** `$formats[$bits]` of `load`, None when it is not set. */
  function FormatOf(bits: int): (r: Option<Format>)
    ensures r.Some? <==> bits == 0 || bits == 16 || bits == 32 || bits == 48
    ensures r.Some? ==> r.value.Code() == bits
  {
    if bits == 0 then Some(Xml)
    else if bits == 16 then Some(Json)
    else if bits == 32 then Some(Rss)
    else if bits == 48 then Some(Atom)
    else None
  }

  /** `$flags & 0x0F` on a two's-complement integer: its low four bits. */
  function TimelineBits(flags: int): (bits: int)
    ensures 0 <= bits < 16
    // the same residue: `flags & 0x0F` on two's complement, negatives included
    ensures (flags - bits) % 16 == 0
  {
    flags % 16
  }

  /** `$flags & 0x30` on a two's-complement integer: bits 4 and 5, so always
      one of 0, 16, 32 and 48. */
  function FormatBits(flags: int): (bits: int)
    ensures bits == 0 || bits == 16 || bits == 32 || bits == 48
    // bits 4 and 5 of the flags: `flags & 0x30` on two's complement
    ensures 0 <= (flags - bits) % 64 < 16
  {
    flags % 64 / 16 * 16
  }

  /** The `$flags` argument of `load`: an integer, or (for backward
      compatibility) any other PHP value, of which only the truth value
      matters. */
  datatype Flags = IntFlags(n: int) | OtherFlags(truthy: bool)

  /** The flag check of `load`: an unset timeline raises
      InvalidArgumentException; the format part can never fail. */
  function DecodeLoadFlags(flags: Flags): (r: Result<(Timeline, Format), TwitterError>)
    ensures flags.OtherFlags? ==> r == Ok((if flags.truthy then MeAndFriends else Me, Xml))
    ensures flags.IntFlags? ==> (r.Ok? <==> 1 <= TimelineBits(flags.n) <= 4)
    ensures flags.IntFlags? && r.Ok? ==>
      r.value.0.Code() == TimelineBits(flags.n) && r.value.1.Code() == FormatBits(flags.n)
    ensures r.Err? ==> r.error == InvalidArgument
  {
    match flags
    case OtherFlags(truthy) =>
      var n := if truthy then MeAndFriends.Code() else Me.Code();
      Ok((TimelineOf(TimelineBits(n)).value, FormatOf(FormatBits(n)).value))
    case IntFlags(n) =>
      match TimelineOf(TimelineBits(n))
      case None => Err(InvalidArgument)
      case Some(t) => Ok((t, FormatOf(FormatBits(n)).value))
  }

  /** Adding a multiple of 64 changes neither the low four nor the low six
      bits. */
  lemma {:induction false} ModShift(n: int, k: int)
    ensures (n + 64 * k) % 16 == n % 16 && (n + 64 * k) % 64 == n % 64
    decreases if k < 0 then -k else k
  {
    if k > 0 {
      ModShift(n, k - 1);
      ModStep(n + 64 * (k - 1));
    } else if k < 0 {
      ModShift(n, k + 1);
      ModStep(n + 64 * k);
    }
  }

  lemma ModStep(x: int)
    ensures (x + 64) % 16 == x % 16 && (x + 64) % 64 == x % 64
  {
    assert (x + 64) / 16 == x / 16 + 4;
    assert (x + 64) / 64 == x / 64 + 1;
  }

  /** Bits above 0x3F do not affect `load`. */
  lemma LoadFlagsIgnoreHighBits(n: int, k: int)
    ensures DecodeLoadFlags(IntFlags(n + 64 * k)) == DecodeLoadFlags(IntFlags(n))
  {
    ModShift(n, k);
  }

  /** The flag check of `search`: only JSON and ATOM are accepted. */
  function DecodeSearchFlags(flags: int): (r: Result<Format, TwitterError>)
    ensures r.Ok? <==> FormatBits(flags) == 16 || FormatBits(flags) == 48
    ensures r.Ok? ==> (r.value == Json || r.value == Atom) && r.value.Code() == FormatBits(flags)
    ensures r.Err? ==> r.error == InvalidArgument
  {
    var bits := FormatBits(flags);
    if bits == 16 then Ok(Json)
    else if bits == 48 then Ok(Atom)
    else Err(InvalidArgument)
  }

  // ----- URLs -----

  const STATUSES_BASE := "http://api.twitter.com" + "/1/statuses/"
  const UPDATE_URL := "https://api.twitter.com" + "/1/statuses/update.xml"
  const SEARCH_BASE := "http://search.twitter.com" + "/search."

  /** Everything that determines the URL of one `load` call. */
  datatype LoadQuery = LoadQuery(timeline: Timeline, format: Format, count: int, page: int, retweets: bool)

  /** The query string of `load`: "count=C&page=P&include_rts=R". */
  function QueryString(count: int, page: int, retweets: bool): string {
    "count=" + IntToString(count) + "&" + PageQuery(page, retweets)
  }

  function PageQuery(page: int, retweets: bool): string {
    "page=" + IntToString(page) + "&" + RetweetsQuery(retweets)
  }

  function RetweetsQuery(retweets: bool): string {
    "include_rts=" + BoolToString(retweets)
  }

  function LoadUrl(q: LoadQuery): (url: string)
    // under the statuses endpoint, ending with the query string
    ensures |url| > |STATUSES_BASE| + |QueryString(q.count, q.page, q.retweets)|
    ensures url[..|STATUSES_BASE|] == STATUSES_BASE
    ensures url[|url| - |QueryString(q.count, q.page, q.retweets)|..] == QueryString(q.count, q.page, q.retweets)
  {
    STATUSES_BASE + q.timeline.Path() + "." + q.format.Extension() + "?"
      + QueryString(q.count, q.page, q.retweets)
  }

  function TimelineByPath(path: string): (r: Option<Timeline>)
    ensures r.Some? ==> r.value.Path() == path
  {
    if path == "user_timeline" then Some(Me)
    else if path == "friends_timeline" then Some(MeAndFriends)
    else if path == "mentions" then Some(Replies)
    else if path == "public_timeline" then Some(All)
    else None
  }

  function FormatByExtension(ext: string): (r: Option<Format>)
    ensures r.Some? ==> r.value.Extension() == ext
  {
    if ext == "xml" then Some(Xml)
    else if ext == "json" then Some(Json)
    else if ext == "rss" then Some(Rss)
    else if ext == "atom" then Some(Atom)
    else None
  }

  /** Strips a fixed prefix. */
  function After(prefix: string, s: string): Option<string> {
    if |s| >= |prefix| && s[..|prefix|] == prefix then Some(s[|prefix|..]) else None
  }

  lemma AfterJoin(prefix: string, s: string)
    ensures After(prefix, prefix + s) == Some(s)
  {
    assert (prefix + s)[..|prefix|] == prefix;
    assert (prefix + s)[|prefix|..] == s;
  }

  function ParseBool(s: string): Option<bool> {
    if s == "" then Some(false) else if s == "1" then Some(true) else None
  }

  /** Reads a query string back into count, page and retweets. */
  function ParseQuery(query: string): Option<(int, int, bool)> {
    match After("count=", query)
    case None => None
    case Some(afterCount) =>
      match Split(afterCount, '&')
      case None => None
      case Some((count, rest)) =>
        match (ParseInt(count), ParsePageAndRetweets(rest))
        case (Some(c), Some(pr)) => Some((c, pr.0, pr.1))
        case _ => None
  }

  /** Reads "page=P&include_rts=R" back into page and retweets. */
  function ParsePageAndRetweets(rest: string): Option<(int, bool)> {
    match After("page=", rest)
    case None => None
    case Some(afterPage) =>
      match Split(afterPage, '&')
      case None => None
      case Some((page, last)) =>
        match (ParseInt(page), ParseRetweets(last))
        case (Some(p), Some(b)) => Some((p, b))
        case _ => None
  }

  /** Reads "include_rts=R" back into the retweets flag. */
  function ParseRetweets(last: string): Option<bool> {
    match After("include_rts=", last)
    case None => None
    case Some(r) => ParseBool(r)
  }

  lemma RetweetsRoundTrip(retweets: bool)
    ensures ParseRetweets(RetweetsQuery(retweets)) == Some(retweets)
  {
    AfterJoin("include_rts=", BoolToString(retweets));
  }

  lemma PageAndRetweetsRoundTrip(page: int, retweets: bool)
    ensures ParsePageAndRetweets(PageQuery(page, retweets)) == Some((page, retweets))
  {
    var p, last := IntToString(page), RetweetsQuery(retweets);
    Regroup4("page=", p, "&", last);
    AfterJoin("page=", p + "&" + last);
    NoAmpersandInNumber(page);
    SplitJoin(p, '&', last);
    IntToStringRoundTrip(page);
    RetweetsRoundTrip(retweets);
  }

  lemma QueryRoundTrip(count: int, page: int, retweets: bool)
    ensures ParseQuery(QueryString(count, page, retweets)) == Some((count, page, retweets))
  {
    var c, rest := IntToString(count), PageQuery(page, retweets);
    Regroup4("count=", c, "&", rest);
    AfterJoin("count=", c + "&" + rest);
    NoAmpersandInNumber(count);
    SplitJoin(c, '&', rest);
    IntToStringRoundTrip(count);
    PageAndRetweetsRoundTrip(page, retweets);
  }

  /** Reads a `load` URL back into the query it was built from. */
  function ParseLoadUrl(url: string): Option<LoadQuery> {
    match After(STATUSES_BASE, url)
    case None => None
    case Some(tail) =>
      match Split(tail, '.')
      case None => None
      case Some((path, afterDot)) =>
        match (TimelineByPath(path), ParseFormatAndQuery(afterDot))
        case (Some(t), Some(fq)) => Some(LoadQuery(t, fq.0, fq.1.0, fq.1.1, fq.1.2))
        case _ => None
  }

  /** Reads "EXT?QUERY" back into the format and the query. */
  function ParseFormatAndQuery(afterDot: string): Option<(Format, (int, int, bool))> {
    match Split(afterDot, '?')
    case None => None
    case Some((ext, query)) =>
      match (FormatByExtension(ext), ParseQuery(query))
      case (Some(f), Some(q)) => Some((f, q))
      case _ => None
  }

  lemma NoAmpersandInNumber(n: int)
    ensures '&' !in IntToString(n)
  {
  }

  lemma NoLetterJInNumber(n: int)
    ensures 'j' !in IntToString(n)
  {
  }

  lemma TimelineFacts(t: Timeline)
    ensures '.' !in t.Path() && 'j' !in t.Path()
    ensures TimelineByPath(t.Path()) == Some(t)
  {
    TimelinePathInverse(t);
    match t
    case Me => case MeAndFriends => case Replies => case All =>
  }

  lemma TimelinePathInverse(t: Timeline)
    ensures TimelineByPath(t.Path()) == Some(t)
  {
    match t
    case Me =>
      assert |"user_timeline"| != |"friends_timeline"|;
    case MeAndFriends =>
    case Replies =>
      assert |"mentions"| != |"user_timeline"| && |"mentions"| != |"friends_timeline"|;
    case All =>
      assert |"public_timeline"| != |"user_timeline"| && |"public_timeline"| != |"friends_timeline"|;
      assert |"public_timeline"| != |"mentions"|;
  }

  lemma FormatFacts(f: Format)
    ensures '?' !in f.Extension()
    ensures f != Json ==> 'j' !in f.Extension()
    ensures FormatByExtension(f.Extension()) == Some(f)
  {
    match f
    case Xml => case Json => case Rss => case Atom =>
  }

  /** The URL of a `load` call determines the call: reading it back gives
      the query. */
  lemma LoadUrlRoundTrip(q: LoadQuery)
    ensures ParseLoadUrl(LoadUrl(q)) == Some(q)
  {
    var path := q.timeline.Path();
    var afterDot := q.format.Extension() + "?" + QueryString(q.count, q.page, q.retweets);
    var tail := path + "." + afterDot;
    Regroup(STATUSES_BASE, path, ".", q.format.Extension(), "?", QueryString(q.count, q.page, q.retweets));
    AfterJoin(STATUSES_BASE, tail);
    TimelineFacts(q.timeline);
    SplitJoin(path, '.', afterDot);
    FormatAndQueryRoundTrip(q);
  }

  lemma FormatAndQueryRoundTrip(q: LoadQuery)
    ensures ParseFormatAndQuery(q.format.Extension() + "?" + QueryString(q.count, q.page, q.retweets))
            == Some((q.format, (q.count, q.page, q.retweets)))
  {
    FormatFacts(q.format);
    SplitJoin(q.format.Extension(), '?', QueryString(q.count, q.page, q.retweets));
    QueryRoundTrip(q.count, q.page, q.retweets);
  }

  /** Distinct `load` calls never share a URL, and so never share a cache
      entry. */
  lemma LoadUrlInjective(q1: LoadQuery, q2: LoadQuery)
    ensures LoadUrl(q1) == LoadUrl(q2) ==> q1 == q2
  {
    LoadUrlRoundTrip(q1);
    LoadUrlRoundTrip(q2);
  }

  lemma NoLetterJInQuery(count: int, page: int, retweets: bool)
    ensures 'j' !in QueryString(count, page, retweets)
  {
    NoLetterJInNumber(count);
    NoLetterJInNumber(page);
    NotInJoin('j', "include_rts=", BoolToString(retweets));
    NotInJoin('j', "page=", IntToString(page));
    NotInJoin('j', "page=" + IntToString(page), "&");
    NotInJoin('j', "page=" + IntToString(page) + "&", RetweetsQuery(retweets));
    NotInJoin('j', "count=", IntToString(count));
    NotInJoin('j', "count=" + IntToString(count), "&");
    NotInJoin('j', "count=" + IntToString(count) + "&", PageQuery(page, retweets));
  }

  lemma NoLetterJInStatusesBase()
    ensures 'j' !in STATUSES_BASE
  {
    NotInJoin('j', "http://api.twitter.com", "/1/statuses/");
  }

  lemma NoLetterJInLoadUrl(q: LoadQuery)
    requires q.format != Json
    ensures 'j' !in LoadUrl(q)
  {
    var path, ext := q.timeline.Path(), q.format.Extension();
    TimelineFacts(q.timeline);
    FormatFacts(q.format);
    NoLetterJInQuery(q.count, q.page, q.retweets);
    NoLetterJInStatusesBase();
    NotInJoin('j', STATUSES_BASE, path);
    NotInJoin('j', STATUSES_BASE + path, ".");
    NotInJoin('j', STATUSES_BASE + path + ".", ext);
    NotInJoin('j', STATUSES_BASE + path + "." + ext, "?");
    NotInJoin('j', STATUSES_BASE + path + "." + ext + "?", QueryString(q.count, q.page, q.retweets));
  }

  lemma JsonInLoadUrl(q: LoadQuery)
    requires q.format == Json
    ensures OccursAt(LoadUrl(q), "json", |STATUSES_BASE| + |q.timeline.Path()| + 1)
  {
    var head := STATUSES_BASE + q.timeline.Path() + ".";
    OccursAtJoin(head, "json", "?", QueryString(q.count, q.page, q.retweets));
  }

  /** A `load` response is decoded as JSON exactly when JSON was asked for;
      XML, RSS and ATOM are all read with the XML decoder. */
  lemma LoadDecoder(q: LoadQuery)
    ensures DecoderFor(LoadUrl(q)) == (if q.format == Json then JsonDecoder else XmlDecoder)
  {
    var url := LoadUrl(q);
    assert url[0] == 'h';
    if q.format == Json {
      JsonInLoadUrl(q);
    } else {
      NoLetterJInLoadUrl(q);
      NoFirstCharNoMatch(url, "json");
    }
  }

  function SearchUrl(f: Format): (url: string)
    ensures |url| == |SEARCH_BASE| + |f.Extension()|
    ensures url[..|SEARCH_BASE|] == SEARCH_BASE && url[|SEARCH_BASE|..] == f.Extension()
  {
    SEARCH_BASE + f.Extension()
  }

  /** A `search` response is decoded as JSON exactly for the JSON format. */
  lemma SearchDecoder(f: Format)
    requires f == Json || f == Atom
    ensures DecoderFor(SearchUrl(f)) == (if f == Json then JsonDecoder else XmlDecoder)
  {
    var url := SearchUrl(f);
    if f == Json {
      OccursAtEnd(SEARCH_BASE, "json");
      assert url[0] == 'h';
    } else {
      NotInJoin('j', "http://search.twitter.com", "/search.");
      NotInJoin('j', SEARCH_BASE, "atom");
      NoFirstCharNoMatch(url, "json");
    }
  }

  /** The status update endpoint answers in XML. */
  lemma UpdateDecoder()
    ensures DecoderFor(UPDATE_URL) == XmlDecoder
  {
    assert 'j' !in UPDATE_URL;
    NoFirstCharNoMatch(UPDATE_URL, "json");
  }

  /** The maximum length of a status in code points; longer messages have
      their links shortened before they are sent. */
  const MAX_STATUS_LENGTH := 140

  /** The status `send` posts: the message itself when it has at most 140
      code points, otherwise the message with its links shortened. */
  function OutgoingStatus(message: string, shortenLinks: string -> string): (status: string)
    ensures |message| <= MAX_STATUS_LENGTH ==> status == message
    ensures |message| > MAX_STATUS_LENGTH ==> status == shortenLinks(message)
  {
    if |message| > MAX_STATUS_LENGTH then shortenLinks(message) else message
  }

  // ----- destroy -----

  const DESTROY_BASE := STATUSES_BASE + "destroy/"

  /** The URL `destroy` builds, as written: the last path segment is ':'
      followed by the id. */
  function DestroyUrlAsWritten(id: int): (url: string)
    // the path ends in ':', the decimal id and ".xml"
    ensures |url| == |DESTROY_BASE| + 1 + |IntToString(id)| + 4
    ensures url[..|DESTROY_BASE|] == DESTROY_BASE && url[|url| - 4..] == ".xml"
    ensures url[|DESTROY_BASE|..|url| - 4] == ":" + IntToString(id)
  {
    Framed(DESTROY_BASE, ":" + IntToString(id), ".xml");
    DESTROY_BASE + (":" + IntToString(id)) + ".xml"
  }

  /** The URL `destroy` evidently intends: the id is the last path segment. */
  function DestroyUrl(id: int): string {
    DESTROY_BASE + IntToString(id) + ".xml"
  }

  /** The status a destroy URL names: the segment between the base and the
      ".xml" extension, read as an integer. */
  function DestroyedStatus(url: string): Option<int> {
    if |url| < |DESTROY_BASE| + 4 || url[..|DESTROY_BASE|] != DESTROY_BASE || url[|url| - 4..] != ".xml" then None
    else ParseInt(url[|DESTROY_BASE|..|url| - 4])
  }

  lemma DestroyedSegment(segment: string)
    ensures DestroyedStatus(DESTROY_BASE + segment + ".xml") == ParseInt(segment)
  {
    Framed(DESTROY_BASE, segment, ".xml");
  }

  lemma DestroyUrlNamesStatus(id: int)
    ensures DestroyedStatus(DestroyUrl(id)) == Some(id)
  {
    DestroyedSegment(IntToString(id));
    IntToStringRoundTrip(id);
  }

  /** As written, the URL of `destroy` names no status at all. */
  lemma DestroyUrlAsWrittenNamesNoStatus(id: int)
    ensures DestroyedStatus(DestroyUrlAsWritten(id)) == None
  {
    var segment := ":" + IntToString(id);
    DestroyedSegment(segment);
    assert segment[0] != '-';
    NotNumberWithColon(IntToString(id));
  }

  /** For the status 42 the URL as written ends in "/destroy/:42.xml". */
  lemma DestroyUrlAsWrittenExample()
    ensures DestroyUrlAsWritten(42) == DESTROY_BASE + ":42.xml"
  {
    assert IntToString(42) == "42";
  }

  lemma {:induction false} NotNumberWithColon(digits: string)
    ensures ParseNat(":" + digits) == None
    decreases |digits|
  {
    var s := ":" + digits;
    if |digits| > 0 && IsDigit(s[|s| - 1]) && |s| > 1 {
      assert s[..|s| - 1] == ":" + digits[..|digits| - 1];
      NotNumberWithColon(digits[..|digits| - 1]);
    }
  }

  lemma NoLetterJInDestroyUrls(id: int)
    ensures 'j' !in DestroyUrlAsWritten(id) && 'j' !in DestroyUrl(id)
  {
    NoLetterJInNumber(id);
    NoLetterJInStatusesBase();
    NotInJoin('j', STATUSES_BASE, "destroy/");
    NotInJoin('j', ":", IntToString(id));
    NotInJoin('j', DESTROY_BASE, ":" + IntToString(id));
    NotInJoin('j', DESTROY_BASE + (":" + IntToString(id)), ".xml");
    NotInJoin('j', DESTROY_BASE, IntToString(id));
    NotInJoin('j', DESTROY_BASE + IntToString(id), ".xml");
  }

  /** A `destroy` response is decoded as XML, with the URL as written and
      with the corrected one. */
  lemma DestroyDecoder(id: int)
    ensures DecoderFor(DestroyUrlAsWritten(id)) == XmlDecoder
    ensures DecoderFor(DestroyUrl(id)) == XmlDecoder
  {
    NoLetterJInDestroyUrls(id);
    NoFirstCharNoMatch(DestroyUrlAsWritten(id), "json");
    NoFirstCharNoMatch(DestroyUrl(id), "json");
  }

  // ----- one signed request -----

  /** `$postData ? 'POST' : 'GET'`: POST exactly when there is data to post. */
  function MethodFor(params: map<string, string>): (m: HttpMethod)
    ensures m == Post <==> params != map[]
  {
    if params != map[] then Post else Get
  }

  /** The calls `httpRequest` makes: none without authorization, otherwise
      exactly one signed request. */
  function HttpCalls(oauth: Option<Credentials>, url: string, params: map<string, string>): seq<Call> {
    match oauth
    case None => []
    case Some(credentials) => [SignedCall(Request(credentials, url, MethodFor(params), params))]
  }

  /** The outcome of `httpRequest($url, $postData)`. */
  function HttpOutcome(oauth: Option<Credentials>, remote: Remote, codec: Codec, url: string,
                       params: map<string, string>): (r: Result<Payload, TwitterError>)
    ensures oauth.None? ==> r == Err(NotAuthorized)
    ensures r.Ok? ==> r.value.decoder == DecoderFor(url) && !codec.isEmpty(r.value)
    ensures r.Err? ==> r.error.IsTwitterException()
    ensures oauth.Some? ==>
      var response := remote.respond(Request(oauth.value, url, MethodFor(params), params));
      (response.Err? ==> r == Err(Transport(response.error)))
      && (response.Ok? ==> r == DecodeBody(codec, DecoderFor(url), response.value))
  {
    match oauth
    case None => Err(NotAuthorized)
    case Some(credentials) =>
      match remote.respond(Request(credentials, url, MethodFor(params), params))
      case Err(message) => Err(Transport(message))
      case Ok(body) => DecodeBody(codec, DecoderFor(url), body)
  }
}
