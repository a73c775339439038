/** The client object: the constructor's handshake, `isAuthorized`, the four
    API operations and the two request paths (`httpRequest` and
    `cachedHttpRequest`), over the collaborators of the other modules. */
module Client {
  import opened Results
  import opened Text
  import opened Payloads
  import opened OAuth
  import opened Requests
  import opened Handshake
  import opened Cache

  /** `$_SESSION`, injected. */
  class Session {
    var data: SessionData

    constructor(data: SessionData)
      ensures this.data == data
    {
      this.data := data;
    }
  }

  /** What `cachedHttpRequest($url)` decides at time `now`. */
  function CachedCall(oauth: Option<Credentials>, remote: Remote, codec: Codec, dir: Option<string>, expire: int,
                      files: map<string, Entry>, url: string, now: int): Decision
  {
    Decide(codec, dir, expire, Lookup(files, url), now, HttpOutcome(oauth, remote, codec, url, map[]))
  }

  /** Every stored payload carries the tag its URL selects: the file for a
      URL was decoded with the decoder that URL's responses use. */
  ghost predicate FormatsConsistent(codec: Codec, files: map<string, Entry>) {
    forall url :: url in files && Candidate(codec, Some(files[url])).Some? ==>
      Candidate(codec, Some(files[url])).value.decoder == DecoderFor(url)
  }

  /** Under a lawful codec the cache keeps the payload tag fixed by the
      request URL: what it serves for a URL is tagged by that URL's decoder,
      and what it writes keeps the store consistent. */
  lemma CachedCallKeepsFormat(oauth: Option<Credentials>, remote: Remote, codec: Codec, dir: Option<string>,
                              expire: int, files: map<string, Entry>, url: string, now: int)
    requires Lawful(codec) && FormatsConsistent(codec, files)
    ensures
      var d := CachedCall(oauth, remote, codec, dir, expire, files, url, now);
      && (d.result.Ok? ==> d.result.value.decoder == DecoderFor(url))
      && FormatsConsistent(codec, if d.write.Some? then files[url := d.write.value] else files)
  {
    var live := HttpOutcome(oauth, remote, codec, url, map[]);
    var d := CachedCall(oauth, remote, codec, dir, expire, files, url, now);
    if d.write.Some? {
      EncodeRoundTrip(codec, live.value);
      var files' := files[url := d.write.value];
      assert Candidate(codec, Some(files'[url])) == Some(live.value);
      forall u | u in files' && Candidate(codec, Some(files'[u])).Some?
        ensures Candidate(codec, Some(files'[u])).value.decoder == DecoderFor(u)
      {
        if u != url {
          assert files'[u] == files[u];
        }
      }
    }
  }

  /** What `load` returns is tagged by the format it asked for: a JSON
      payload for JSON, a SimpleXML one for XML, RSS and ATOM, whether it
      came from the cache or from the service. */
  lemma LoadResultFormat(oauth: Option<Credentials>, remote: Remote, codec: Codec, dir: Option<string>,
                         expire: int, files: map<string, Entry>, q: LoadQuery, now: int)
    requires Lawful(codec) && FormatsConsistent(codec, files)
    ensures
      var d := CachedCall(oauth, remote, codec, dir, expire, files, LoadUrl(q), now);
      d.result.Ok? ==> (d.result.value.decoder == JsonDecoder <==> q.format == Json)
  {
    CachedCallKeepsFormat(oauth, remote, codec, dir, expire, files, LoadUrl(q), now);
    LoadDecoder(q);
  }

  /** A client that is not authorized still reads cached entries: with a
      stored, non-empty entry the call returns it, fresh or stale, and
      writes nothing back. */
  lemma UnauthorizedReadsCache(remote: Remote, codec: Codec, dir: Option<string>, expire: int,
                               files: map<string, Entry>, url: string, now: int)
    requires TruthyOpt(dir) && Candidate(codec, Lookup(files, url)).Some?
    ensures
      var d := CachedCall(None, remote, codec, dir, expire, files, url, now);
      && d.result == Ok(Candidate(codec, Lookup(files, url)).value)
      && d.write.None?
  {
  }

  class Twitter {
    /** `$this->oauth`: set only by a successful handshake. */
    var oauth: Option<Credentials>
    /** The remote service reached through TwitterOAuth. */
    const service: Service
    /** The XML and JSON library functions. */
    const codec: Codec
    /** Twitter::$cacheDir, Twitter::$cacheExpire and the cache files. */
    const cache: CacheDir
    /** `preg_replace_callback` of the link pattern with `shortenUrl`. */
    const shortenLinks: string -> string

    /** The object before its constructor has run: not yet authorized. */
    constructor(service: Service, codec: Codec, cache: CacheDir, shortenLinks: string -> string)
      ensures oauth.None?
      ensures this.service == service && this.codec == codec && this.cache == cache
      ensures this.shortenLinks == shortenLinks
    {
      oauth := None;
      this.service := service;
      this.codec := codec;
      this.cache := cache;
      this.shortenLinks := shortenLinks;
    }

    /** The body of `__construct($appKey, $appSecret, $accessKey,
        $accessSecret)`, returning the outcome the source throws. */
    method Authorize(appKey: string, appSecret: string, accessKey: Option<string>, accessSecret: Option<string>,
                     session: Session) returns (outcome: Outcome)
      modifies this`oauth, session, service
      ensures
        var s := Run(Consumer(appKey, appSecret), accessKey, accessSecret, old(session.data), service.remote);
        && outcome == s.outcome
        && session.data == s.session
        && service.log == old(service.log) + s.calls
        && oauth == (if s.granted.Some? then s.granted else old(oauth))
    {
      var consumer := Consumer(appKey, appSecret);
      ghost var run := Run(consumer, accessKey, accessSecret, session.data, service.remote);
      if !TruthyOpt(accessKey) || !TruthyOpt(accessSecret) {
        var slot := Slot(session.data);
        session.data := session.data[SLOT := slot];
        var pending := PendingToken(session.data);
        if pending.None? {
          var token := service.GetRequestToken(consumer);
          match token
          case Err(message) =>
            outcome := AuthFailed(Transport(message));
          case Ok(t) =>
            session.data := session.data[SLOT := slot[REQUEST_KEY := t.key][REQUEST_SECRET := t.secret]];
            outcome := AuthRedirect(service.remote.authorizeUrl(session.data[SLOT][REQUEST_KEY]));
        } else {
          var credentials := Credentials(consumer, pending);
          session.data := session.data - {SLOT};
          var info := service.GetAccessToken(credentials);
          match info
          case Err(message) =>
            outcome := AuthFailed(Transport(message));
          case Ok(access) =>
            outcome := AuthAccess(access.key, access.secret);
        }
      } else {
        oauth := Some(Credentials(consumer, Some(Token(accessKey.value, accessSecret.value))));
        outcome := Authorized;
      }
    }

    method IsAuthorized() returns (authorized: bool)
      ensures authorized <==> oauth.Some?
    {
      authorized := oauth.Some?;
    }

    /** `httpRequest($url, $postData)`. */
    method HttpRequest(url: string, params: map<string, string>) returns (r: Result<Payload, TwitterError>)
      modifies service
      ensures r == HttpOutcome(oauth, service.remote, codec, url, params)
      ensures service.log == old(service.log) + HttpCalls(oauth, url, params)
    {
      if oauth.None? {
        return Err(NotAuthorized);
      }
      var response := service.OAuthRequest(Request(oauth.value, url, MethodFor(params), params));
      match response
      case Err(message) =>
        r := Err(Transport(message));
      case Ok(body) =>
        r := DecodeBody(codec, DecoderFor(url), body);
    }

    /** What `cachedHttpRequest($url)` at time `now` leaves behind: its
        result, the requests it made and the files it wrote. */
    twostate predicate CachedCallDone(url: string, now: int, new r: Result<Payload, TwitterError>)
      reads this, service, cache
    {
      var d := CachedCall(old(oauth), service.remote, codec, old(cache.dir), old(cache.expire),
                          old(cache.files), url, now);
      && r == d.result
      && service.log == old(service.log) + (if d.contacted then HttpCalls(old(oauth), url, map[]) else [])
      && cache.files == (if d.write.Some? then old(cache.files)[url := d.write.value] else old(cache.files))
    }

    /** `cachedHttpRequest($url)`, with `time()` read once as `now`. */
    method CachedHttpRequest(url: string, now: int) returns (r: Result<Payload, TwitterError>)
      modifies service, cache`files
      ensures CachedCallDone(url, now, r)
    {
      if !TruthyOpt(cache.dir) {
        r := HttpRequest(url, map[]);
        return;
      }
      var entry := cache.Read(url);
      var cached := Candidate(codec, entry);
      if cached.Some? && Fresh(entry.value, cache.expire, now) {
        return Ok(cached.value);
      }
      var live := HttpRequest(url, map[]);
      match live
      case Ok(p) =>
        cache.Write(url, Encode(codec, p), now);
        r := live;
      case Err(e) =>
        r := if cached.Some? && e.IsTwitterException() then Ok(cached.value) else live;
    }

    /** `send($message)`: posts the status, links shortened when it is
        longer than 140 code points; the id of the new status, or None. */
    method Send(message: string) returns (r: Result<Option<string>, TwitterError>)
      modifies service
      ensures
        var params := map["status" := OutgoingStatus(message, shortenLinks)];
        var response := HttpOutcome(oauth, service.remote, codec, UPDATE_URL, params);
        && r == (if response.Ok? then Ok(StatusId(response.value)) else Err(response.error))
        && service.log == old(service.log) + HttpCalls(oauth, UPDATE_URL, params)
    {
      var status := OutgoingStatus(message, shortenLinks);
      var response := HttpRequest(UPDATE_URL, map["status" := status]);
      r := if response.Ok? then Ok(StatusId(response.value)) else Err(response.error);
    }

    /** `load($flags, $count, $page, $retweets)`: a timeline, through the
        cache. Bad flags fail before any request or file access. */
    method Load(now: int, flags: Flags := IntFlags(Me.Code()), count: int := 20, page: int := 1, retweets: bool := false)
      returns (r: Result<Payload, TwitterError>)
      modifies service, cache`files
      ensures DecodeLoadFlags(flags).Err? ==>
        r == Err(InvalidArgument) && service.log == old(service.log) && cache.files == old(cache.files)
      ensures DecodeLoadFlags(flags).Ok? ==>
        var target := DecodeLoadFlags(flags).value;
        CachedCallDone(LoadUrl(LoadQuery(target.0, target.1, count, page, retweets)), now, r)
    {
      var target := DecodeLoadFlags(flags);
      if target.Err? {
        return Err(target.error);
      }
      var url := LoadUrl(LoadQuery(target.value.0, target.value.1, count, page, retweets));
      r := CachedHttpRequest(url, now);
    }

    /** `destroy($id)`: posts the id to the URL the class builds; the echoed
        id, or None. */
    method Destroy(id: int) returns (r: Result<Option<string>, TwitterError>)
      modifies service
      ensures
        var params := map["id" := IntToString(id)];
        var response := HttpOutcome(oauth, service.remote, codec, DestroyUrlAsWritten(id), params);
        && r == (if response.Ok? then Ok(StatusId(response.value)) else Err(response.error))
        && service.log == old(service.log) + HttpCalls(oauth, DestroyUrlAsWritten(id), params)
    {
      var response := HttpRequest(DestroyUrlAsWritten(id), map["id" := IntToString(id)]);
      r := if response.Ok? then Ok(StatusId(response.value)) else Err(response.error);
    }

    /** `search($query, $flags)`: the `results` member of the response.
        A format other than JSON or ATOM fails before any request. */
    method Search(query: string, flags: int := Json.Code()) returns (r: Result<Option<Tree>, TwitterError>)
      modifies service
      ensures DecodeSearchFlags(flags).Err? ==> r == Err(InvalidArgument) && service.log == old(service.log)
      ensures DecodeSearchFlags(flags).Ok? ==>
        var url := SearchUrl(DecodeSearchFlags(flags).value);
        var response := HttpOutcome(oauth, service.remote, codec, url, map["q" := query]);
        && r == (if response.Ok? then Ok(Member(response.value.tree, "results")) else Err(response.error))
        && service.log == old(service.log) + HttpCalls(oauth, url, map["q" := query])
    {
      var format := DecodeSearchFlags(flags);
      if format.Err? {
        return Err(format.error);
      }
      var response := HttpRequest(SearchUrl(format.value), map["q" := query]);
      r := if response.Ok? then Ok(Member(response.value.tree, "results")) else Err(response.error);
    }
  }
}
