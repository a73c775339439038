/** The stale-on-error cache of `cachedHttpRequest`: a directory of files,
    one per request URL, whose modification time is the time of the last
    successful refresh. `Decide` is the decision made on one call, given
    the stored entry, the clock and the outcome a live request would have;
    `CacheDir` holds the settings and the files. */
module Cache {
  import opened Results
  import opened Text
  import opened Payloads

  /** Twitter::$cacheExpire, in seconds. */
  const DEFAULT_EXPIRE := 1800

  /** A cache file: its text and its modification time. */
  datatype Entry = Entry(text: string, mtime: int)

  /** What one call does: its result, whether it made the live request, and
      the entry it writes under the URL, if any. */
  datatype Decision = Decision(result: Result<Payload, TwitterError>, contacted: bool, write: Option<Entry>)

  /** The stored candidate: the file's text decoded with the first-byte
      rule, kept only when the decoded value is not empty. */
  function Candidate(codec: Codec, entry: Option<Entry>): (c: Option<Payload>)
    ensures c.Some? <==>
      && entry.Some?
      && Parse(codec, StoredDecoder(entry.value.text), entry.value.text).Some?
      && !codec.isEmpty(Payload(StoredDecoder(entry.value.text),
                                Parse(codec, StoredDecoder(entry.value.text), entry.value.text).value))
    ensures c.Some? ==> !codec.isEmpty(c.value)
    ensures c.Some? ==> c.value.decoder == StoredDecoder(entry.value.text)
    ensures c.Some? ==> Parse(codec, c.value.decoder, entry.value.text) == Some(c.value.tree)
  {
    match entry
    case None => None
    case Some(e) =>
      var d := StoredDecoder(e.text);
      match Parse(codec, d, e.text)
      case None => None
      case Some(t) => if codec.isEmpty(Payload(d, t)) then None else Some(Payload(d, t))
  }

  /** The file for `url`, if there is one. */
  function Lookup(files: map<string, Entry>, url: string): Option<Entry> {
    if url in files then Some(files[url]) else None
  }

  /** `filemtime($cacheFile) + $cacheExpire > time()`: the entry is
      younger than the expiry time. */
  predicate Fresh(entry: Entry, expire: int, now: int)
    ensures Fresh(entry, expire, now) <==> now - entry.mtime < expire
    ensures Fresh(entry, expire, now) && expire <= 0 ==> now < entry.mtime
  {
    entry.mtime + expire > now
  }

  /** One call of `cachedHttpRequest`. */
  function Decide(codec: Codec, dir: Option<string>, expire: int, entry: Option<Entry>, now: int,
                  live: Result<Payload, TwitterError>): (d: Decision)
    // no cache directory: exactly the live request
    ensures !TruthyOpt(dir) ==> d == Decision(live, true, None)
    // a fresh, non-empty stored entry: served without a request
    ensures TruthyOpt(dir) && Candidate(codec, entry).Some? && Fresh(entry.value, expire, now) ==>
      d == Decision(Ok(Candidate(codec, entry).value), false, None)
    ensures !d.contacted <==> TruthyOpt(dir) && Candidate(codec, entry).Some? && Fresh(entry.value, expire, now)
    // a successful refresh is written back, stamped now, and returned
    ensures d.write.Some? <==> TruthyOpt(dir) && d.contacted && live.Ok?
    ensures d.write.Some? ==> d.write == Some(Entry(Encode(codec, live.value), now)) && d.result == live
    // a failed refresh falls back to the stored candidate, fresh or stale
    ensures TruthyOpt(dir) && d.contacted && live.Err? ==>
      d.result == (if Candidate(codec, entry).Some? && live.error.IsTwitterException()
                   then Ok(Candidate(codec, entry).value) else live)
    // the cache never makes up a failure, nor serves an empty payload
    ensures d.result.Err? ==> d.result == live
    ensures d.result.Ok? && !(d.result == live) ==> d.result == Ok(Candidate(codec, entry).value)
    ensures (live.Ok? ==> !codec.isEmpty(live.value)) ==> (d.result.Ok? ==> !codec.isEmpty(d.result.value))
  {
    if !TruthyOpt(dir) then Decision(live, true, None)
    else
      var cached := Candidate(codec, entry);
      if cached.Some? && Fresh(entry.value, expire, now) then Decision(Ok(cached.value), false, None)
      else match live
        case Ok(p) => Decision(live, true, Some(Entry(Encode(codec, p), now)))
        case Err(e) =>
          if cached.Some? && e.IsTwitterException() then Decision(Ok(cached.value), true, None)
          else Decision(live, true, None)
  }

  /** After a successful refresh at time `t1`, a call before `t1 + expire`
      is served from the cache, with the same payload and no request,
      whatever a live request would have given. */
  lemma FreshHitAfterRefresh(codec: Codec, dir: Option<string>, expire: int, entry: Option<Entry>,
                             t1: int, p: Payload, t2: int, live: Result<Payload, TwitterError>)
    requires Lawful(codec) && TruthyOpt(dir) && !codec.isEmpty(p)
    requires Decide(codec, dir, expire, entry, t1, Ok(p)).contacted
    requires t2 < t1 + expire
    ensures
      var written := Decide(codec, dir, expire, entry, t1, Ok(p)).write;
      && written.Some?
      && Decide(codec, dir, expire, written, t2, live) == Decision(Ok(p), false, None)
  {
    var written := Decide(codec, dir, expire, entry, t1, Ok(p)).write;
    EncodeRoundTrip(codec, p);
    assert Candidate(codec, written) == Some(p);
  }

  /** After a successful refresh, every later call whose live request fails
      serves the refreshed payload, however old it has become. */
  lemma StaleAfterFailedRefresh(codec: Codec, dir: Option<string>, expire: int, entry: Option<Entry>,
                                t1: int, p: Payload, t2: int, failure: TwitterError)
    requires Lawful(codec) && TruthyOpt(dir) && !codec.isEmpty(p)
    requires Decide(codec, dir, expire, entry, t1, Ok(p)).contacted
    requires failure.IsTwitterException()
    ensures
      var written := Decide(codec, dir, expire, entry, t1, Ok(p)).write;
      && written.Some?
      && Decide(codec, dir, expire, written, t2, Err(failure)).result == Ok(p)
  {
    var written := Decide(codec, dir, expire, entry, t1, Ok(p)).write;
    EncodeRoundTrip(codec, p);
    assert Candidate(codec, written) == Some(p);
  }

  /** The cache settings (Twitter::$cacheDir, Twitter::$cacheExpire) and
      the files of the directory, keyed by request URL. */
  class CacheDir {
    var dir: Option<string>
    var expire: int
    var files: map<string, Entry>

    constructor(dir: Option<string>, files: map<string, Entry>)
      ensures this.dir == dir && this.files == files && expire == DEFAULT_EXPIRE
    {
      this.dir := dir;
      this.files := files;
      expire := DEFAULT_EXPIRE;
    }

    /** `file_get_contents` and `filemtime` of the file for `url`. */
    method Read(url: string) returns (entry: Option<Entry>)
      ensures entry == Lookup(files, url)
    {
      entry := if url in files then Some(files[url]) else None;
    }

    /** `file_put_contents` of the file for `url` at time `now`. */
    method Write(url: string, text: string, now: int)
      modifies this`files
      ensures files == old(files)[url := Entry(text, now)]
    {
      files := files[url := Entry(text, now)];
    }
  }
}
