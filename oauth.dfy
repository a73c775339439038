/** The OAuth collaborator (TwitterOAuth from lib/twitteroauth.php, which is
    not part of this model). Its remote behaviour is a `Remote` value, and a
    `Service` object records every call made to it, so that "no network call"
    can be stated as "the log did not grow". */
module OAuth {
  import opened Results

  /** The application key and secret. */
  datatype Consumer = Consumer(key: string, secret: string)

  /** A request or access token: `oauth_token` and `oauth_token_secret`. */
  datatype Token = Token(key: string, secret: string)

  /** What a `new TwitterOAuth(...)` holds: the consumer and, optionally, a
      token. */
  datatype Credentials = Credentials(consumer: Consumer, token: Option<Token>)

  datatype HttpMethod = Get | Post

  /** One signed request: `oAuthRequest($url, $method, $postData)` made with
      the given credentials. An empty `params` stands for `$postData = NULL`. */
  datatype Request = Request(credentials: Credentials, url: string, verb: HttpMethod, params: map<string, string>)

  datatype Call =
    | RequestTokenCall(consumer: Consumer)
    | AccessTokenCall(credentials: Credentials)
    | SignedCall(request: Request)

  /** The remote service as the client sees it. `authorizeUrl` only builds a
      URL and makes no call. */
  datatype Remote = Remote(
    requestToken: Consumer -> Result<Token, string>,
    authorizeUrl: string -> string,
    accessToken: Credentials -> Result<Token, string>,
    respond: Request -> Result<string, string>)

  class Service {
    const remote: Remote
    /** Every call made to the remote service, oldest first. */
    var log: seq<Call>

    constructor(remote: Remote)
      ensures this.remote == remote && log == []
    {
      this.remote := remote;
      log := [];
    }

    /** `getRequestToken()` */
    method GetRequestToken(consumer: Consumer) returns (r: Result<Token, string>)
      modifies this
      ensures r == remote.requestToken(consumer)
      ensures log == old(log) + [RequestTokenCall(consumer)]
    {
      r := remote.requestToken(consumer);
      log := log + [RequestTokenCall(consumer)];
    }

    /** `getAccessToken()` on an object built with a request token. */
    method GetAccessToken(credentials: Credentials) returns (r: Result<Token, string>)
      modifies this
      ensures r == remote.accessToken(credentials)
      ensures log == old(log) + [AccessTokenCall(credentials)]
    {
      r := remote.accessToken(credentials);
      log := log + [AccessTokenCall(credentials)];
    }

    /** `oAuthRequest($url, $method, $postData)`: the raw response body, or a
        transport failure. */
    method OAuthRequest(request: Request) returns (r: Result<string, string>)
      modifies this
      ensures r == remote.respond(request)
      ensures log == old(log) + [SignedCall(request)]
    {
      r := remote.respond(request);
      log := log + [SignedCall(request)];
    }
  }
}
