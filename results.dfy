/** Optional values, results, and the failures the client reports. */
module Results {

  datatype Option<+T> = None | Some(value: T)

  datatype Result<+T, +E> = Ok(value: T) | Err(error: E)

  /** The failures of the client. NotAuthorized and InvalidServerResponse
      are the TwitterExceptions the class throws; InvalidArgument is PHP's
      InvalidArgumentException. Transport is not raised by the class: it is
      what the model assumes of the TwitterOAuth library when a call fails,
      namely an exception that `catch (TwitterException $e)` catches. */
  datatype TwitterError =
    | NotAuthorized                 // 'Not authorized.'
    | InvalidServerResponse         // 'Invalid server response'
    | Transport(message: string)    // assumed: a failure inside TwitterOAuth
    | InvalidArgument               // an unrecognised timeline or format flag
  {
    /** Whether a `catch (TwitterException $e)` catches this failure. */
    predicate IsTwitterException() {
      !InvalidArgument?
    }
  }
}
