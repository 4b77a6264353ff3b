/** Optional values: `undefined`/`null` in the application become `None`. */
module Wrappers {
  datatype Option<+T> = None | Some(value: T)
  {
    function GetOr(default: T): T
    {
      if Some? then value else default
    }
  }

  /** What an HTTP call to the backend came back with: a decoded body or an error status (`None` when no response arrived). */
  datatype ApiReply<+T> = Ok(body: T) | Failed(status: Option<int>)
}
