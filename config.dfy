/** Resolution of the raw query parameters into the settings of one scrape session. */
module Config {
  import opened Wrappers
  import opened Text

  /** `req.query`: every parameter is an optional string. */
  datatype Query = Query(
    url: Option<string>,
    filter: Option<string>,
    clickSelector: Option<string>,
    origin: Option<string>,
    referer: Option<string>,
    iframe: Option<string>,
    wait: Option<string>,
    clearlocalstorage: Option<string>,
    stealth: Option<string>,
    headful: Option<string>)

  /** The settings the rest of the handler reads once the URL check has passed. */
  datatype SessionConfig = SessionConfig(
    url: string,
    filter: Option<string>,
    clickSelector: Option<string>,
    origin: Option<string>,
    referer: Option<string>,
    iframe: bool,
    waitMs: int,
    clearLocalStorage: bool,
    stealth: bool,
    headful: bool)

  datatype ConfigError = MissingUrl

  /** `param === 'true'`. */
  function IsTrueFlag(param: Option<string>): (b: bool)
    ensures b <==> param == Some("true")
  {
    match param
    case Some(s) => s == "true"
    case None => false
  }

  /**
    * `wait ? parseFloat(wait) * 1000 : 0`, with the float parse supplied as
    * `parsedWaitMs` (a NaN parse is any value that is not positive).
    */
  function WaitMillis(wait: Option<string>, parsedWaitMs: int): (ms: int)
    ensures Truthy(wait) ==> ms == parsedWaitMs
    ensures !Truthy(wait) ==> ms == 0
  {
    if Truthy(wait) then parsedWaitMs else 0
  }

  /**
    * The URL check and the flag resolution at the top of the handler.
    * Iframe mode follows the truthiness of the raw `iframe` string, so
    * `iframe=false` selects it too.
    */
  function Resolve(q: Query, parsedWaitMs: int): (r: Result<SessionConfig, ConfigError>)
    ensures r.Failure? <==> !Truthy(q.url)
    ensures r.Success? ==>
              && r.value.url == q.url.value && r.value.url != ""
              && r.value.filter == q.filter && r.value.clickSelector == q.clickSelector
              && r.value.origin == q.origin && r.value.referer == q.referer
              && (r.value.iframe <==> Truthy(q.iframe))
              && (r.value.clearLocalStorage <==> q.clearlocalstorage == Some("true"))
              && (r.value.stealth <==> q.stealth == Some("true"))
              && (r.value.headful <==> q.headful == Some("true"))
              && (Truthy(q.wait) ==> r.value.waitMs == parsedWaitMs)
              && (!Truthy(q.wait) ==> r.value.waitMs == 0)
  {
    if !Truthy(q.url) then Failure(MissingUrl)
    else
      Success(SessionConfig(
        q.url.value, q.filter, q.clickSelector, q.origin, q.referer,
        Truthy(q.iframe),
        WaitMillis(q.wait, parsedWaitMs),
        IsTrueFlag(q.clearlocalstorage),
        IsTrueFlag(q.stealth),
        IsTrueFlag(q.headful)))
  }
}
