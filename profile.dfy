/** The launch arguments, context options and extra HTTP headers of the session's browser. */
module Profile {
  import opened Wrappers
  import opened Text

  const UserAgent: string :=
    "Mozilla/5.0 (Windows NT 10.0; Win64; x64) AppleWebKit/537.36 (KHTML, like Gecko) Chrome/120.0.0.0 Safari/537.36"

  /** Flags appended after the engine package's own arguments. */
  const SandboxFlags: seq<string> :=
    ["--disable-dev-shm-usage", "--no-sandbox", "--disable-setuid-sandbox", "--single-process"]

  datatype Viewport = Viewport(width: int, height: int)

  const ContextViewport: Viewport := Viewport(1280, 720)

  const ContextLocale: string := "en-US"

  /** The launch `args`: the engine's arguments followed by the sandbox flags. */
  function LaunchArgs(engineArgs: seq<string>): seq<string>
  {
    engineArgs + SandboxFlags
  }

  /** The fixed client-hint headers sent on every request of the page. */
  const ClientHints: map<string, string> :=
    map[
      "accept" := "text/html,application/xhtml+xml,application/xml;q=0.9,image/avif,image/webp,image/apng,*/*;q=0.8,application/signed-exchange;v=b3;q=0.7",
      "accept-language" := "en-US,en;q=0.5",
      "sec-gpc" := "1",
      "upgrade-insecure-requests" := "1",
      "sec-ch-ua" := "\"Chromium\";v=\"120\", \"Google Chrome\";v=\"120\", \"Not A;Brand\";v=\"99\"",
      "sec-ch-ua-mobile" := "?0",
      "sec-ch-ua-platform" := "\"Windows\""
    ]

  /**
    * The header map handed to `page.setExtraHTTPHeaders`: the client hints,
    * plus `Origin` and `Referer` exactly when those parameters are truthy,
    * carrying the supplied values verbatim.
    */
  function ExtraHeaders(origin: Option<string>, referer: Option<string>): (h: map<string, string>)
    ensures h.Keys == ClientHints.Keys
                      + (if Truthy(origin) then {"Origin"} else {})
                      + (if Truthy(referer) then {"Referer"} else {})
    ensures forall k :: k in ClientHints ==> h[k] == ClientHints[k]
    ensures Truthy(origin) ==> h["Origin"] == origin.value
    ensures Truthy(referer) ==> h["Referer"] == referer.value
  {
    var withOrigin := if Truthy(origin) then ClientHints["Origin" := origin.value] else ClientHints;
    if Truthy(referer) then withOrigin["Referer" := referer.value] else withOrigin
  }

  /** `const headers = { ...clientHints }` followed by the two conditional assignments. */
  method BuildHeaders(origin: Option<string>, referer: Option<string>) returns (headers: map<string, string>)
    ensures headers == ExtraHeaders(origin, referer)
  {
    headers := ClientHints;
    if Truthy(origin) {
      headers := headers["Origin" := origin.value];
    }
    if Truthy(referer) {
      headers := headers["Referer" := referer.value];
    }
  }
}
