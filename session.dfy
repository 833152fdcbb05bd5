/**
  * The scrape handler as a sequence of calls into the browser stack.
  *
  * The browser, the engine package and the page are opaque: every call the
  * handler makes is an `Action`, and an `Env` says how each call ends
  * (resolves, resolves to null, or throws) and which requests the page
  * issues while it is in progress. Every call site of the handler runs at
  * most once per invocation and has its own constructor, so an `Env` can
  * name a call site by its `Action`.
  *
  * The spec functions (`SetupPhase` ... `Handler`) give the calls made,
  * the response and the rejection of the teardown for every query and
  * environment; the methods below follow the handler's code step by step
  * and are proved to agree with them.
  */
module Session {
  import opened Wrappers
  import opened Text
  import opened Interception
  import opened Config
  import opened Profile

  /** The top-level page or the iframe's content frame. */
  datatype Target = Page | Frame

  datatype Action =
    | ResolveExecutable                                   // chromiumPkg.executablePath()
    | LaunchBrowser(args: seq<string>, headless: bool)
    | NewContext(userAgent: string, viewport: Viewport, locale: string)
    | NewPage
    | SetExtraHeaders(headers: map<string, string>)
    | RouteAll(pattern: string)
    | InjectIframe(html: string)                          // page.setContent
    | AwaitIframe                                         // page.waitForSelector('iframe')
    | ResolveContentFrame                                 // iframeElement.contentFrame()
    | IframeSettle(ms: int)
    | Navigate(url: string)                               // page.goto, domcontentloaded
    | ClearLocalStorage(target: Target)                   // evaluate localStorage.clear()
    | RenavigateFrame(url: string)                        // pageOrFrame.goto, domcontentloaded
    | ReloadPage                                          // page.reload, domcontentloaded
    | AwaitClickTarget(target: Target, selector: string, timeoutMs: int)
    | ClickElement(selector: string)
    | ClickSettle(ms: int)
    | ExtraWait(ms: int)
    | CloseBrowser
    | ClearFontconfig                                     // chromiumPkg.fontconfig_clear()
    | ClearCld                                            // chromiumPkg.cld_clear()

  datatype Reply = Resolved | ResolvedNull | Threw

  /**
    * How the browser stack behaves during one invocation: the engine
    * package's own launch arguments, the calls that throw, whether the
    * click selector's wait resolves to null, and the page's traffic.
    */
  datatype Env = Env(
    engineArgs: seq<string>,
    throws: set<Action>,
    clickTargetMissing: bool,
    traffic: map<Action, seq<Request>>)

  function ReplyTo(env: Env, a: Action): Reply
  {
    if a in env.throws then Threw
    else if a.AwaitClickTarget? && env.clickTargetMissing then ResolvedNull
    else Resolved
  }

  /** The requests the page issues while `a` is in progress. */
  function TrafficOf(env: Env, a: Action): seq<Request>
  {
    if a in env.traffic then env.traffic[a] else []
  }

  /**
    * The state of the `try` block: the calls made so far, whether one of
    * them threw, and the requests the route callback has been handed.
    */
  datatype Progress = Progress(calls: seq<Action>, thrown: bool, seen: seq<Request>)

  /** An awaited call made before the route is installed; skipped once something threw. */
  function Step(p: Progress, a: Action, env: Env): Progress
  {
    if p.thrown then p else Progress(p.calls + [a], ReplyTo(env, a) == Threw, p.seen)
  }

  /** An awaited call made while the route is installed: its traffic reaches the callback. */
  function RoutedStep(p: Progress, a: Action, env: Env): Progress
  {
    if p.thrown then p
    else Progress(p.calls + [a], ReplyTo(env, a) == Threw, p.seen + TrafficOf(env, a))
  }

  const Initial: Progress := Progress([], false, [])

  function LaunchAction(cfg: SessionConfig, env: Env): Action
  {
    LaunchBrowser(LaunchArgs(env.engineArgs), !cfg.headful)
  }

  /** Launch, context, page, headers and the route installation. */
  function SetupPhase(cfg: SessionConfig, env: Env): Progress
  {
    var p := Step(Initial, ResolveExecutable, env);
    var p := Step(p, LaunchAction(cfg, env), env);
    var p := Step(p, NewContext(UserAgent, ContextViewport, ContextLocale), env);
    var p := Step(p, NewPage, env);
    var p := Step(p, SetExtraHeaders(ExtraHeaders(cfg.origin, cfg.referer)), env);
    Step(p, RouteAll("**/*"), env)
  }

  /** `browser` is non-null in `finally` exactly when the launch resolved. */
  predicate Launched(cfg: SessionConfig, env: Env)
  {
    ReplyTo(env, ResolveExecutable) != Threw && ReplyTo(env, LaunchAction(cfg, env)) != Threw
  }

  function IframeHtml(url: string): string
  {
    "<iframe src=\"" + url + "\" style=\"width:100%; height:100vh;\" frameBorder=\"0\"></iframe>"
  }

  /** `pageOrFrame` after the initial load. */
  function ActiveTarget(cfg: SessionConfig): Target
  {
    if cfg.iframe then Frame else Page
  }

  /** The initial load: iframe injection and a 5 s settle, or a direct navigation. */
  function LoadPhase(p: Progress, cfg: SessionConfig, env: Env): Progress
  {
    if p.thrown then p
    else if cfg.iframe then
      var p := RoutedStep(p, InjectIframe(IframeHtml(cfg.url)), env);
      var p := RoutedStep(p, AwaitIframe, env);
      var p := RoutedStep(p, ResolveContentFrame, env);
      RoutedStep(p, IframeSettle(5000), env)
    else
      RoutedStep(p, Navigate(cfg.url), env)
  }

  /** The action that loads the target again after the storage was cleared. */
  function ReloadAction(cfg: SessionConfig): Action
  {
    if cfg.iframe then RenavigateFrame(cfg.url) else ReloadPage
  }

  /** Clearing local storage in the active document, then one reload. */
  function ClearPhase(p: Progress, cfg: SessionConfig, env: Env): Progress
  {
    if p.thrown || !cfg.clearLocalStorage then p
    else
      var p := RoutedStep(p, ClearLocalStorage(ActiveTarget(cfg)), env);
      RoutedStep(p, ReloadAction(cfg), env)
  }

  /** The guarded click: whatever happens inside it, the session carries on. */
  function ClickPhase(p: Progress, cfg: SessionConfig, env: Env): Progress
  {
    if p.thrown || !Truthy(cfg.clickSelector) then p
    else
      var selector := cfg.clickSelector.value;
      var await := AwaitClickTarget(ActiveTarget(cfg), selector, 5000);
      var w := RoutedStep(p, await, env);
      var c := if w.thrown || ReplyTo(env, await) == ResolvedNull then w
               else RoutedStep(RoutedStep(w, ClickElement(selector), env), ClickSettle(5000), env);
      c.(thrown := false)
  }

  /** The caller's extra wait, only when it is positive. */
  function WaitPhase(p: Progress, cfg: SessionConfig, env: Env): Progress
  {
    if p.thrown || cfg.waitMs <= 0 then p
    else RoutedStep(p, ExtraWait(cfg.waitMs), env)
  }

  /** Everything inside `try`, up to the point where the response is chosen. */
  function TryPhase(cfg: SessionConfig, env: Env): Progress
  {
    WaitPhase(ClickPhase(ClearPhase(LoadPhase(SetupPhase(cfg, env), cfg, env), cfg, env), cfg, env), cfg, env)
  }

  /**
    * The `finally` block: close the browser if it was launched, then the two
    * engine clean-ups. An awaited call that throws here skips the rest.
    */
  function TeardownPhase(calls: seq<Action>, launched: bool, env: Env): Progress
  {
    var p := Progress(calls, false, []);
    var p := if launched then Step(p, CloseBrowser, env) else p;
    var p := Step(p, ClearFontconfig, env);
    Step(p, ClearCld, env)
  }

  datatype Meta = Meta(stealthEnabled: bool, headful: bool)

  datatype Payload = Payload(message: string, requests: seq<CapturedRequest>, meta: Meta)

  datatype Response = BadRequest(body: string) | Ok(payload: Payload) | ServerError

  function StatusCode(r: Response): int
  {
    match r
    case BadRequest(_) => 400
    case Ok(_) => 200
    case ServerError => 500
  }

  const MissingUrlBody: string := "Please provide a URL parameter."

  function SuccessPayload(cfg: SessionConfig, requests: seq<CapturedRequest>): Payload
  {
    Payload("Successfully scraped " + cfg.url, requests, Meta(cfg.stealth, cfg.headful))
  }

  /** What one invocation does: its response, every call it made, and whether `finally` threw. */
  datatype Invocation = Invocation(response: Response, calls: seq<Action>, rejected: bool)

  function Handler(q: Query, parsedWaitMs: int, env: Env): Invocation
  {
    match Resolve(q, parsedWaitMs)
    case Failure(_) => Invocation(BadRequest(MissingUrlBody), [], false)
    case Success(cfg) =>
      var t := TryPhase(cfg, env);
      var response := if t.thrown then ServerError else Ok(SuccessPayload(cfg, Captured(cfg.filter, t.seen)));
      var fin := TeardownPhase(t.calls, Launched(cfg, env), env);
      Invocation(response, fin.calls, fin.thrown)
  }

  /** The browser stack as the handler drives it: it logs every call made on it. */
  class Browser {
    const env: Env
    var calls: seq<Action>

    constructor (env: Env)
      ensures this.env == env && calls == []
    {
      this.env := env;
      calls := [];
    }

    /** An awaited call with no route installed. */
    method Perform(a: Action) returns (reply: Reply)
      modifies this
      ensures calls == old(calls) + [a] && reply == ReplyTo(env, a)
    {
      calls := calls + [a];
      reply := ReplyTo(env, a);
    }

    /** An awaited call during which the page's requests pass through the route callback one by one. */
    method PerformRouted(a: Action, log: CaptureLog) returns (reply: Reply)
      requires log.Valid()
      modifies this, log
      ensures calls == old(calls) + [a] && reply == ReplyTo(env, a)
      ensures log.Valid() && log.seen == old(log.seen) + TrafficOf(env, a)
    {
      calls := calls + [a];
      var batch := TrafficOf(env, a);
      var i := 0;
      while i < |batch|
        invariant 0 <= i <= |batch|
        invariant calls == old(calls) + [a]
        invariant log.Valid() && log.seen == old(log.seen) + batch[..i]
      {
        var _ := log.OnRequest(batch[i]);
        assert batch[..i + 1] == batch[..i] + [batch[i]];
        i := i + 1;
      }
      assert batch[..i] == batch;
      reply := ReplyTo(env, a);
    }
  }

  /** The initial load (the `if (iframe)` block): returns `pageOrFrame`. */
  method LoadTarget(cfg: SessionConfig, browser: Browser, log: CaptureLog) returns (threw: bool, pageOrFrame: Target)
    requires log.Valid()
    modifies browser, log
    ensures log.Valid()
    ensures var p := LoadPhase(Progress(old(browser.calls), false, old(log.seen)), cfg, browser.env);
            browser.calls == p.calls && log.seen == p.seen && threw == p.thrown
    ensures !threw ==> pageOrFrame == ActiveTarget(cfg)
  {
    pageOrFrame := Page;
    var reply: Reply;
    if cfg.iframe {
      reply := browser.PerformRouted(InjectIframe(IframeHtml(cfg.url)), log);
      if reply == Threw { return true, pageOrFrame; }
      reply := browser.PerformRouted(AwaitIframe, log);
      if reply == Threw { return true, pageOrFrame; }
      reply := browser.PerformRouted(ResolveContentFrame, log);
      if reply == Threw { return true, pageOrFrame; }
      pageOrFrame := Frame;
      reply := browser.PerformRouted(IframeSettle(5000), log);
    } else {
      reply := browser.PerformRouted(Navigate(cfg.url), log);
    }
    threw := reply == Threw;
  }

  /** The `if (clearLS)` block: clear storage in the active document, then load again once. */
  method ClearAndReload(cfg: SessionConfig, browser: Browser, log: CaptureLog, pageOrFrame: Target) returns (threw: bool)
    requires log.Valid() && pageOrFrame == ActiveTarget(cfg)
    modifies browser, log
    ensures log.Valid()
    ensures var p := ClearPhase(Progress(old(browser.calls), false, old(log.seen)), cfg, browser.env);
            browser.calls == p.calls && log.seen == p.seen && threw == p.thrown
  {
    threw := false;
    if cfg.clearLocalStorage {
      var reply: Reply;
      if pageOrFrame != Page {
        reply := browser.PerformRouted(ClearLocalStorage(pageOrFrame), log);
      } else {
        reply := browser.PerformRouted(ClearLocalStorage(Page), log);
      }
      if reply == Threw { return true; }
      if cfg.iframe {
        reply := browser.PerformRouted(RenavigateFrame(cfg.url), log);
      } else {
        reply := browser.PerformRouted(ReloadPage, log);
      }
      threw := reply == Threw;
    }
  }

  /** The `if (clickSelector)` block: every failure inside it is caught and dropped. */
  method ClickIfRequested(cfg: SessionConfig, browser: Browser, log: CaptureLog, pageOrFrame: Target)
    requires log.Valid() && pageOrFrame == ActiveTarget(cfg)
    modifies browser, log
    ensures log.Valid()
    ensures var p := ClickPhase(Progress(old(browser.calls), false, old(log.seen)), cfg, browser.env);
            browser.calls == p.calls && log.seen == p.seen && !p.thrown
  {
    if Truthy(cfg.clickSelector) {
      var selector := cfg.clickSelector.value;
      var element := browser.PerformRouted(AwaitClickTarget(pageOrFrame, selector, 5000), log);
      if element == Resolved {
        var reply := browser.PerformRouted(ClickElement(selector), log);
        if reply != Threw {
          reply := browser.PerformRouted(ClickSettle(5000), log);
        }
      }
    }
  }

  /** The `if (waitTime > 0)` block. */
  method WaitIfRequested(cfg: SessionConfig, browser: Browser, log: CaptureLog) returns (threw: bool)
    requires log.Valid()
    modifies browser, log
    ensures log.Valid()
    ensures var p := WaitPhase(Progress(old(browser.calls), false, old(log.seen)), cfg, browser.env);
            browser.calls == p.calls && log.seen == p.seen && threw == p.thrown
  {
    threw := false;
    if cfg.waitMs > 0 {
      var reply := browser.PerformRouted(ExtraWait(cfg.waitMs), log);
      threw := reply == Threw;
    }
  }

  /**
    * Launch, context, page, headers, the `requests` array and the route:
    * the first part of the `try` block. `log` is null when a call threw
    * before the array was created.
    */
  method OpenPage(cfg: SessionConfig, browser: Browser) returns (launched: bool, threw: bool, log: CaptureLog?)
    requires browser.calls == []
    modifies browser
    ensures SetupPhase(cfg, browser.env) == Progress(browser.calls, threw, [])
    ensures launched == Launched(cfg, browser.env)
    ensures !threw ==> log != null && fresh(log) && log.Valid() && log.filter == cfg.filter && log.seen == []
  {
    launched, threw, log := false, true, null;
    var reply := browser.Perform(ResolveExecutable);
    if reply == Threw { return; }
    reply := browser.Perform(LaunchBrowser(LaunchArgs(browser.env.engineArgs), !cfg.headful));
    if reply == Threw { return; }
    launched := true;
    reply := browser.Perform(NewContext(UserAgent, ContextViewport, ContextLocale));
    if reply == Threw { return; }
    reply := browser.Perform(NewPage);
    if reply == Threw { return; }
    var headers := BuildHeaders(cfg.origin, cfg.referer);
    reply := browser.Perform(SetExtraHeaders(headers));
    if reply == Threw { return; }
    log := new CaptureLog(cfg.filter);
    reply := browser.Perform(RouteAll("**/*"));
    threw := reply == Threw;
  }

  /** The `try` block with its `catch`: the response, and whether `browser` was assigned. */
  method RunSession(cfg: SessionConfig, browser: Browser) returns (launched: bool, response: Response)
    requires browser.calls == []
    modifies browser
    ensures var t := TryPhase(cfg, browser.env);
            && browser.calls == t.calls
            && launched == Launched(cfg, browser.env)
            && response == if t.thrown then ServerError else Ok(SuccessPayload(cfg, Captured(cfg.filter, t.seen)))
  {
    response := ServerError;
    var threw, log;
    launched, threw, log := OpenPage(cfg, browser);
    if threw { return; }
    ghost var p := Progress(browser.calls, false, []);
    var pageOrFrame;
    threw, pageOrFrame := LoadTarget(cfg, browser, log);
    p := LoadPhase(p, cfg, browser.env);
    if threw { return; }
    threw := ClearAndReload(cfg, browser, log, pageOrFrame);
    p := ClearPhase(p, cfg, browser.env);
    if threw { return; }
    ClickIfRequested(cfg, browser, log, pageOrFrame);
    p := ClickPhase(p, cfg, browser.env);
    threw := WaitIfRequested(cfg, browser, log);
    p := WaitPhase(p, cfg, browser.env);
    if threw { return; }
    response := Ok(SuccessPayload(cfg, log.requests));
  }

  /** The exported handler: URL check, the session, then the `finally` block. */
  method Handle(q: Query, parsedWaitMs: int, browser: Browser) returns (response: Response, rejected: bool)
    requires browser.calls == []
    modifies browser
    ensures Invocation(response, browser.calls, rejected) == Handler(q, parsedWaitMs, browser.env)
  {
    var resolved := Resolve(q, parsedWaitMs);
    if resolved.Failure? {
      return BadRequest(MissingUrlBody), false;
    }
    var cfg := resolved.value;
    var launched;
    launched, response := RunSession(cfg, browser);
    ghost var tried := browser.calls;
    var reply: Reply;
    if launched {
      reply := browser.Perform(CloseBrowser);
      if reply == Threw { return response, true; }
    }
    reply := browser.Perform(ClearFontconfig);
    if reply == Threw { return response, true; }
    reply := browser.Perform(ClearCld);
    rejected := reply == Threw;
    assert TeardownPhase(tried, launched, browser.env).calls == browser.calls;
  }
}
