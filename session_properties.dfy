/**
  * What the handler's spec promises: the calls follow the order of the
  * source and none is made twice, a successful run makes exactly the
  * planned calls, a failed click never changes the outcome, teardown
  * closes what was opened, and the profile echoes the resolved flags.
  */
module SessionProperties {
  import opened Wrappers
  import opened Text
  import opened Interception
  import opened Config
  import opened Profile
  import opened Session

  /** The position of each call site in the handler's code. */
  function SourceOrder(a: Action): nat
  {
    match a
    case ResolveExecutable => 0
    case LaunchBrowser(_, _) => 1
    case NewContext(_, _, _) => 2
    case NewPage => 3
    case SetExtraHeaders(_) => 4
    case RouteAll(_) => 5
    case InjectIframe(_) => 6
    case AwaitIframe => 7
    case ResolveContentFrame => 8
    case IframeSettle(_) => 9
    case Navigate(_) => 10
    case ClearLocalStorage(_) => 11
    case RenavigateFrame(_) => 12
    case ReloadPage => 13
    case AwaitClickTarget(_, _, _) => 14
    case ClickElement(_) => 15
    case ClickSettle(_) => 16
    case ExtraWait(_) => 17
    case CloseBrowser => 18
    case ClearFontconfig => 19
    case ClearCld => 20
  }

  /** Each call comes later in the code than the call before it. */
  predicate InSourceOrder(calls: seq<Action>)
  {
    |calls| <= 1 ||
    (InSourceOrder(calls[..|calls| - 1]) && SourceOrder(calls[|calls| - 2]) < SourceOrder(calls[|calls| - 1]))
  }

  /** The calls are in source order and the last of them comes before position `n`. */
  predicate Ordered(p: Progress, n: nat)
  {
    InSourceOrder(p.calls) && (p.calls != [] ==> SourceOrder(p.calls[|p.calls| - 1]) < n)
  }

  /** Adjacent calls in order put every pair of calls in order. */
  lemma {:induction false} InSourceOrderPairs(calls: seq<Action>, i: int, j: int)
    requires InSourceOrder(calls) && 0 <= i < j < |calls|
    ensures SourceOrder(calls[i]) < SourceOrder(calls[j])
    decreases |calls|
  {
    var front := calls[..|calls| - 1];
    if j < |calls| - 1 {
      InSourceOrderPairs(front, i, j);
    } else if i < j - 1 {
      InSourceOrderPairs(front, i, j - 1);
    }
  }

  lemma StepOrdered(p: Progress, a: Action, env: Env)
    requires Ordered(p, SourceOrder(a))
    ensures Ordered(Step(p, a, env), SourceOrder(a) + 1)
  {
    assert (p.calls + [a])[..|p.calls|] == p.calls;
  }

  lemma RoutedStepOrdered(p: Progress, a: Action, env: Env)
    requires Ordered(p, SourceOrder(a))
    ensures Ordered(RoutedStep(p, a, env), SourceOrder(a) + 1)
  {
    assert (p.calls + [a])[..|p.calls|] == p.calls;
  }

  lemma SetupOrdered(cfg: SessionConfig, env: Env)
    ensures Ordered(SetupPhase(cfg, env), 6)
  {
    var p0 := Step(Initial, ResolveExecutable, env);
    StepOrdered(Initial, ResolveExecutable, env);
    var p1 := Step(p0, LaunchAction(cfg, env), env);
    StepOrdered(p0, LaunchAction(cfg, env), env);
    var p2 := Step(p1, NewContext(UserAgent, ContextViewport, ContextLocale), env);
    StepOrdered(p1, NewContext(UserAgent, ContextViewport, ContextLocale), env);
    var p3 := Step(p2, NewPage, env);
    StepOrdered(p2, NewPage, env);
    var h := SetExtraHeaders(ExtraHeaders(cfg.origin, cfg.referer));
    var p4 := Step(p3, h, env);
    StepOrdered(p3, h, env);
    StepOrdered(p4, RouteAll("**/*"), env);
    assert SetupPhase(cfg, env) == Step(p4, RouteAll("**/*"), env);
  }

  /** The iframe injection, the wait for it, its content frame and the settle. */
  lemma IframeLoadOrdered(p: Progress, url: string, env: Env)
    requires Ordered(p, 6)
    ensures var p1 := RoutedStep(p, InjectIframe(IframeHtml(url)), env);
            var p2 := RoutedStep(p1, AwaitIframe, env);
            var p3 := RoutedStep(p2, ResolveContentFrame, env);
            Ordered(RoutedStep(p3, IframeSettle(5000), env), 10)
  {
    var p1 := RoutedStep(p, InjectIframe(IframeHtml(url)), env);
    RoutedStepOrdered(p, InjectIframe(IframeHtml(url)), env);
    var p2 := RoutedStep(p1, AwaitIframe, env);
    RoutedStepOrdered(p1, AwaitIframe, env);
    RoutedStepOrdered(p2, ResolveContentFrame, env);
    RoutedStepOrdered(RoutedStep(p2, ResolveContentFrame, env), IframeSettle(5000), env);
  }

  lemma LoadOrdered(p: Progress, cfg: SessionConfig, env: Env)
    requires Ordered(p, 6)
    ensures Ordered(LoadPhase(p, cfg, env), 11)
  {
    if !p.thrown {
      if cfg.iframe {
        IframeLoadOrdered(p, cfg.url, env);
      } else {
        RoutedStepOrdered(p, Navigate(cfg.url), env);
      }
    }
  }

  lemma ClearOrdered(p: Progress, cfg: SessionConfig, env: Env)
    requires Ordered(p, 11)
    ensures Ordered(ClearPhase(p, cfg, env), 14)
  {
    if !p.thrown && cfg.clearLocalStorage {
      var a := ClearLocalStorage(ActiveTarget(cfg));
      RoutedStepOrdered(p, a, env);
      RoutedStepOrdered(RoutedStep(p, a, env), ReloadAction(cfg), env);
    }
  }

  /** The click itself and its settle, after the selector's wait. */
  lemma ClickStepsOrdered(w: Progress, selector: string, env: Env)
    requires Ordered(w, 15)
    ensures Ordered(RoutedStep(RoutedStep(w, ClickElement(selector), env), ClickSettle(5000), env), 17)
  {
    RoutedStepOrdered(w, ClickElement(selector), env);
    RoutedStepOrdered(RoutedStep(w, ClickElement(selector), env), ClickSettle(5000), env);
  }

  /** Whether the click ran or not, and whatever it threw, its calls stay in order. */
  lemma ClickOutcomeOrdered(w: Progress, c: Progress)
    requires Ordered(w, 15) && Ordered(c, 17)
    ensures Ordered(w, 17) && Ordered(c.(thrown := false), 17)
  {
  }

  lemma ClickOrdered(p: Progress, cfg: SessionConfig, env: Env)
    requires Ordered(p, 14)
    ensures Ordered(ClickPhase(p, cfg, env), 17)
  {
    if !p.thrown && Truthy(cfg.clickSelector) {
      var selector := cfg.clickSelector.value;
      var await := AwaitClickTarget(ActiveTarget(cfg), selector, 5000);
      var w := RoutedStep(p, await, env);
      RoutedStepOrdered(p, await, env);
      var clicked := RoutedStep(RoutedStep(w, ClickElement(selector), env), ClickSettle(5000), env);
      ClickStepsOrdered(w, selector, env);
      ClickOutcomeOrdered(w, clicked);
      var c := if w.thrown || ReplyTo(env, await) == ResolvedNull then w else clicked;
      assert Ordered(c, 17);
      ClickOutcomeOrdered(w, c);
      assert ClickPhase(p, cfg, env) == c.(thrown := false);
    }
  }

  lemma WaitOrdered(p: Progress, cfg: SessionConfig, env: Env)
    requires Ordered(p, 17)
    ensures Ordered(WaitPhase(p, cfg, env), 18)
  {
    if !p.thrown && cfg.waitMs > 0 {
      RoutedStepOrdered(p, ExtraWait(cfg.waitMs), env);
    }
  }

  lemma TryOrdered(cfg: SessionConfig, env: Env)
    ensures Ordered(TryPhase(cfg, env), 18)
  {
    var p0 := SetupPhase(cfg, env);
    SetupOrdered(cfg, env);
    var p1 := LoadPhase(p0, cfg, env);
    LoadOrdered(p0, cfg, env);
    var p2 := ClearPhase(p1, cfg, env);
    ClearOrdered(p1, cfg, env);
    var p3 := ClickPhase(p2, cfg, env);
    ClickOrdered(p2, cfg, env);
    WaitOrdered(p3, cfg, env);
  }

  /** Calls in source order that end before position `n` all come before it. */
  lemma OrderedBelow(p: Progress, n: nat)
    requires Ordered(p, n)
    ensures forall a :: a in p.calls ==> SourceOrder(a) < n
  {
    forall a | a in p.calls
      ensures SourceOrder(a) < n
    {
      var i :| 0 <= i < |p.calls| && p.calls[i] == a;
      if i < |p.calls| - 1 {
        InSourceOrderPairs(p.calls, i, |p.calls| - 1);
      }
    }
  }

  lemma TeardownOrdered(calls: seq<Action>, launched: bool, env: Env)
    requires Ordered(Progress(calls, false, []), 18)
    ensures InSourceOrder(TeardownPhase(calls, launched, env).calls)
  {
    var p := Progress(calls, false, []);
    if launched {
      StepOrdered(p, CloseBrowser, env);
      p := Step(p, CloseBrowser, env);
    }
    StepOrdered(p, ClearFontconfig, env);
    StepOrdered(Step(p, ClearFontconfig, env), ClearCld, env);
  }

  /**
    * Whatever the query and however the browser stack behaves, the handler
    * makes its calls in the order they appear in the code, and makes none
    * of them twice.
    */
  lemma CallsFollowSourceOrder(q: Query, parsedWaitMs: int, env: Env)
    ensures forall i, j :: 0 <= i < j < |Handler(q, parsedWaitMs, env).calls| ==>
              SourceOrder(Handler(q, parsedWaitMs, env).calls[i]) < SourceOrder(Handler(q, parsedWaitMs, env).calls[j])
    ensures forall i, j :: 0 <= i < j < |Handler(q, parsedWaitMs, env).calls| ==>
              Handler(q, parsedWaitMs, env).calls[i] != Handler(q, parsedWaitMs, env).calls[j]
  {
    var calls := Handler(q, parsedWaitMs, env).calls;
    var resolved := Resolve(q, parsedWaitMs);
    if resolved.Success? {
      var cfg := resolved.value;
      TryOrdered(cfg, env);
      TeardownOrdered(TryPhase(cfg, env).calls, Launched(cfg, env), env);
    }
    forall i, j | 0 <= i < j < |calls| ensures SourceOrder(calls[i]) < SourceOrder(calls[j]) {
      InSourceOrderPairs(calls, i, j);
    }
  }

  /** The calls of each part of the `try` block when none of them throws. */
  function SetupCalls(cfg: SessionConfig, env: Env): seq<Action>
  {
    [ResolveExecutable, LaunchAction(cfg, env), NewContext(UserAgent, ContextViewport, ContextLocale),
     NewPage, SetExtraHeaders(ExtraHeaders(cfg.origin, cfg.referer)), RouteAll("**/*")]
  }

  function LoadCalls(cfg: SessionConfig): seq<Action>
  {
    if cfg.iframe then [InjectIframe(IframeHtml(cfg.url)), AwaitIframe, ResolveContentFrame, IframeSettle(5000)]
    else [Navigate(cfg.url)]
  }

  function ClearCalls(cfg: SessionConfig): seq<Action>
  {
    if cfg.clearLocalStorage then [ClearLocalStorage(ActiveTarget(cfg)), ReloadAction(cfg)] else []
  }

  function ClickCalls(cfg: SessionConfig): seq<Action>
  {
    if Truthy(cfg.clickSelector) then
      [AwaitClickTarget(ActiveTarget(cfg), cfg.clickSelector.value, 5000),
       ClickElement(cfg.clickSelector.value), ClickSettle(5000)]
    else []
  }

  function WaitCalls(cfg: SessionConfig): seq<Action>
  {
    if cfg.waitMs > 0 then [ExtraWait(cfg.waitMs)] else []
  }

  /** The whole `try` block when nothing throws and the click target is found. */
  function Plan(cfg: SessionConfig, env: Env): seq<Action>
  {
    SetupCalls(cfg, env) + LoadCalls(cfg) + ClearCalls(cfg) + ClickCalls(cfg) + WaitCalls(cfg)
  }

  /** The requests the page issues during `calls`, in order. */
  function Traffic(env: Env, calls: seq<Action>): seq<Request>
  {
    if calls == [] then [] else TrafficOf(env, calls[0]) + Traffic(env, calls[1..])
  }

  lemma {:induction false} TrafficAppend(env: Env, a: seq<Action>, b: seq<Action>)
    ensures Traffic(env, a + b) == Traffic(env, a) + Traffic(env, b)
  {
    if a != [] {
      assert (a + b)[1..] == a[1..] + b;
      TrafficAppend(env, a[1..], b);
    } else {
      assert a + b == b;
    }
  }

  /** The planned calls made one after the other, stopping after the first that throws. */
  function RunAll(p: Progress, planned: seq<Action>, env: Env, routed: bool): Progress
    decreases |planned|
  {
    if planned == [] || p.thrown then p
    else RunAll(if routed then RoutedStep(p, planned[0], env) else Step(p, planned[0], env), planned[1..], env, routed)
  }

  /**
    * `out` is `p` after the first `j` planned calls: the calls are appended,
    * their traffic reaches the callback when the route is installed, and
    * the run stopped early only because its last call threw.
    */
  predicate MadeCalls(p: Progress, out: Progress, planned: seq<Action>, j: nat, env: Env, routed: bool)
  {
    && j <= |planned|
    && out.calls == p.calls + planned[..j]
    && out.seen == p.seen + (if routed then Traffic(env, planned[..j]) else [])
    && (out.thrown ==> 0 < j && planned[j - 1] in env.throws)
    && (!out.thrown ==> j == |planned|)
  }

  lemma TrafficCons(env: Env, a: Action, rest: seq<Action>)
    ensures Traffic(env, [a] + rest) == TrafficOf(env, a) + Traffic(env, rest)
  {
    assert ([a] + rest)[1..] == rest;
  }

  lemma PrefixCons(planned: seq<Action>, j: nat)
    requires j < |planned|
    ensures planned[..j + 1] == [planned[0]] + planned[1..][..j]
  {
  }

  /** One planned call that throws ends the run. */
  lemma RunAllStopsAt(p: Progress, planned: seq<Action>, env: Env, routed: bool)
    requires !p.thrown && planned != []
    requires (if routed then RoutedStep(p, planned[0], env) else Step(p, planned[0], env)).thrown
    ensures MadeCalls(p, RunAll(p, planned, env, routed), planned, 1, env, routed)
  {
    var a := planned[0];
    assert planned[..1] == [a];
    TrafficCons(env, a, []);
  }

  /** Making the first planned call without a throw, then `j` more, is making `j + 1` of them. */
  lemma MadeCallsCons(p: Progress, out: Progress, planned: seq<Action>, j: nat, env: Env, routed: bool)
    requires !p.thrown && planned != []
    requires var next := if routed then RoutedStep(p, planned[0], env) else Step(p, planned[0], env);
             !next.thrown && MadeCalls(next, out, planned[1..], j, env, routed)
    ensures MadeCalls(p, out, planned, j + 1, env, routed)
  {
    var a, rest := planned[0], planned[1..];
    var made := planned[..j + 1];
    PrefixCons(planned, j);
    assert out.calls == p.calls + made by {
      assert p.calls + made == (p.calls + [a]) + rest[..j];
    }
    if routed {
      TrafficCons(env, a, rest[..j]);
      assert out.seen == p.seen + Traffic(env, made) by {
        assert p.seen + Traffic(env, made) == (p.seen + TrafficOf(env, a)) + Traffic(env, rest[..j]);
      }
    }
    if out.thrown {
      assert rest[j - 1] == planned[j];
    }
  }

  lemma {:induction false} RunAllShape(p: Progress, planned: seq<Action>, env: Env, routed: bool) returns (j: nat)
    requires !p.thrown
    ensures MadeCalls(p, RunAll(p, planned, env, routed), planned, j, env, routed)
    decreases |planned|
  {
    if planned == [] {
      j := 0;
      assert planned[..0] == [];
      return;
    }
    var next := if routed then RoutedStep(p, planned[0], env) else Step(p, planned[0], env);
    if next.thrown {
      j := 1;
      RunAllStopsAt(p, planned, env, routed);
    } else {
      assert RunAll(p, planned, env, routed) == RunAll(next, planned[1..], env, routed);
      var j' := RunAllShape(next, planned[1..], env, routed);
      MadeCallsCons(p, RunAll(next, planned[1..], env, routed), planned, j', env, routed);
      j := j' + 1;
    }
  }

  /** Performing planned call `i`, then the ones after it. */
  lemma RunAllAt(p: Progress, planned: seq<Action>, i: nat, env: Env, routed: bool)
    requires i < |planned|
    ensures RunAll(p, planned[i..], env, routed)
         == RunAll(if routed then RoutedStep(p, planned[i], env) else Step(p, planned[i], env), planned[i + 1..], env, routed)
  {
    assert planned[i..][1..] == planned[i + 1..];
  }

  lemma SetupIsRun(cfg: SessionConfig, env: Env)
    ensures SetupPhase(cfg, env) == RunAll(Initial, SetupCalls(cfg, env), env, false)
  {
    var s := SetupCalls(cfg, env);
    assert s[0..] == s;
    RunAllAt(Initial, s, 0, env, false);
    var p1 := Step(Initial, s[0], env);
    RunAllAt(p1, s, 1, env, false);
    var p2 := Step(p1, s[1], env);
    RunAllAt(p2, s, 2, env, false);
    var p3 := Step(p2, s[2], env);
    RunAllAt(p3, s, 3, env, false);
    var p4 := Step(p3, s[3], env);
    RunAllAt(p4, s, 4, env, false);
    var p5 := Step(p4, s[4], env);
    RunAllAt(p5, s, 5, env, false);
    assert s[6..] == [];
  }

  lemma PhasesAreRuns(p: Progress, cfg: SessionConfig, env: Env)
    ensures LoadPhase(p, cfg, env) == RunAll(p, LoadCalls(cfg), env, true)
    ensures ClearPhase(p, cfg, env) == RunAll(p, ClearCalls(cfg), env, true)
    ensures WaitPhase(p, cfg, env) == RunAll(p, WaitCalls(cfg), env, true)
  {
    var l := LoadCalls(cfg);
    assert l[0..] == l;
    RunAllAt(p, l, 0, env, true);
    if cfg.iframe {
      var p1 := RoutedStep(p, l[0], env);
      RunAllAt(p1, l, 1, env, true);
      var p2 := RoutedStep(p1, l[1], env);
      RunAllAt(p2, l, 2, env, true);
      var p3 := RoutedStep(p2, l[2], env);
      RunAllAt(p3, l, 3, env, true);
      assert l[4..] == [];
    } else {
      assert l[1..] == [];
    }
    var c := ClearCalls(cfg);
    if cfg.clearLocalStorage {
      assert c[0..] == c;
      RunAllAt(p, c, 0, env, true);
      RunAllAt(RoutedStep(p, c[0], env), c, 1, env, true);
      assert c[2..] == [];
    }
    var w := WaitCalls(cfg);
    if cfg.waitMs > 0 {
      assert w[0..] == w;
      RunAllAt(p, w, 0, env, true);
      assert w[1..] == [];
    }
  }

  /** The guarded click makes a prefix of its planned calls and never throws. */
  lemma ClickShape(p: Progress, cfg: SessionConfig, env: Env) returns (k: nat)
    requires !p.thrown
    ensures var out := ClickPhase(p, cfg, env);
            && k <= |ClickCalls(cfg)|
            && out.calls == p.calls + ClickCalls(cfg)[..k]
            && out.seen == p.seen + Traffic(env, ClickCalls(cfg)[..k])
            && !out.thrown
            && ((forall a :: a in ClickCalls(cfg) ==> a !in env.throws) && !env.clickTargetMissing ==> k == |ClickCalls(cfg)|)
  {
    var c := ClickCalls(cfg);
    if !Truthy(cfg.clickSelector) {
      k := 0;
      assert c[..0] == [];
      return;
    }
    var w := RoutedStep(p, c[0], env);
    assert Traffic(env, [c[0]]) == TrafficOf(env, c[0]) by {
      assert [c[0]][1..] == [];
    }
    if w.thrown || ReplyTo(env, c[0]) == ResolvedNull {
      k := 1;
      assert c[..1] == [c[0]];
      return;
    }
    var w2 := RoutedStep(w, c[1], env);
    assert Traffic(env, [c[0], c[1]]) == TrafficOf(env, c[0]) + TrafficOf(env, c[1]) by {
      assert [c[0], c[1]][1..] == [c[1]];
      assert [c[1]][1..] == [];
    }
    if w2.thrown {
      k := 2;
      assert c[..2] == [c[0], c[1]];
      return;
    }
    k := 3;
    assert c[..3] == c == [c[0], c[1], c[2]];
    assert Traffic(env, c) == TrafficOf(env, c[0]) + TrafficOf(env, c[1]) + TrafficOf(env, c[2]) by {
      assert c[1..][1..] == [c[2]];
      assert [c[2]][1..] == [];
      assert Traffic(env, [c[2]]) == TrafficOf(env, c[2]);
      assert Traffic(env, c[1..]) == TrafficOf(env, c[1]) + TrafficOf(env, c[2]);
    }
  }

  /** Once a call has thrown, the rest of the `try` block is skipped. */
  lemma ThrownStays(p: Progress, cfg: SessionConfig, env: Env)
    requires p.thrown
    ensures LoadPhase(p, cfg, env) == p && ClearPhase(p, cfg, env) == p
    ensures ClickPhase(p, cfg, env) == p && WaitPhase(p, cfg, env) == p
  {
  }

  /** A setup that does not throw makes the six setup calls and hands no request to the callback. */
  lemma SetupSucceeded(cfg: SessionConfig, env: Env)
    requires !SetupPhase(cfg, env).thrown
    ensures SetupPhase(cfg, env).calls == SetupCalls(cfg, env) && SetupPhase(cfg, env).seen == []
  {
    SetupIsRun(cfg, env);
    var j := RunAllShape(Initial, SetupCalls(cfg, env), env, false);
    assert SetupCalls(cfg, env)[..j] == SetupCalls(cfg, env);
  }

  lemma RoutedRunSucceeded(p: Progress, planned: seq<Action>, env: Env)
    requires !p.thrown && !RunAll(p, planned, env, true).thrown
    ensures RunAll(p, planned, env, true).calls == p.calls + planned
    ensures RunAll(p, planned, env, true).seen == p.seen + Traffic(env, planned)
  {
    var j := RunAllShape(p, planned, env, true);
    assert planned[..j] == planned;
  }

  /** The calls and traffic of a run that got past the storage reset. */
  lemma ReachedClick(cfg: SessionConfig, env: Env)
    requires !ClearPhase(LoadPhase(SetupPhase(cfg, env), cfg, env), cfg, env).thrown
    ensures var p := ClearPhase(LoadPhase(SetupPhase(cfg, env), cfg, env), cfg, env);
            && p.calls == SetupCalls(cfg, env) + LoadCalls(cfg) + ClearCalls(cfg)
            && p.seen == Traffic(env, LoadCalls(cfg) + ClearCalls(cfg))
  {
    var p0 := SetupPhase(cfg, env);
    var p1 := LoadPhase(p0, cfg, env);
    if p0.thrown { ThrownStays(p0, cfg, env); ThrownStays(p1, cfg, env); }
    if p1.thrown { ThrownStays(p1, cfg, env); }
    SetupSucceeded(cfg, env);
    PhasesAreRuns(p0, cfg, env);
    RoutedRunSucceeded(p0, LoadCalls(cfg), env);
    PhasesAreRuns(p1, cfg, env);
    RoutedRunSucceeded(p1, ClearCalls(cfg), env);
    TrafficAppend(env, LoadCalls(cfg), ClearCalls(cfg));
  }

  /**
    * A run that reaches the response makes exactly the planned calls in
    * order, except that the click may stop after a prefix of its calls;
    * the callback sees the traffic of every call from the first load on.
    */
  lemma SuccessfulRunFollowsPlan(cfg: SessionConfig, env: Env)
    requires !TryPhase(cfg, env).thrown
    ensures exists k :: 0 <= k <= |ClickCalls(cfg)|
              && TryPhase(cfg, env).calls
                 == SetupCalls(cfg, env) + LoadCalls(cfg) + ClearCalls(cfg) + ClickCalls(cfg)[..k] + WaitCalls(cfg)
              && TryPhase(cfg, env).seen
                 == Traffic(env, LoadCalls(cfg) + ClearCalls(cfg) + ClickCalls(cfg)[..k] + WaitCalls(cfg))
  {
    var k := SuccessfulRunSplit(cfg, env);
  }

  /** `SuccessfulRunFollowsPlan` with the number of click calls made as a result. */
  lemma SuccessfulRunSplit(cfg: SessionConfig, env: Env) returns (k: nat)
    requires !TryPhase(cfg, env).thrown
    ensures k <= |ClickCalls(cfg)|
    ensures TryPhase(cfg, env).calls
              == SetupCalls(cfg, env) + LoadCalls(cfg) + ClearCalls(cfg) + ClickCalls(cfg)[..k] + WaitCalls(cfg)
    ensures TryPhase(cfg, env).seen
              == Traffic(env, LoadCalls(cfg) + ClearCalls(cfg) + ClickCalls(cfg)[..k] + WaitCalls(cfg))
  {
    var p2 := ClearPhase(LoadPhase(SetupPhase(cfg, env), cfg, env), cfg, env);
    if p2.thrown { ThrownStays(p2, cfg, env); }
    ReachedClick(cfg, env);
    k := ClickShape(p2, cfg, env);
    var p3 := ClickPhase(p2, cfg, env);
    PhasesAreRuns(p3, cfg, env);
    RoutedRunSucceeded(p3, WaitCalls(cfg), env);
    var before, kc, w := LoadCalls(cfg) + ClearCalls(cfg), ClickCalls(cfg)[..k], WaitCalls(cfg);
    TrafficAppend(env, before, kc);
    TrafficAppend(env, before + kc, w);
    assert TryPhase(cfg, env).calls == SetupCalls(cfg, env) + LoadCalls(cfg) + ClearCalls(cfg) + kc + w;
  }

  /** A run whose planned calls cannot throw makes them all. */
  lemma RunWithoutThrow(p: Progress, planned: seq<Action>, env: Env, routed: bool)
    requires !p.thrown && forall a :: a in planned ==> a !in env.throws
    ensures !RunAll(p, planned, env, routed).thrown
  {
    var j := RunAllShape(p, planned, env, routed);
  }

  /** A run adds only planned calls. */
  lemma RunStaysInPlan(p: Progress, planned: seq<Action>, env: Env, routed: bool, plan: seq<Action>)
    requires forall a :: a in p.calls ==> a in plan
    requires forall a :: a in planned ==> a in plan
    ensures forall a :: a in RunAll(p, planned, env, routed).calls ==> a in plan
  {
    if !p.thrown {
      var j := RunAllShape(p, planned, env, routed);
      assert forall a :: a in planned[..j] ==> a in planned;
    }
  }

  /**
    * When no planned call throws and the click target is found, the run
    * reaches the response after making every planned call.
    */
  lemma UndisturbedRunFollowsPlan(cfg: SessionConfig, env: Env)
    requires forall a :: a in Plan(cfg, env) ==> a !in env.throws
    requires !env.clickTargetMissing
    ensures !TryPhase(cfg, env).thrown
    ensures TryPhase(cfg, env).calls == Plan(cfg, env)
  {
    var s, l, c, kc, w := SetupCalls(cfg, env), LoadCalls(cfg), ClearCalls(cfg), ClickCalls(cfg), WaitCalls(cfg);
    assert forall a :: a in s || a in l || a in c || a in kc || a in w ==> a in Plan(cfg, env);
    SetupIsRun(cfg, env);
    RunWithoutThrow(Initial, s, env, false);
    var p0 := SetupPhase(cfg, env);
    PhasesAreRuns(p0, cfg, env);
    RunWithoutThrow(p0, l, env, true);
    var p1 := LoadPhase(p0, cfg, env);
    PhasesAreRuns(p1, cfg, env);
    RunWithoutThrow(p1, c, env, true);
    ReachedClick(cfg, env);
    var p2 := ClearPhase(p1, cfg, env);
    var k := ClickShape(p2, cfg, env);
    assert kc[..k] == kc;
    var p3 := ClickPhase(p2, cfg, env);
    PhasesAreRuns(p3, cfg, env);
    RunWithoutThrow(p3, w, env, true);
    RoutedRunSucceeded(p3, w, env);
  }

  /** Whatever throws, every call the `try` block makes is one of its planned calls. */
  lemma EveryCallIsPlanned(cfg: SessionConfig, env: Env)
    ensures forall a :: a in TryPhase(cfg, env).calls ==> a in Plan(cfg, env)
  {
    var plan := Plan(cfg, env);
    var s, l, c, kc, w := SetupCalls(cfg, env), LoadCalls(cfg), ClearCalls(cfg), ClickCalls(cfg), WaitCalls(cfg);
    assert forall a :: a in s || a in l || a in c || a in kc || a in w ==> a in plan;
    SetupIsRun(cfg, env);
    RunStaysInPlan(Initial, s, env, false, plan);
    var p0 := SetupPhase(cfg, env);
    PhasesAreRuns(p0, cfg, env);
    RunStaysInPlan(p0, l, env, true, plan);
    var p1 := LoadPhase(p0, cfg, env);
    PhasesAreRuns(p1, cfg, env);
    RunStaysInPlan(p1, c, env, true, plan);
    var p2 := ClearPhase(p1, cfg, env);
    if !p2.thrown {
      var k := ClickShape(p2, cfg, env);
      assert forall a :: a in kc[..k] ==> a in kc;
    }
    var p3 := ClickPhase(p2, cfg, env);
    PhasesAreRuns(p3, cfg, env);
    RunStaysInPlan(p3, w, env, true, plan);
  }

  /** Each phase of the `try` block only appends to the calls made before it. */
  lemma PhaseExtends(p: Progress, cfg: SessionConfig, env: Env)
    ensures p.calls <= LoadPhase(p, cfg, env).calls
    ensures p.calls <= ClearPhase(p, cfg, env).calls
    ensures p.calls <= ClickPhase(p, cfg, env).calls
    ensures p.calls <= WaitPhase(p, cfg, env).calls
  {
    PhasesAreRuns(p, cfg, env);
    if !p.thrown {
      var j1 := RunAllShape(p, LoadCalls(cfg), env, true);
      var j2 := RunAllShape(p, ClearCalls(cfg), env, true);
      var k := ClickShape(p, cfg, env);
      var j3 := RunAllShape(p, WaitCalls(cfg), env, true);
    }
  }

  lemma LoadExtendsToTry(cfg: SessionConfig, env: Env)
    ensures LoadPhase(SetupPhase(cfg, env), cfg, env).calls <= TryPhase(cfg, env).calls
  {
    var p1 := LoadPhase(SetupPhase(cfg, env), cfg, env);
    var p2 := ClearPhase(p1, cfg, env);
    var p3 := ClickPhase(p2, cfg, env);
    PhaseExtends(p1, cfg, env);
    PhaseExtends(p2, cfg, env);
    PhaseExtends(p3, cfg, env);
  }

  lemma TryExtendsSetup(cfg: SessionConfig, env: Env)
    ensures SetupPhase(cfg, env).calls <= TryPhase(cfg, env).calls
  {
    PhaseExtends(SetupPhase(cfg, env), cfg, env);
    LoadExtendsToTry(cfg, env);
  }

  predicate IsTeardown(a: Action)
  {
    a.CloseBrowser? || a.ClearFontconfig? || a.ClearCld?
  }

  /** The `finally` block appends teardown calls and nothing else. */
  lemma TeardownAppends(calls: seq<Action>, launched: bool, env: Env)
    ensures calls <= TeardownPhase(calls, launched, env).calls
    ensures forall i :: |calls| <= i < |TeardownPhase(calls, launched, env).calls| ==>
              IsTeardown(TeardownPhase(calls, launched, env).calls[i])
  {
  }

  /**
    * Without a truthy `url` the handler answers 400 before the `try`
    * block: no browser call is made, not even a clean-up.
    */
  lemma MissingUrlIsBadRequest(q: Query, parsedWaitMs: int, env: Env)
    requires !Truthy(q.url)
    ensures StatusCode(Handler(q, parsedWaitMs, env).response) == 400
    ensures Handler(q, parsedWaitMs, env) == Invocation(BadRequest(MissingUrlBody), [], false)
  {
  }

  /** The handler once `url` is present: the `try` block, its response, then `finally`. */
  lemma HandlerAfterResolve(q: Query, parsedWaitMs: int, env: Env)
    requires Truthy(q.url)
    ensures Resolve(q, parsedWaitMs).Success?
    ensures var cfg := Resolve(q, parsedWaitMs).value;
            var t := TryPhase(cfg, env);
            var fin := TeardownPhase(t.calls, Launched(cfg, env), env);
            Handler(q, parsedWaitMs, env) ==
              Invocation(if t.thrown then ServerError else Ok(SuccessPayload(cfg, Captured(cfg.filter, t.seen))),
                         fin.calls, fin.thrown)
  {
  }

  lemma NoTeardownBelow(p: Progress)
    requires Ordered(p, 18)
    ensures CloseBrowser !in p.calls && ClearFontconfig !in p.calls && ClearCld !in p.calls
  {
    OrderedBelow(p, 18);
  }

  lemma TryMakesNoTeardownCall(cfg: SessionConfig, env: Env)
    ensures CloseBrowser !in TryPhase(cfg, env).calls
    ensures ClearFontconfig !in TryPhase(cfg, env).calls
    ensures ClearCld !in TryPhase(cfg, env).calls
  {
    TryOrdered(cfg, env);
    NoTeardownBelow(TryPhase(cfg, env));
  }

  /** Which teardown calls are made after calls that contain none. */
  lemma TeardownOutcome(calls: seq<Action>, launched: bool, env: Env)
    requires CloseBrowser !in calls && ClearFontconfig !in calls && ClearCld !in calls
    ensures var fin := TeardownPhase(calls, launched, env);
            && calls <= fin.calls
            && (CloseBrowser in fin.calls <==> launched)
            && (ClearFontconfig in fin.calls <==> !(launched && CloseBrowser in env.throws))
            && (ClearCld in fin.calls <==> ClearFontconfig in fin.calls && ClearFontconfig !in env.throws)
            && (fin.thrown <==>
                  (CloseBrowser in fin.calls && CloseBrowser in env.throws)
                  || (ClearFontconfig in fin.calls && ClearFontconfig in env.throws)
                  || (ClearCld in fin.calls && ClearCld in env.throws))
  {
  }

  /**
    * Once inside `try`, the browser is closed exactly when it was launched;
    * the two engine clean-ups follow unless an earlier teardown call threw,
    * and the handler rejects exactly when a teardown call threw.
    */
  lemma TeardownAfterTry(q: Query, parsedWaitMs: int, env: Env)
    requires Truthy(q.url)
    ensures var cfg := Resolve(q, parsedWaitMs).value;
            var inv := Handler(q, parsedWaitMs, env);
            var launched := Launched(cfg, env);
            && TryPhase(cfg, env).calls <= inv.calls
            && (CloseBrowser in inv.calls <==> launched)
            && (ClearFontconfig in inv.calls <==> !(launched && CloseBrowser in env.throws))
            && (ClearCld in inv.calls <==> ClearFontconfig in inv.calls && ClearFontconfig !in env.throws)
            && (inv.rejected <==>
                  (CloseBrowser in inv.calls && CloseBrowser in env.throws)
                  || (ClearFontconfig in inv.calls && ClearFontconfig in env.throws)
                  || (ClearCld in inv.calls && ClearCld in env.throws))
  {
    HandlerAfterResolve(q, parsedWaitMs, env);
    var cfg := Resolve(q, parsedWaitMs).value;
    TryMakesNoTeardownCall(cfg, env);
    TeardownOutcome(TryPhase(cfg, env).calls, Launched(cfg, env), env);
  }

  /**
    * A launched browser whose close throws leaves both engine clean-ups
    * unmade, and the handler rejects.
    */
  lemma FailedCloseSkipsCleanup(q: Query, parsedWaitMs: int, env: Env)
    requires Truthy(q.url) && Launched(Resolve(q, parsedWaitMs).value, env) && CloseBrowser in env.throws
    ensures var inv := Handler(q, parsedWaitMs, env);
            CloseBrowser in inv.calls && ClearFontconfig !in inv.calls && ClearCld !in inv.calls && inv.rejected
  {
    TeardownAfterTry(q, parsedWaitMs, env);
  }

  predicate IsClickStep(a: Action)
  {
    a.AwaitClickTarget? || a.ClickElement? || a.ClickSettle?
  }

  /** Two environments that differ at most in how the click's calls end. */
  ghost predicate SameOutsideClick(e1: Env, e2: Env)
  {
    e1.engineArgs == e2.engineArgs && forall a :: !IsClickStep(a) ==> (a in e1.throws <==> a in e2.throws)
  }

  lemma PhasesAgreeOutsideClick(p1: Progress, p2: Progress, cfg: SessionConfig, e1: Env, e2: Env)
    requires SameOutsideClick(e1, e2) && p1.thrown == p2.thrown
    ensures LoadPhase(p1, cfg, e1).thrown == LoadPhase(p2, cfg, e2).thrown
    ensures ClearPhase(p1, cfg, e1).thrown == ClearPhase(p2, cfg, e2).thrown
    ensures ClickPhase(p1, cfg, e1).thrown == ClickPhase(p2, cfg, e2).thrown
    ensures WaitPhase(p1, cfg, e1).thrown == WaitPhase(p2, cfg, e2).thrown
  {
    assert !IsClickStep(InjectIframe(IframeHtml(cfg.url))) && !IsClickStep(AwaitIframe);
    assert !IsClickStep(ResolveContentFrame) && !IsClickStep(IframeSettle(5000));
    assert !IsClickStep(Navigate(cfg.url)) && !IsClickStep(ClearLocalStorage(ActiveTarget(cfg)));
    assert !IsClickStep(ReloadAction(cfg)) && !IsClickStep(ExtraWait(cfg.waitMs));
  }

  /**
    * Whatever the click's calls do (time out, find nothing, throw), the
    * status code and the outcome of the teardown are the same.
    */
  lemma ClickNeverFatal(q: Query, parsedWaitMs: int, e1: Env, e2: Env)
    requires SameOutsideClick(e1, e2)
    ensures StatusCode(Handler(q, parsedWaitMs, e1).response) == StatusCode(Handler(q, parsedWaitMs, e2).response)
    ensures Handler(q, parsedWaitMs, e1).rejected == Handler(q, parsedWaitMs, e2).rejected
  {
    if Truthy(q.url) {
      HandlerAfterResolve(q, parsedWaitMs, e1);
      HandlerAfterResolve(q, parsedWaitMs, e2);
      var cfg := Resolve(q, parsedWaitMs).value;
      TryThrownAgrees(cfg, e1, e2);
      TeardownThrownAgrees(TryPhase(cfg, e1).calls, TryPhase(cfg, e2).calls, Launched(cfg, e1), e1, e2);
    }
  }

  lemma TryThrownAgrees(cfg: SessionConfig, e1: Env, e2: Env)
    requires SameOutsideClick(e1, e2)
    ensures TryPhase(cfg, e1).thrown == TryPhase(cfg, e2).thrown
    ensures Launched(cfg, e1) == Launched(cfg, e2)
  {
    var s1, s2 := SetupPhase(cfg, e1), SetupPhase(cfg, e2);
    assert LaunchAction(cfg, e1) == LaunchAction(cfg, e2);
    assert !IsClickStep(ResolveExecutable) && !IsClickStep(LaunchAction(cfg, e1));
    assert s1.thrown == s2.thrown;
    PhasesAgreeOutsideClick(s1, s2, cfg, e1, e2);
    var l1, l2 := LoadPhase(s1, cfg, e1), LoadPhase(s2, cfg, e2);
    PhasesAgreeOutsideClick(l1, l2, cfg, e1, e2);
    var c1, c2 := ClearPhase(l1, cfg, e1), ClearPhase(l2, cfg, e2);
    PhasesAgreeOutsideClick(c1, c2, cfg, e1, e2);
    var k1, k2 := ClickPhase(c1, cfg, e1), ClickPhase(c2, cfg, e2);
    PhasesAgreeOutsideClick(k1, k2, cfg, e1, e2);
  }

  lemma TeardownThrownAgrees(calls1: seq<Action>, calls2: seq<Action>, launched: bool, e1: Env, e2: Env)
    requires SameOutsideClick(e1, e2)
    ensures TeardownPhase(calls1, launched, e1).thrown == TeardownPhase(calls2, launched, e2).thrown
  {
    assert !IsClickStep(CloseBrowser) && !IsClickStep(ClearFontconfig) && !IsClickStep(ClearCld);
  }

  /**
    * Only the click's own `try` swallows a throw: while nothing has
    * escaped, no call made outside the click threw.
    */
  predicate ThrowsEscape(p: Progress, env: Env)
  {
    !p.thrown ==> forall a :: a in p.calls && !IsClickStep(a) ==> a !in env.throws
  }

  lemma StepThrowsEscape(p: Progress, a: Action, env: Env)
    requires ThrowsEscape(p, env)
    ensures ThrowsEscape(Step(p, a, env), env) && ThrowsEscape(RoutedStep(p, a, env), env)
  {
  }

  lemma SetupThrowsEscape(cfg: SessionConfig, env: Env)
    ensures ThrowsEscape(SetupPhase(cfg, env), env)
  {
    var p0 := Step(Initial, ResolveExecutable, env);
    StepThrowsEscape(Initial, ResolveExecutable, env);
    var p1 := Step(p0, LaunchAction(cfg, env), env);
    StepThrowsEscape(p0, LaunchAction(cfg, env), env);
    var p2 := Step(p1, NewContext(UserAgent, ContextViewport, ContextLocale), env);
    StepThrowsEscape(p1, NewContext(UserAgent, ContextViewport, ContextLocale), env);
    var p3 := Step(p2, NewPage, env);
    StepThrowsEscape(p2, NewPage, env);
    var h := SetExtraHeaders(ExtraHeaders(cfg.origin, cfg.referer));
    var p4 := Step(p3, h, env);
    StepThrowsEscape(p3, h, env);
    StepThrowsEscape(p4, RouteAll("**/*"), env);
    assert SetupPhase(cfg, env) == Step(p4, RouteAll("**/*"), env);
  }

  lemma LoadThrowsEscape(p: Progress, cfg: SessionConfig, env: Env)
    requires ThrowsEscape(p, env)
    ensures ThrowsEscape(LoadPhase(p, cfg, env), env)
  {
    if !p.thrown {
      if cfg.iframe {
        var p1 := RoutedStep(p, InjectIframe(IframeHtml(cfg.url)), env);
        StepThrowsEscape(p, InjectIframe(IframeHtml(cfg.url)), env);
        var p2 := RoutedStep(p1, AwaitIframe, env);
        StepThrowsEscape(p1, AwaitIframe, env);
        var p3 := RoutedStep(p2, ResolveContentFrame, env);
        StepThrowsEscape(p2, ResolveContentFrame, env);
        StepThrowsEscape(p3, IframeSettle(5000), env);
      } else {
        StepThrowsEscape(p, Navigate(cfg.url), env);
      }
    }
  }

  lemma ClearThrowsEscape(p: Progress, cfg: SessionConfig, env: Env)
    requires ThrowsEscape(p, env)
    ensures ThrowsEscape(ClearPhase(p, cfg, env), env)
  {
    if !p.thrown && cfg.clearLocalStorage {
      var a := ClearLocalStorage(ActiveTarget(cfg));
      StepThrowsEscape(p, a, env);
      StepThrowsEscape(RoutedStep(p, a, env), ReloadAction(cfg), env);
    }
  }

  /** The click adds only click calls, and never leaves a throw behind. */
  lemma ClickThrowsEscape(p: Progress, cfg: SessionConfig, env: Env)
    requires ThrowsEscape(p, env)
    ensures ThrowsEscape(ClickPhase(p, cfg, env), env)
  {
    if !p.thrown && Truthy(cfg.clickSelector) {
      var selector := cfg.clickSelector.value;
      var await := AwaitClickTarget(ActiveTarget(cfg), selector, 5000);
      var w := RoutedStep(p, await, env);
      var c := if w.thrown || ReplyTo(env, await) == ResolvedNull then w
               else RoutedStep(RoutedStep(w, ClickElement(selector), env), ClickSettle(5000), env);
      var k := RoutedStep(w, ClickElement(selector), env);
      assert forall a :: a in k.calls ==> a in p.calls || IsClickStep(a);
      assert forall a :: a in c.calls ==> a in p.calls || IsClickStep(a);
      assert ClickPhase(p, cfg, env) == c.(thrown := false);
    }
  }

  lemma TryThrowsEscape(cfg: SessionConfig, env: Env)
    ensures ThrowsEscape(TryPhase(cfg, env), env)
  {
    var p0 := SetupPhase(cfg, env);
    SetupThrowsEscape(cfg, env);
    var p1 := LoadPhase(p0, cfg, env);
    LoadThrowsEscape(p0, cfg, env);
    var p2 := ClearPhase(p1, cfg, env);
    ClearThrowsEscape(p1, cfg, env);
    var p3 := ClickPhase(p2, cfg, env);
    ClickThrowsEscape(p2, cfg, env);
    if !p3.thrown && cfg.waitMs > 0 {
      StepThrowsEscape(p3, ExtraWait(cfg.waitMs), env);
    }
  }

  /** Every handler call that is not a clean-up was made inside `try`. */
  lemma HandlerCallInTry(q: Query, parsedWaitMs: int, env: Env, a: Action)
    requires Truthy(q.url) && a in Handler(q, parsedWaitMs, env).calls && !IsTeardown(a)
    ensures Resolve(q, parsedWaitMs).Success?
    ensures a in TryPhase(Resolve(q, parsedWaitMs).value, env).calls
  {
    HandlerAfterResolve(q, parsedWaitMs, env);
    var cfg := Resolve(q, parsedWaitMs).value;
    var t := TryPhase(cfg, env);
    TeardownAppends(t.calls, Launched(cfg, env), env);
    var calls := Handler(q, parsedWaitMs, env).calls;
    var i :| 0 <= i < |calls| && calls[i] == a;
    assert i < |t.calls| && t.calls[i] == a;
  }

  /**
    * A call outside the click that throws is caught by the outer `catch`:
    * the answer is 500, whatever else happened.
    */
  lemma FatalThrowIsServerError(q: Query, parsedWaitMs: int, env: Env, a: Action)
    requires Truthy(q.url) && a in Handler(q, parsedWaitMs, env).calls
    requires !IsClickStep(a) && !IsTeardown(a) && a in env.throws
    ensures Handler(q, parsedWaitMs, env).response == ServerError
  {
    HandlerCallInTry(q, parsedWaitMs, env, a);
    HandlerAfterResolve(q, parsedWaitMs, env);
    TryThrowsEscape(Resolve(q, parsedWaitMs).value, env);
  }

  /** The handler's response when it is 200: the flags and the URL echoed back. */
  lemma ResponseEchoesQuery(q: Query, parsedWaitMs: int, env: Env)
    requires Handler(q, parsedWaitMs, env).response.Ok?
    ensures Truthy(q.url)
    ensures var payload := Handler(q, parsedWaitMs, env).response.payload;
            && payload.message == "Successfully scraped " + q.url.value
            && payload.meta == Meta(q.stealth == Some("true"), q.headful == Some("true"))
            && payload.requests == Captured(q.filter, TryPhase(Resolve(q, parsedWaitMs).value, env).seen)
  {
    if !Truthy(q.url) {
      MissingUrlIsBadRequest(q, parsedWaitMs, env);
      assert false;
    }
    HandlerAfterResolve(q, parsedWaitMs, env);
  }

  /** The handler's calls are those of the `try` block followed by teardown calls. */
  lemma HandlerExtendsTry(q: Query, parsedWaitMs: int, env: Env)
    requires Truthy(q.url)
    ensures Resolve(q, parsedWaitMs).Success?
    ensures TryPhase(Resolve(q, parsedWaitMs).value, env).calls <= Handler(q, parsedWaitMs, env).calls
  {
    HandlerAfterResolve(q, parsedWaitMs, env);
    var cfg := Resolve(q, parsedWaitMs).value;
    TeardownAppends(TryPhase(cfg, env).calls, Launched(cfg, env), env);
  }

  /** The first calls of setup: resolving the executable, then the launch, then the context, the page and the headers. */
  lemma SetupProfile(cfg: SessionConfig, env: Env)
    ensures var calls := SetupPhase(cfg, env).calls;
            && (ResolveExecutable !in env.throws ==> 2 <= |calls| && calls[1] == LaunchAction(cfg, env))
            && (ResolveExecutable !in env.throws && LaunchAction(cfg, env) !in env.throws
                && NewContext(UserAgent, ContextViewport, ContextLocale) !in env.throws && NewPage !in env.throws ==>
                  5 <= |calls| && calls[4] == SetExtraHeaders(ExtraHeaders(cfg.origin, cfg.referer)))
  {
    SetupIsRun(cfg, env);
    var s := SetupCalls(cfg, env);
    var j := RunAllShape(Initial, s, env, false);
    assert SetupPhase(cfg, env).calls == s[..j];
  }

  /**
    * The browser is launched headless unless `headful` is exactly "true",
    * with the engine's arguments plus the sandbox flags.
    */
  lemma LaunchFollowsHeadful(q: Query, parsedWaitMs: int, env: Env)
    requires Truthy(q.url) && ResolveExecutable !in env.throws
    ensures var calls := Handler(q, parsedWaitMs, env).calls;
            2 <= |calls| && calls[1] == LaunchBrowser(env.engineArgs + SandboxFlags, q.headful != Some("true"))
  {
    HandlerExtendsTry(q, parsedWaitMs, env);
    var cfg := Resolve(q, parsedWaitMs).value;
    TryExtendsSetup(cfg, env);
    SetupProfile(cfg, env);
  }

  /**
    * Once the launch, the context and the page exist, the extra headers
    * installed on the page are the client hints plus the echoed origin and
    * referer.
    */
  lemma HeadersFollowQuery(q: Query, parsedWaitMs: int, env: Env)
    requires Truthy(q.url)
    requires ResolveExecutable !in env.throws && LaunchAction(Resolve(q, parsedWaitMs).value, env) !in env.throws
    requires NewContext(UserAgent, ContextViewport, ContextLocale) !in env.throws && NewPage !in env.throws
    ensures var calls := Handler(q, parsedWaitMs, env).calls;
            5 <= |calls| && calls[4] == SetExtraHeaders(ExtraHeaders(q.origin, q.referer))
  {
    HandlerExtendsTry(q, parsedWaitMs, env);
    var cfg := Resolve(q, parsedWaitMs).value;
    TryExtendsSetup(cfg, env);
    SetupProfile(cfg, env);
  }

  /** The first call after setup loads the target: directly, or through the iframe wrapper. */
  lemma FirstLoadCall(cfg: SessionConfig, env: Env)
    requires !SetupPhase(cfg, env).thrown
    ensures var calls := LoadPhase(SetupPhase(cfg, env), cfg, env).calls;
            7 <= |calls| && calls[6] == LoadCalls(cfg)[0]
  {
    var p0 := SetupPhase(cfg, env);
    SetupSucceeded(cfg, env);
    PhasesAreRuns(p0, cfg, env);
    var j := RunAllShape(p0, LoadCalls(cfg), env, true);
  }

  /**
    * The first load follows the truthiness of `iframe`: the string "false"
    * still selects the iframe path.
    */
  lemma LoadModeFollowsIframeTruthiness(q: Query, parsedWaitMs: int, env: Env)
    requires Truthy(q.url) && !SetupPhase(Resolve(q, parsedWaitMs).value, env).thrown
    ensures var calls := Handler(q, parsedWaitMs, env).calls;
            && 7 <= |calls|
            && calls[6] == if Truthy(q.iframe) then InjectIframe(IframeHtml(q.url.value)) else Navigate(q.url.value)
  {
    HandlerExtendsTry(q, parsedWaitMs, env);
    var cfg := Resolve(q, parsedWaitMs).value;
    LoadExtendsToTry(cfg, env);
    FirstLoadCall(cfg, env);
  }

  lemma IframeFalseStillEmbeds(q: Query, parsedWaitMs: int, env: Env)
    requires Truthy(q.url) && q.iframe == Some("false") && !SetupPhase(Resolve(q, parsedWaitMs).value, env).thrown
    ensures var calls := Handler(q, parsedWaitMs, env).calls;
            7 <= |calls| && calls[6].InjectIframe?
  {
    LoadModeFollowsIframeTruthiness(q, parsedWaitMs, env);
  }

  /** Storage clearing and the click act on the frame in iframe mode and on the page otherwise. */
  lemma PlanTargets(cfg: SessionConfig, env: Env)
    ensures forall a :: a in Plan(cfg, env) && (a.ClearLocalStorage? || a.AwaitClickTarget?) ==> a.target == ActiveTarget(cfg)
  {
    var s, l, c, kc, w := SetupCalls(cfg, env), LoadCalls(cfg), ClearCalls(cfg), ClickCalls(cfg), WaitCalls(cfg);
    assert forall a :: a in s ==> !a.ClearLocalStorage? && !a.AwaitClickTarget?;
    assert forall a :: a in l ==> !a.ClearLocalStorage? && !a.AwaitClickTarget?;
    assert forall a :: a in w ==> !a.ClearLocalStorage? && !a.AwaitClickTarget?;
  }

  /** The reload is the frame's re-navigation in iframe mode and a page reload otherwise. */
  lemma PlanReloads(cfg: SessionConfig, env: Env)
    ensures forall a :: a in Plan(cfg, env) && a.RenavigateFrame? ==> cfg.iframe
    ensures forall a :: a in Plan(cfg, env) && a.ReloadPage? ==> !cfg.iframe
  {
    var s, l, c, kc, w := SetupCalls(cfg, env), LoadCalls(cfg), ClearCalls(cfg), ClickCalls(cfg), WaitCalls(cfg);
    assert forall a :: a in s ==> !a.RenavigateFrame? && !a.ReloadPage?;
    assert forall a :: a in l ==> !a.RenavigateFrame? && !a.ReloadPage?;
    assert forall a :: a in kc ==> !a.RenavigateFrame? && !a.ReloadPage?;
    assert forall a :: a in w ==> !a.RenavigateFrame? && !a.ReloadPage?;
  }

  /** Every call of the handler is a planned call of the `try` block or a teardown call. */
  lemma HandlerCallsArePlanned(q: Query, parsedWaitMs: int, env: Env)
    requires Truthy(q.url)
    ensures forall a :: a in Handler(q, parsedWaitMs, env).calls ==>
              a in Plan(Resolve(q, parsedWaitMs).value, env) || IsTeardown(a)
  {
    HandlerAfterResolve(q, parsedWaitMs, env);
    var cfg := Resolve(q, parsedWaitMs).value;
    var t := TryPhase(cfg, env);
    TeardownAppends(t.calls, Launched(cfg, env), env);
    EveryCallIsPlanned(cfg, env);
    var calls := Handler(q, parsedWaitMs, env).calls;
    forall a | a in calls
      ensures a in t.calls || IsTeardown(a)
    {
      var i :| 0 <= i < |calls| && calls[i] == a;
      if i < |t.calls| {
        assert t.calls[i] == a;
      }
    }
  }

  lemma TargetsFollowIframeMode(q: Query, parsedWaitMs: int, env: Env)
    requires Truthy(q.url)
    ensures var target := if Truthy(q.iframe) then Frame else Page;
            forall a :: a in Handler(q, parsedWaitMs, env).calls && (a.ClearLocalStorage? || a.AwaitClickTarget?) ==>
              a.target == target
  {
    var cfg := Resolve(q, parsedWaitMs).value;
    HandlerCallsArePlanned(q, parsedWaitMs, env);
    PlanTargets(cfg, env);
  }

  lemma ReloadFollowsIframeMode(q: Query, parsedWaitMs: int, env: Env)
    requires Truthy(q.url)
    ensures forall a :: a in Handler(q, parsedWaitMs, env).calls && a.RenavigateFrame? ==> Truthy(q.iframe)
    ensures forall a :: a in Handler(q, parsedWaitMs, env).calls && a.ReloadPage? ==> !Truthy(q.iframe)
  {
    var cfg := Resolve(q, parsedWaitMs).value;
    HandlerCallsArePlanned(q, parsedWaitMs, env);
    PlanReloads(cfg, env);
  }

  /** The calls that load a document into the page or the frame. */
  predicate IsLoad(a: Action)
  {
    a.Navigate? || a.InjectIframe? || a.RenavigateFrame? || a.ReloadPage?
  }

  function LoadCount(calls: seq<Action>): nat
  {
    if calls == [] then 0 else (if IsLoad(calls[0]) then 1 else 0) + LoadCount(calls[1..])
  }

  lemma {:induction false} LoadCountAppend(a: seq<Action>, b: seq<Action>)
    ensures LoadCount(a + b) == LoadCount(a) + LoadCount(b)
  {
    if a == [] {
      assert a + b == b;
    } else {
      assert (a + b)[1..] == a[1..] + b;
      LoadCountAppend(a[1..], b);
    }
  }

  lemma {:induction false} NoLoadNoCount(s: seq<Action>)
    requires forall i :: 0 <= i < |s| ==> !IsLoad(s[i])
    ensures LoadCount(s) == 0
  {
    if s != [] {
      NoLoadNoCount(s[1..]);
    }
  }

  lemma FirstLoadCounts(cfg: SessionConfig)
    ensures LoadCount(LoadCalls(cfg)) == 1
  {
    NoLoadNoCount(LoadCalls(cfg)[1..]);
  }

  lemma ReloadCounts(cfg: SessionConfig)
    ensures LoadCount(ClearCalls(cfg)) == if cfg.clearLocalStorage then 1 else 0
  {
    if cfg.clearLocalStorage {
      var c := ClearCalls(cfg);
      assert c[1..] == [ReloadAction(cfg)] && IsLoad(ReloadAction(cfg));
      assert c[1..][1..] == [];
      assert LoadCount(c[1..]) == 1;
    }
  }

  lemma OtherPhasesCountNoLoad(cfg: SessionConfig, env: Env, k: nat)
    requires k <= |ClickCalls(cfg)|
    ensures LoadCount(SetupCalls(cfg, env)) == 0
    ensures LoadCount(ClickCalls(cfg)[..k]) == 0
    ensures LoadCount(WaitCalls(cfg)) == 0
  {
    NoLoadNoCount(SetupCalls(cfg, env));
    NoLoadNoCount(ClickCalls(cfg)[..k]);
    NoLoadNoCount(WaitCalls(cfg));
  }

  lemma PlannedLoadCount(cfg: SessionConfig, env: Env, k: nat)
    requires k <= |ClickCalls(cfg)|
    ensures LoadCount(SetupCalls(cfg, env) + LoadCalls(cfg) + ClearCalls(cfg) + ClickCalls(cfg)[..k] + WaitCalls(cfg))
              == if cfg.clearLocalStorage then 2 else 1
  {
    FirstLoadCounts(cfg);
    ReloadCounts(cfg);
    OtherPhasesCountNoLoad(cfg, env, k);
    LoadCountAppend(SetupCalls(cfg, env), LoadCalls(cfg));
    LoadCountAppend(SetupCalls(cfg, env) + LoadCalls(cfg), ClearCalls(cfg));
    LoadCountAppend(SetupCalls(cfg, env) + LoadCalls(cfg) + ClearCalls(cfg), ClickCalls(cfg)[..k]);
    LoadCountAppend(SetupCalls(cfg, env) + LoadCalls(cfg) + ClearCalls(cfg) + ClickCalls(cfg)[..k], WaitCalls(cfg));
  }

  lemma TryLoadCount(cfg: SessionConfig, env: Env)
    requires !TryPhase(cfg, env).thrown
    ensures LoadCount(TryPhase(cfg, env).calls) == if cfg.clearLocalStorage then 2 else 1
  {
    var k := SuccessfulRunSplit(cfg, env);
    PlannedLoadCount(cfg, env, k);
  }

  /** A 200 response means the `try` block ran to its end without throwing. */
  lemma OkMeansTryCompleted(q: Query, parsedWaitMs: int, env: Env)
    requires Handler(q, parsedWaitMs, env).response.Ok?
    ensures Truthy(q.url) && !TryPhase(Resolve(q, parsedWaitMs).value, env).thrown
  {
    if !Truthy(q.url) {
      MissingUrlIsBadRequest(q, parsedWaitMs, env);
      assert false;
    }
    HandlerAfterResolve(q, parsedWaitMs, env);
  }

  /** The `finally` block makes no load. */
  lemma TeardownLoadsNothing(calls: seq<Action>, launched: bool, env: Env)
    ensures LoadCount(TeardownPhase(calls, launched, env).calls) == LoadCount(calls)
  {
    var fin := TeardownPhase(calls, launched, env).calls;
    TeardownAppends(calls, launched, env);
    var tail := fin[|calls|..];
    assert fin == calls + tail;
    NoLoadNoCount(tail);
    LoadCountAppend(calls, tail);
  }

  /** After the `try` block, the handler makes no further load. */
  lemma TeardownAddsNoLoad(q: Query, parsedWaitMs: int, env: Env)
    requires Truthy(q.url)
    ensures LoadCount(Handler(q, parsedWaitMs, env).calls) == LoadCount(TryPhase(Resolve(q, parsedWaitMs).value, env).calls)
  {
    HandlerAfterResolve(q, parsedWaitMs, env);
    var cfg := Resolve(q, parsedWaitMs).value;
    TeardownLoadsNothing(TryPhase(cfg, env).calls, Launched(cfg, env), env);
  }

  /**
    * A 200 response means the target was loaded once, and once more after
    * its local storage was cleared when `clearlocalstorage` is "true".
    */
  lemma StorageResetLoadsOnceMore(q: Query, parsedWaitMs: int, env: Env)
    requires Handler(q, parsedWaitMs, env).response.Ok?
    ensures LoadCount(Handler(q, parsedWaitMs, env).calls) == if q.clearlocalstorage == Some("true") then 2 else 1
  {
    OkMeansTryCompleted(q, parsedWaitMs, env);
    TryLoadCount(Resolve(q, parsedWaitMs).value, env);
    TeardownAddsNoLoad(q, parsedWaitMs, env);
  }

  /** The requests captured while `l` runs head those captured while `l` and then `c`, `k`, `w` run. */
  lemma LeadingTrafficCaptured(filter: Option<string>, env: Env, l: seq<Action>, c: seq<Action>, k: seq<Action>, w: seq<Action>)
    ensures Captured(filter, Traffic(env, l)) <= Captured(filter, Traffic(env, l + c + k + w))
  {
    assert l + c + k + w == l + (c + k + w);
    TrafficAppend(env, l, c + k + w);
    CapturedAppend(filter, Traffic(env, l), Traffic(env, c + k + w));
  }

  /** The requests seen during the first load head the requests seen by the whole `try` block. */
  lemma FirstLoadTrafficLeads(cfg: SessionConfig, env: Env)
    requires !TryPhase(cfg, env).thrown
    ensures Captured(cfg.filter, Traffic(env, LoadCalls(cfg))) <= Captured(cfg.filter, TryPhase(cfg, env).seen)
  {
    var k := SuccessfulRunSplit(cfg, env);
    LeadingTrafficCaptured(cfg.filter, env, LoadCalls(cfg), ClearCalls(cfg), ClickCalls(cfg)[..k], WaitCalls(cfg));
  }

  /**
    * The requests captured during the first load stay at the head of the
    * list the response returns, even when local storage is cleared and the
    * target loaded again.
    */
  lemma FirstLoadRequestsKept(q: Query, parsedWaitMs: int, env: Env)
    requires Handler(q, parsedWaitMs, env).response.Ok?
    ensures Truthy(q.url)
    ensures Captured(q.filter, Traffic(env, LoadCalls(Resolve(q, parsedWaitMs).value)))
              <= Handler(q, parsedWaitMs, env).response.payload.requests
  {
    OkMeansTryCompleted(q, parsedWaitMs, env);
    ResponseEchoesQuery(q, parsedWaitMs, env);
    FirstLoadTrafficLeads(Resolve(q, parsedWaitMs).value, env);
  }

  lemma PlannedWait(cfg: SessionConfig, env: Env, ms: int)
    requires ExtraWait(ms) in Plan(cfg, env)
    ensures ms == cfg.waitMs && ms > 0
  {
    var s, l, c, kc, w := SetupCalls(cfg, env), LoadCalls(cfg), ClearCalls(cfg), ClickCalls(cfg), WaitCalls(cfg);
    assert ExtraWait(ms) !in s && ExtraWait(ms) !in l && ExtraWait(ms) !in c && ExtraWait(ms) !in kc;
  }

  /** The extra wait, when made, lasts the parsed `wait` and only a positive one. */
  lemma WaitOnlyWhenPositive(q: Query, parsedWaitMs: int, env: Env, ms: int)
    requires Truthy(q.url) && ExtraWait(ms) in Handler(q, parsedWaitMs, env).calls
    ensures Truthy(q.wait) && ms == parsedWaitMs && ms > 0
  {
    HandlerCallsArePlanned(q, parsedWaitMs, env);
    assert !IsTeardown(ExtraWait(ms));
    PlannedWait(Resolve(q, parsedWaitMs).value, env, ms);
  }

  /** When no call outside the click throws, the `try` block runs to its end. */
  lemma OnlyClickThrowsCompletes(cfg: SessionConfig, env: Env)
    requires forall a :: a in Plan(cfg, env) && !IsClickStep(a) ==> a !in env.throws
    ensures !TryPhase(cfg, env).thrown
  {
    var s, l, c, w := SetupCalls(cfg, env), LoadCalls(cfg), ClearCalls(cfg), WaitCalls(cfg);
    assert forall a :: a in s || a in l || a in c || a in w ==> a in Plan(cfg, env) && !IsClickStep(a);
    SetupIsRun(cfg, env);
    RunWithoutThrow(Initial, s, env, false);
    var p0 := SetupPhase(cfg, env);
    PhasesAreRuns(p0, cfg, env);
    RunWithoutThrow(p0, l, env, true);
    var p1 := LoadPhase(p0, cfg, env);
    PhasesAreRuns(p1, cfg, env);
    RunWithoutThrow(p1, c, env, true);
    var p3 := ClickPhase(ClearPhase(p1, cfg, env), cfg, env);
    PhasesAreRuns(p3, cfg, env);
    RunWithoutThrow(p3, w, env, true);
  }

  /**
    * A truthy `wait` with a positive parsed length is waited out whenever
    * the calls before it do not throw; a failed click does not prevent it.
    */
  lemma WaitMadeWhenPositive(q: Query, parsedWaitMs: int, env: Env)
    requires Truthy(q.url) && Truthy(q.wait) && parsedWaitMs > 0
    requires forall a :: a in Plan(Resolve(q, parsedWaitMs).value, env) && !IsClickStep(a) ==> a !in env.throws
    ensures ExtraWait(parsedWaitMs) in Handler(q, parsedWaitMs, env).calls
  {
    var cfg := Resolve(q, parsedWaitMs).value;
    OnlyClickThrowsCompletes(cfg, env);
    var p3 := ClickPhase(ClearPhase(LoadPhase(SetupPhase(cfg, env), cfg, env), cfg, env), cfg, env);
    assert !p3.thrown;
    assert TryPhase(cfg, env).calls == p3.calls + [ExtraWait(parsedWaitMs)];
    HandlerExtendsTry(q, parsedWaitMs, env);
  }
}
