/** The platform bridge (src/utils/telegram.js): detecting the host client,
    initialising its binding and finding the session-init string. The
    environment is a value; host UI calls are recorded, not performed. */
module Telegram {
  import opened Wrappers
  import opened Js

  datatype TelegramUser = TelegramUser(id: int, firstName: Option<string>, username: Option<string>)

  /** One binding of the platform object: `window.Telegram.WebApp` or the SDK's `WebApp`. */
  datatype Binding = Binding(
    initData: Option<string>,
    version: Option<string>,
    platform: Option<string>,
    user: Option<TelegramUser>)    // `initDataUnsafe.user`

  /** What the bridge can observe. `faulty` stands for a read of the
      environment that throws; every function here catches it. */
  datatype Env = Env(
    hasWindow: bool,                 // `typeof window !== 'undefined'`
    query: map<string, string>,      // the first value of each URL query parameter
    windowBinding: Option<Binding>,  // `window.Telegram.WebApp`, when both are set
    sdk: Option<Binding>,            // the SDK's `WebApp`, when defined
    faulty: bool)

  function Param(env: Env, name: string): Option<string> {
    if name in env.query then Some(env.query[name]) else None
  }

  /** `urlParams.get('tgWebAppData') || urlParams.get('initData')` */
  function UrlInitData(env: Env): Option<string> {
    Or(Param(env, "tgWebAppData"), Param(env, "initData"))
  }

  predicate WindowVersionSet(env: Env) {
    env.hasWindow && env.windowBinding.Some? && Truthy(env.windowBinding.value.version)
  }

  predicate SdkPlatformKnown(env: Env) {
    env.sdk.Some? && Truthy(env.sdk.value.platform) && env.sdk.value.platform.value != "unknown"
  }

  predicate SdkVersionSet(env: Env) {
    env.sdk.Some? && Truthy(env.sdk.value.version)
  }

  /** `isTelegramWebApp()`: the checks in their source order, false on exception. */
  function IsTelegramWebApp(env: Env): (r: bool)
    ensures r <==> !env.faulty && (WindowVersionSet(env) || SdkPlatformKnown(env) || SdkVersionSet(env))
  {
    if env.faulty then false
    else if env.hasWindow && env.windowBinding.Some? && Truthy(env.windowBinding.value.version) then true
    else if env.sdk.Some? then
      if Truthy(env.sdk.value.platform) && env.sdk.value.platform.value != "unknown" then true
      else Truthy(env.sdk.value.version)
    else false
  }

  datatype Handle = WindowWebApp | SdkWebApp
  datatype HostCall = Ready | Expand | EnableClosingConfirmation

  /** The binding `initTelegramWebApp` returns and the host calls it made on it. */
  datatype Init = Init(handle: Option<Handle>, calls: seq<HostCall>)

  /** `initTelegramWebApp()` */
  function InitTelegramWebApp(env: Env): (r: Init)
    ensures r.handle.None? <==> r.calls == []
    ensures r.handle.Some? ==> r.calls == [Ready, Expand, EnableClosingConfirmation]
    ensures r.handle == Some(WindowWebApp) <==> !env.faulty && env.hasWindow && env.windowBinding.Some?
    ensures r.handle == Some(SdkWebApp) ==> IsTelegramWebApp(env) && env.sdk.Some?
    ensures r.handle.None? && !env.faulty ==> !IsTelegramWebApp(env)
  {
    if env.faulty then Init(None, [])
    else if env.hasWindow && env.windowBinding.Some? then
      Init(Some(WindowWebApp), [Ready, Expand, EnableClosingConfirmation])
    else if IsTelegramWebApp(env) && env.sdk.Some? then
      Init(Some(SdkWebApp), [Ready, Expand, EnableClosingConfirmation])
    else Init(None, [])
  }

  /** `getTelegramWebApp()` */
  function GetTelegramWebApp(env: Env): (r: Option<Handle>)
    ensures r.Some? <==> IsTelegramWebApp(env)
    ensures r.Some? ==> r.value == SdkWebApp
  {
    if IsTelegramWebApp(env) then Some(SdkWebApp) else None
  }

  /** `getTelegramUser()`: the SDK's `initDataUnsafe.user` once detection succeeds. */
  function GetTelegramUser(env: Env): (r: Option<TelegramUser>)
    ensures !IsTelegramWebApp(env) ==> r.None?
    ensures IsTelegramWebApp(env) && env.sdk.Some? ==> r == env.sdk.value.user
    ensures r.Some? ==> env.sdk.Some? && r == env.sdk.value.user
  {
    if env.faulty then None
    else if IsTelegramWebApp(env) then
      if env.sdk.Some? then env.sdk.value.user else None
    else None
  }

  /** `getInitData()`: the URL, then `window.Telegram.WebApp`, then the SDK;
      the first non-blank value is returned as it is, otherwise null. */
  function GetInitData(env: Env): (r: Option<string>)
    ensures env.faulty ==> r.None?
    ensures r.Some? ==> NonBlank(r)
    ensures r.Some? ==> r == UrlInitData(env) || (env.windowBinding.Some? && r == env.windowBinding.value.initData)
                        || (env.sdk.Some? && r == env.sdk.value.initData)
  {
    if env.faulty then None
    else if env.hasWindow && NonBlank(UrlInitData(env)) then UrlInitData(env)
    else if env.hasWindow && env.windowBinding.Some? && NonBlank(env.windowBinding.value.initData) then
      env.windowBinding.value.initData
    else if env.sdk.Some? && NonBlank(env.sdk.value.initData) then env.sdk.value.initData
    else None
  }

  /** The reference fallback: the first non-blank candidate, else none. */
  function FirstNonBlank(candidates: seq<Option<string>>): Option<string> {
    if candidates == [] then None
    else if NonBlank(candidates[0]) then candidates[0]
    else FirstNonBlank(candidates[1..])
  }

  /** `FirstNonBlank` returns the earliest non-blank candidate, and none exactly
      when every candidate is blank. */
  lemma {:induction false} FirstNonBlankIsFirst(candidates: seq<Option<string>>)
    ensures FirstNonBlank(candidates).None? <==> forall i :: 0 <= i < |candidates| ==> !NonBlank(candidates[i])
    ensures FirstNonBlank(candidates).Some? ==>
      exists i :: 0 <= i < |candidates| && candidates[i] == FirstNonBlank(candidates) && NonBlank(candidates[i])
               && forall j :: 0 <= j < i ==> !NonBlank(candidates[j])
    decreases |candidates|
  {
    if candidates != [] && !NonBlank(candidates[0]) {
      var rest := candidates[1..];
      FirstNonBlankIsFirst(rest);
      assert forall i :: 1 <= i < |candidates| ==> candidates[i] == rest[i - 1];
      if FirstNonBlank(rest).Some? {
        var i :| 0 <= i < |rest| && rest[i] == FirstNonBlank(rest) && NonBlank(rest[i])
                 && forall j :: 0 <= j < i ==> !NonBlank(rest[j]);
        assert candidates[i + 1] == rest[i];
        assert forall j :: 0 <= j < i + 1 ==> !NonBlank(candidates[j]) by {
          forall j | 0 <= j < i + 1 ensures !NonBlank(candidates[j]) {
            if j > 0 { assert candidates[j] == rest[j - 1]; }
          }
        }
      }
    } else if candidates != [] {
      assert candidates[0] == FirstNonBlank(candidates);
    }
  }

  /** The three sources `getInitData` consults, in its order. */
  function Sources(env: Env): seq<Option<string>> {
    if env.faulty then []
    else
      (if env.hasWindow then [UrlInitData(env)] else [])
      + (if env.hasWindow && env.windowBinding.Some? then [env.windowBinding.value.initData] else [])
      + (if env.sdk.Some? then [env.sdk.value.initData] else [])
  }

  /** `getInitData` is the ordered fallback over its sources. */
  lemma GetInitDataIsFallback(env: Env)
    ensures GetInitData(env) == FirstNonBlank(Sources(env))
  {
    var sdk := if env.sdk.Some? then [env.sdk.value.initData] else [];
    assert FirstNonBlank(sdk) == if env.sdk.Some? && NonBlank(env.sdk.value.initData) then env.sdk.value.initData else None;
    if env.hasWindow && env.windowBinding.Some? {
      var w := [env.windowBinding.value.initData] + sdk;
      assert w[1..] == sdk;
    }
    if env.hasWindow && !env.faulty {
      var all := Sources(env);
      assert all[0] == UrlInitData(env);
      assert all[1..] == (if env.windowBinding.Some? then [env.windowBinding.value.initData] else []) + sdk;
    }
  }

  /** The result is null or a string with a non-whitespace code point. */
  lemma InitDataHasContent(env: Env)
    ensures GetInitData(env).Some? ==> HasContent(GetInitData(env).value)
  {
    if GetInitData(env).Some? {
      TrimNonEmptyIff(GetInitData(env).value);
    }
  }

  /** The four probes as separate candidates: URL `tgWebAppData`, URL
      `initData`, `window.Telegram.WebApp.initData`, SDK `WebApp.initData`. */
  function FourProbes(env: Env): seq<Option<string>> {
    if env.faulty then []
    else
      (if env.hasWindow then [Param(env, "tgWebAppData"), Param(env, "initData")] else [])
      + (if env.hasWindow && env.windowBinding.Some? then [env.windowBinding.value.initData] else [])
      + (if env.sdk.Some? then [env.sdk.value.initData] else [])
  }

  /** Unless `tgWebAppData` is present, non-empty and all whitespace, the first
      non-blank of the four probes wins. */
  lemma FirstOfFourProbes(env: Env)
    requires !Truthy(Param(env, "tgWebAppData")) || NonBlank(Param(env, "tgWebAppData"))
    ensures GetInitData(env) == FirstNonBlank(FourProbes(env))
  {
    GetInitDataIsFallback(env);
    if env.hasWindow && !env.faulty {
      var rest := (if env.windowBinding.Some? then [env.windowBinding.value.initData] else [])
                  + (if env.sdk.Some? then [env.sdk.value.initData] else []);
      var four := FourProbes(env);
      var tail := [Param(env, "initData")] + rest;
      assert four == [Param(env, "tgWebAppData")] + tail;
      assert four[1..] == tail;
      assert tail[1..] == rest;
      assert Sources(env) == [UrlInitData(env)] + rest;
      assert Sources(env)[1..] == rest;
      if !Truthy(Param(env, "tgWebAppData")) {
        assert !NonBlank(four[0]);
      }
    } else {
      assert FourProbes(env) == Sources(env);
    }
  }

  /** A whitespace-only `tgWebAppData` is truthy, so it shadows the `initData`
      parameter; being blank, it is then skipped, and `initData` is never read. */
  lemma BlankTgWebAppDataShadowsInitData()
    ensures var env := Env(true, map["tgWebAppData" := " ", "initData" := "q=1"], None, None, false);
      && GetInitData(env) == None
      && FirstNonBlank(FourProbes(env)) == Some("q=1")
  {
    var env := Env(true, map["tgWebAppData" := " ", "initData" := "q=1"], None, None, false);
    assert TrimStart(" ") == TrimStart(" "[1..]) == "";
    assert Trim(" ") == "";
    assert TrimStart("q=1") == "q=1";
    assert TrimEnd("q=1") == "q=1";
    var four := FourProbes(env);
    assert four == [Some(" "), Some("q=1")];
    assert four[1..] == [Some("q=1")];
  }
}
