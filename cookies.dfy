/** src/cookieRefresher.ts: the settings read from the environment and the
    re-entrancy guard of the periodic cookie refresh. The environment is a
    parameter; the timer is whoever calls `RefreshOnce`; yt-dlp's run is
    split into its start (`RefreshOnce`) and its settlement
    (`RefreshSettles`), between which other calls may arrive. */
module Cookies {
  import opened Optional
  import opened Text

  const DefaultIntervalMinutes: nat := 360
  const MinIntervalMinutes: nat := 5
  const DefaultRefreshUrl: string := "https://www.youtube.com/watch?v=BaW_jenozKc"

  /** `parseBoolean`: trimmed and lower-cased, "true", "1" and "yes" are
      true, "false", "0" and "no" are false, anything else is absent. */
  function ParseBoolean(value: Option<string>): (r: Option<bool>)
    ensures r == Some(true) <==> value.Some? && ToLower(Trim(value.value)) in {"true", "1", "yes"}
    ensures r == Some(false) <==> value.Some? && ToLower(Trim(value.value)) in {"false", "0", "no"}
  {
    if value.None? || value.value == [] then None
    else
      var normalized := ToLower(Trim(value.value));
      if normalized == "true" || normalized == "1" || normalized == "yes" then Some(true)
      else if normalized == "false" || normalized == "0" || normalized == "no" then Some(false)
      else None
  }

  /** Surrounding whitespace does not change the reading of a flag. */
  lemma ParseBooleanIgnoresSpace(s: string)
    ensures ParseBoolean(Some(s)) == ParseBoolean(Some(Trim(s)))
  {
    TrimIdempotent(s);
  }

  predicate IsDigit(c: char)
  {
    '0' <= c <= '9'
  }

  predicate AllDigits(s: string)
  {
    forall i :: 0 <= i < |s| ==> IsDigit(s[i])
  }

  /** The longest prefix of `s` made of decimal digits. */
  function LeadingDigits(s: string): (d: string)
    ensures d <= s && AllDigits(d)
    ensures |d| == |s| || !IsDigit(s[|d|])
  {
    if s != [] && IsDigit(s[0]) then [s[0]] + LeadingDigits(s[1..]) else []
  }

  /** The number a digit string denotes, most significant digit first. */
  function DecimalValue(d: string): nat
    requires AllDigits(d)
  {
    if d == [] then 0 else DecimalValue(d[..|d| - 1]) * 10 + (d[|d| - 1] as int - '0' as int)
  }

  /** `Number.parseInt(s, 10)` for the values it returns finite: leading
      whitespace and one sign are skipped, then the longest digit prefix is
      read; no digit at all gives NaN (absent here). */
  function ParseInt(s: string): (r: Option<int>)
    ensures r.None? <==> LeadingDigits(Unsigned(TrimStart(s))) == []
  {
    var t := TrimStart(s);
    var d := LeadingDigits(Unsigned(t));
    if d == [] then None
    else if t[0] == '-' then Some(-(DecimalValue(d) as int))
    else Some(DecimalValue(d))
  }

  /** `t` without its leading sign, if it has one. */
  function Unsigned(t: string): string
  {
    if t != [] && (t[0] == '-' || t[0] == '+') then t[1..] else t
  }

  /** `parsePositiveInt`: absent for absent or empty input, for input without
      a leading integer and for a value that is not positive. */
  function ParsePositiveInt(value: Option<string>): (r: Option<nat>)
    ensures r.Some? ==> r.value > 0
    ensures value.None? || value.value == [] ==> r.None?
    ensures r.Some? ==> ParseInt(Trim(value.value)) == Some(r.value as int)
    ensures value.Some? && ParseInt(Trim(value.value)).Some? && ParseInt(Trim(value.value)).value > 0 ==> r.Some?
  {
    if value.None? || value.value == [] then None
    else
      match ParseInt(Trim(value.value))
      case Some(n) => if n <= 0 then None else Some(n)
      case None => None
  }

  /** The decimal numeral of `n`, without leading zeros. */
  function Decimal(n: nat): (d: string)
    ensures d != [] && AllDigits(d) && !IsSpace(d[0]) && !IsSpace(d[|d| - 1])
    ensures n > 0 ==> d[0] != '0'
  {
    if n < 10 then ["0123456789"[n]] else Decimal(n / 10) + ["0123456789"[n % 10]]
  }

  lemma {:induction false} DecimalValueOfDecimal(n: nat)
    ensures DecimalValue(Decimal(n)) == n
  {
    if n >= 10 {
      var d := Decimal(n);
      assert d[..|d| - 1] == Decimal(n / 10);
      DecimalValueOfDecimal(n / 10);
    }
  }

  lemma {:induction false} LeadingDigitsStopsAtNonDigit(d: string, rest: string)
    requires AllDigits(d)
    requires rest == [] || !IsDigit(rest[0])
    ensures LeadingDigits(d + rest) == d
    decreases |d|
  {
    if d == [] {
      assert d + rest == rest;
    } else {
      assert (d + rest)[1..] == d[1..] + rest;
      LeadingDigitsStopsAtNonDigit(d[1..], rest);
      assert [d[0]] + d[1..] == d;
    }
  }

  /** Trimming the end of a word followed by more text keeps the word. */
  lemma TrimEndAfterWord(a: string, b: string)
    requires a != [] && !IsSpace(a[|a| - 1])
    ensures TrailingSpace(a + b) <= |b|
    ensures TrimEnd(a + b) == a + b[..|b| - TrailingSpace(a + b)]
  {
    var n := TrailingSpace(a + b);
    assert (a + b)[|a| - 1] == a[|a| - 1];
    assert (a + b)[..|a + b| - n] == a + b[..|b| - n];
  }

  /** Reading back the numeral of a positive number gives the number, also
      when it is followed by text that does not start with a digit (as
      `parseInt` ignores it). */
  lemma ParsePositiveIntReadsDecimal(n: nat, rest: string)
    requires n > 0
    requires rest == [] || !IsDigit(rest[0])
    ensures ParsePositiveInt(Some(Decimal(n) + rest)) == Some(n)
  {
    var d := Decimal(n);
    assert (d + rest)[0] == d[0];
    assert LeadingSpace(d + rest) == 0;
    assert TrimStart(d + rest) == d + rest;
    TrimEndAfterWord(d, rest);
    var c := rest[..|rest| - TrailingSpace(d + rest)];
    var t := d + c;
    assert Trim(d + rest) == t;
    assert c == [] || !IsDigit(c[0]);
    assert t[0] == d[0];
    assert LeadingSpace(t) == 0;
    assert TrimStart(t) == t;
    assert Unsigned(t) == t;
    LeadingDigitsStopsAtNonDigit(d, c);
    DecimalValueOfDecimal(n);
    assert ParseInt(t) == Some(n);
  }

  /** The interval clamp: the configured value, or 360 when there is none,
      but never less than 5 minutes. */
  function IntervalMinutes(configured: Option<nat>): (m: nat)
    ensures m >= MinIntervalMinutes
    ensures configured.None? ==> m == DefaultIntervalMinutes
    ensures configured.Some? ==> (m == configured.value || configured.value < MinIntervalMinutes)
    ensures configured.Some? && configured.value < MinIntervalMinutes ==> m == MinIntervalMinutes
  {
    var m := configured.GetOr(DefaultIntervalMinutes);
    if m < MinIntervalMinutes then MinIntervalMinutes else m
  }

  /** The environment variables the refresher reads. */
  datatype CookieEnv = CookieEnv(
    cookies: Option<string>,          // YTDLP_COOKIES
    enabled: Option<string>,          // YTDLP_COOKIE_REFRESH_ENABLED
    intervalMinutes: Option<string>,  // YTDLP_COOKIE_REFRESH_INTERVAL_MINUTES
    refreshUrl: Option<string>)       // YTDLP_COOKIE_REFRESH_URL

  datatype Settings = Settings(cookiesPath: string, refreshUrl: string, intervalMinutes: nat, intervalMs: nat)

  /** What `startYtDlpCookieRefresher` decides: no refresher (with the log
      line saying why) or a refresher with these settings. */
  datatype Start = Disabled(reason: string) | Enabled(settings: Settings)

  const NoCookies: string := "Cookie refresher disabled: YTDLP_COOKIES is not set"
  const TurnedOff: string := "Cookie refresher disabled by YTDLP_COOKIE_REFRESH_ENABLED"

  function Configure(env: CookieEnv): (r: Start)
    ensures r == Disabled(NoCookies) <==> env.cookies.None? || Trim(env.cookies.value) == []
    ensures r == Disabled(TurnedOff) <==>
      env.cookies.Some? && Trim(env.cookies.value) != [] && ParseBoolean(env.enabled) == Some(false)
    ensures r.Enabled? ==>
      && r.settings.cookiesPath == Trim(env.cookies.value) && r.settings.cookiesPath != []
      && r.settings.intervalMinutes >= MinIntervalMinutes
      && r.settings.intervalMinutes == IntervalMinutes(ParsePositiveInt(env.intervalMinutes))
      && r.settings.intervalMs == r.settings.intervalMinutes * 60000
      && (env.refreshUrl.Some? && Trim(env.refreshUrl.value) != [] ==> r.settings.refreshUrl == Trim(env.refreshUrl.value))
      && (env.refreshUrl.None? || Trim(env.refreshUrl.value) == [] ==> r.settings.refreshUrl == DefaultRefreshUrl)
  {
    var cookiesPath := if env.cookies.Some? then Trim(env.cookies.value) else [];
    if cookiesPath == [] then Disabled(NoCookies)
    else if ParseBoolean(env.enabled) == Some(false) then Disabled(TurnedOff)
    else
      var minutes := IntervalMinutes(ParsePositiveInt(env.intervalMinutes));
      var url := if env.refreshUrl.Some? && Trim(env.refreshUrl.value) != [] then Trim(env.refreshUrl.value)
                 else DefaultRefreshUrl;
      Enabled(Settings(cookiesPath, url, minutes, minutes * 60000))
  }

  /** A flag that is not recognised leaves the refresher enabled: only a
      flag reading as false turns it off. */
  lemma OnlyFalseDisables(env: CookieEnv)
    requires env.cookies.Some? && Trim(env.cookies.value) != []
    ensures Configure(env).Disabled? <==> ParseBoolean(env.enabled) == Some(false)
  {
  }

  /** What the refresher does, in order: yt-dlp runs and log lines. */
  datatype Note = Exec(url: string, cookiesPath: string) | Info(message: string) | Warn(message: string)

  /** The closure returned by `startYtDlpCookieRefresher`, with its flags. */
  class Refresher {
    const settings: Settings
    var isRunning: bool
    var isStopped: bool
    var log: seq<Note>

    constructor(s: Settings)
      ensures settings == s && !isRunning && !isStopped
      ensures log == [Info("Cookie refresher started")]
    {
      settings := s;
      isRunning := false;
      isStopped := false;
      log := [Info("Cookie refresher started")];
    }

    /** `refreshOnce` up to its `await`: nothing when stopped or when a
      refresh is already under way; otherwise the flag is raised and yt-dlp
      is started with the cookies file. */
    method RefreshOnce() returns (started: bool)
      modifies this
      ensures started <==> !old(isStopped) && !old(isRunning)
      ensures started ==> isRunning && log == old(log) + [Exec(settings.refreshUrl, settings.cookiesPath)]
      ensures !started ==> isRunning == old(isRunning) && log == old(log)
      ensures isStopped == old(isStopped)
    {
      if isStopped || isRunning {
        return false;
      }
      isRunning := true;
      log := log + [Exec(settings.refreshUrl, settings.cookiesPath)];
      return true;
    }

    /** The rest of `refreshOnce` once yt-dlp settled: one log line for
      success or failure, and the flag is lowered either way (`finally`). */
    method RefreshSettles(succeeded: bool)
      requires isRunning
      modifies this
      ensures !isRunning && isStopped == old(isStopped)
      ensures log == old(log) + [if succeeded then Info("yt-dlp cookies refreshed") else Warn("yt-dlp cookie refresh failed")]
    {
      if succeeded {
        log := log + [Info("yt-dlp cookies refreshed")];
      } else {
        log := log + [Warn("yt-dlp cookie refresh failed")];
      }
      isRunning := false;
    }

    /** `stop`: every later refresh is a no-op. */
    method Stop()
      modifies this
      ensures isStopped && isRunning == old(isRunning)
      ensures log == old(log) + [Info("Cookie refresher stopped")]
    {
      isStopped := true;
      log := log + [Info("Cookie refresher stopped")];
    }
  }
}
