/** The host monitor of src/middleware/SystemMonitor.js: its configuration,
    built once from the environment and the caller's overrides, and its alert
    gate, which sends each alert kind at most once per cooldown period.
    Sampling the host, the webhook request and the timer are inputs. */
module Monitor {
  import opened Wrappers
  import opened JsString

  const DefaultThreshold: real := 85.0
  /** Five minutes, in milliseconds. */
  const DefaultCheckInterval := 5 * 60 * 1000
  /** Fifteen minutes, in milliseconds. */
  const DefaultCooldown := 15 * 60 * 1000
  const WebhookPath := "/api/webhook/"
  const ConfigMissingError := "Home Assistant configuration missing. Please check HA_BASE_URL and WEBHOOK_ID in .env"
  const Startup := "startup"
  const CpuAlert := "cpu_alert"
  const MemoryAlert := "memory_alert"

  datatype Config = Config(
    memoryThreshold: real,
    cpuThreshold: real,
    checkInterval: int,
    notificationCooldown: int,
    webhookUrl: string)

  /** The keys the caller's `config` object sets; an absent key keeps the default. */
  datatype Overrides = Overrides(
    memoryThreshold: Option<real>,
    cpuThreshold: Option<real>,
    checkInterval: Option<int>,
    notificationCooldown: Option<int>,
    webhookUrl: Option<string>)

  /** `s.replace(/c$/, '')` for a one-character pattern: removes one trailing
      `c`, if there is one, and nothing else. */
  function StripTrailing(s: string, c: char): (r: string)
    ensures r == s || r + [c] == s
    ensures |s| > 0 && s[|s| - 1] == c ==> |r| == |s| - 1
  {
    if |s| > 0 && s[|s| - 1] == c then s[..|s| - 1] else s
  }

  /** The object-spread merge `{...defaults, ...config}`. */
  function Merge(defaults: Config, o: Overrides): (c: Config)
    ensures o == Overrides(None, None, None, None, None) ==> c == defaults
    ensures o.cpuThreshold.Some? ==> c.cpuThreshold == o.cpuThreshold.value
    ensures o.cpuThreshold.None? ==> c.cpuThreshold == defaults.cpuThreshold
    ensures o.memoryThreshold.Some? ==> c.memoryThreshold == o.memoryThreshold.value
    ensures o.memoryThreshold.None? ==> c.memoryThreshold == defaults.memoryThreshold
    ensures o.checkInterval.Some? ==> c.checkInterval == o.checkInterval.value
    ensures o.checkInterval.None? ==> c.checkInterval == defaults.checkInterval
    ensures o.notificationCooldown.Some? ==> c.notificationCooldown == o.notificationCooldown.value
    ensures o.notificationCooldown.None? ==> c.notificationCooldown == defaults.notificationCooldown
    ensures o.webhookUrl.Some? ==> c.webhookUrl == o.webhookUrl.value
    ensures o.webhookUrl.None? ==> c.webhookUrl == defaults.webhookUrl
  {
    Config(o.memoryThreshold.GetOr(defaults.memoryThreshold),
           o.cpuThreshold.GetOr(defaults.cpuThreshold),
           o.checkInterval.GetOr(defaults.checkInterval),
           o.notificationCooldown.GetOr(defaults.notificationCooldown),
           o.webhookUrl.GetOr(defaults.webhookUrl))
  }

  /** The constructor's configuration from `HA_BASE_URL`, `WEBHOOK_ID` and the
      caller's overrides. It fails when either variable is missing or is
      empty once its one trailing `/` or `%` is stripped; otherwise the
      default webhook URL is the stripped base, the webhook path and the
      stripped id. */
  function BuildConfig(haBaseUrl: Option<string>, webhookId: Option<string>, o: Overrides): (r: Result<Config, string>)
    ensures r.Failure? <==> haBaseUrl.None? || webhookId.None?
                            || StripTrailing(haBaseUrl.value, '/') == []
                            || StripTrailing(webhookId.value, '%') == []
    ensures r.Failure? ==> r.error == ConfigMissingError
    ensures r.Success? ==>
              r.value == Merge(Config(DefaultThreshold, DefaultThreshold, DefaultCheckInterval, DefaultCooldown,
                                      StripTrailing(haBaseUrl.value, '/') + WebhookPath
                                      + StripTrailing(webhookId.value, '%')), o)
  {
    var base := if haBaseUrl.Some? then Some(StripTrailing(haBaseUrl.value, '/')) else None;
    var id := if webhookId.Some? then Some(StripTrailing(webhookId.value, '%')) else None;
    if !Truthy(base) || !Truthy(id) then
      Failure(ConfigMissingError)
    else
      var defaults := Config(DefaultThreshold, DefaultThreshold, DefaultCheckInterval, DefaultCooldown,
                             base.value + WebhookPath + id.value);
      Success(Merge(defaults, o))
  }

  /** A base URL given with or without its trailing slash yields the same
      webhook URL; a second trailing slash is kept. */
  lemma TrailingSlashIsOptional(base: string, id: string, o: Overrides)
    requires base != [] && base[|base| - 1] != '/'
    ensures BuildConfig(Some(base + "/"), Some(id), o) == BuildConfig(Some(base), Some(id), o)
    ensures StripTrailing(base + "//", '/') == base + "/"
  {
  }

  /** The state `lastNotificationTime` starts in. */
  const InitialNotificationTimes: map<string, int> := map["cpu" := 0, "memory" := 0]

  /** The early return of `sendNotification`: with a positive cooldown, a
      kind other than startup is held back while less than a cooldown has
      passed since it was last delivered. A kind never delivered has no entry
      (in the source `now - undefined` is NaN and the comparison is false). */
  predicate Suppressed(cfg: Config, last: map<string, int>, kind: string, now: int): (held: bool)
    ensures held ==> kind in last && now < last[kind] + cfg.notificationCooldown
    ensures (cfg.notificationCooldown > 0 && kind != Startup && kind in last
             && now < last[kind] + cfg.notificationCooldown) ==> held
    ensures kind in last && last[kind] + cfg.notificationCooldown <= now ==> !held
    ensures kind == Startup || cfg.notificationCooldown <= 0 ==> !held
  {
    && cfg.notificationCooldown > 0
    && kind != Startup
    && kind in last
    && now - last[kind] < cfg.notificationCooldown
  }

  /** `lastNotificationTime` after one `sendNotification`: only a delivered
      notification that was not held back records `now`, and only for its kind. */
  function AfterSend(cfg: Config, last: map<string, int>, kind: string, now: int, delivered: bool): (r: map<string, int>)
    ensures forall k :: k != kind ==> (k in r <==> k in last) && (k in last ==> r[k] == last[k])
    ensures r == last || (r == last[kind := now] && delivered && !Suppressed(cfg, last, kind, now))
    ensures delivered && !Suppressed(cfg, last, kind, now) ==> r == last[kind := now]
  {
    if !Suppressed(cfg, last, kind, now) && delivered then last[kind := now] else last
  }

  /** Once a kind has been delivered at `t`, it is held back until a full
      cooldown has passed, and sent again after that. */
  lemma CooldownWindow(cfg: Config, last: map<string, int>, kind: string, t: int, later: int)
    requires cfg.notificationCooldown > 0 && kind != Startup
    requires !Suppressed(cfg, last, kind, t) && t <= later
    ensures Suppressed(cfg, AfterSend(cfg, last, kind, t, true), kind, later)
            <==> later < t + cfg.notificationCooldown
  {
  }

  /** Startup notifications and the first alert of each kind always go out:
      the initial entries are for "cpu" and "memory", never for the alert
      kinds. */
  lemma FirstAlertsAreSent(cfg: Config, now: int)
    ensures !Suppressed(cfg, InitialNotificationTimes, CpuAlert, now)
    ensures !Suppressed(cfg, InitialNotificationTimes, MemoryAlert, now)
    ensures forall last :: !Suppressed(cfg, last, Startup, now)
  {
  }

  class SystemMonitor {
    var config: Config
    var lastNotificationTime: map<string, int>
    /** The handle of the periodic check, `this.interval`; None when unset or cleared. */
    var interval: Option<nat>

    constructor (cfg: Config)
      ensures config == cfg && lastNotificationTime == InitialNotificationTimes && interval == None
    {
      config := cfg;
      lastNotificationTime := InitialNotificationTimes;
      interval := None;
    }

    /** `new SystemMonitor(config)` with `HA_BASE_URL` and `WEBHOOK_ID` as
        read from the environment: a monitor, or the constructor's error. */
    static method Create(haBaseUrl: Option<string>, webhookId: Option<string>, o: Overrides)
      returns (r: Result<SystemMonitor, string>)
      ensures BuildConfig(haBaseUrl, webhookId, o).Failure? ==> r == Failure(ConfigMissingError)
      ensures BuildConfig(haBaseUrl, webhookId, o).Success? ==>
                && r.Success? && fresh(r.value)
                && r.value.config == BuildConfig(haBaseUrl, webhookId, o).value
                && r.value.lastNotificationTime == InitialNotificationTimes
                && r.value.interval == None
    {
      var built := BuildConfig(haBaseUrl, webhookId, o);
      if built.Failure? {
        r := Failure(built.error);
      } else {
        var m := new SystemMonitor(built.value);
        r := Success(m);
      }
    }

    /** `sendNotification(kind, data)` at time `now`; `delivered` says whether
        the webhook answered with a success status. Returns whether the
        webhook was called at all. A failed delivery records nothing, so the
        next check tries again. */
    method SendNotification(kind: string, now: int, delivered: bool) returns (attempted: bool)
      modifies this`lastNotificationTime
      ensures attempted == !Suppressed(config, old(lastNotificationTime), kind, now)
      ensures lastNotificationTime == AfterSend(config, old(lastNotificationTime), kind, now, delivered)
      ensures attempted && delivered ==> lastNotificationTime[kind] == now
    {
      if Suppressed(config, lastNotificationTime, kind, now) {
        return false;
      }
      attempted := true;
      if delivered {
        lastNotificationTime := lastNotificationTime[kind := now];
      }
    }

    /** `check()` with the sampled usages: an alert kind is considered only
        when its usage is strictly above its threshold, and then goes through
        the cooldown gate. */
    method Check(cpuUsage: real, memoryUsage: real, now: int, cpuDelivered: bool, memoryDelivered: bool)
      returns (cpuAttempted: bool, memoryAttempted: bool)
      modifies this`lastNotificationTime
      ensures cpuAttempted <==> cpuUsage > config.cpuThreshold
                                && !Suppressed(config, old(lastNotificationTime), CpuAlert, now)
      ensures memoryAttempted <==> memoryUsage > config.memoryThreshold
                                   && !Suppressed(config, old(lastNotificationTime), MemoryAlert, now)
      ensures var afterCpu := if cpuUsage > config.cpuThreshold
                              then AfterSend(config, old(lastNotificationTime), CpuAlert, now, cpuDelivered)
                              else old(lastNotificationTime);
              lastNotificationTime == if memoryUsage > config.memoryThreshold
                                      then AfterSend(config, afterCpu, MemoryAlert, now, memoryDelivered)
                                      else afterCpu
    {
      cpuAttempted, memoryAttempted := false, false;
      if cpuUsage > config.cpuThreshold {
        cpuAttempted := SendNotification(CpuAlert, now, cpuDelivered);
      }
      if memoryUsage > config.memoryThreshold {
        memoryAttempted := SendNotification(MemoryAlert, now, memoryDelivered);
      }
    }

    /** `start()`: the startup notification, which no cooldown holds back,
        then the periodic check under the timer handle `handle`. */
    method Start(now: int, delivered: bool, handle: nat)
      modifies this`lastNotificationTime, this`interval
      ensures lastNotificationTime == if delivered then old(lastNotificationTime)[Startup := now]
                                      else old(lastNotificationTime)
      ensures interval == Some(handle)
    {
      var _ := SendNotification(Startup, now, delivered);
      interval := Some(handle);
    }

    /** `stop()`: clears the running timer, if any, and forgets it; returns
        the handle passed to `clearInterval`. A second stop does nothing. */
    method Stop() returns (cleared: Option<nat>)
      modifies this`interval
      ensures cleared == old(interval)
      ensures interval == None
    {
      cleared := interval;
      if interval.Some? {
        interval := None;
      }
    }
  }
}
