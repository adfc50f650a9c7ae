/**
 * The fixed-window request counter of src/lib/rate-limit.ts as a state
 * transition. The module-level map of the source is the table passed in and
 * returned; the caller's address and the clock reading are parameters.
 */
module RateLimit {
  import opened Wrappers

  datatype Config = Config(windowMs: int, maxRequests: int)

  /** 100 requests per 15 minutes. */
  const DefaultConfig := Config(15 * 60 * 1000, 100)

  /** One caller's window: requests counted so far and the instant the window was set to end. */
  datatype Window = Window(count: int, resetTime: int)

  type Table = map<string, Window>

  /** What rateLimit returns. */
  datatype Decision = Decision(success: bool, remaining: int, resetTime: int)

  const Anonymous := "anonymous"

  /** `request.ip || 'anonymous'`: a missing or empty address shares one bucket. */
  function Identifier(ip: Option<string>): (id: string)
    ensures ip.Some? && ip.value != "" ==> id == ip.value
    ensures ip.None? || ip == Some("") ==> id == Anonymous
  {
    if ip.Some? && ip.value != "" then ip.value else Anonymous
  }

  /**
   * A window counts as over only when its resetTime lies before
   * now - windowMs. Since a window is opened with resetTime now + windowMs,
   * it stays in force for two window lengths.
   */
  predicate Expired(w: Window, now: int, cfg: Config) {
    w.resetTime < now - cfg.windowMs
  }

  /** The clean-up loop: drops exactly the expired windows and keeps the rest as they are. */
  function Evict(t: Table, now: int, cfg: Config): (r: Table)
    ensures forall k :: k in r <==> k in t && !Expired(t[k], now, cfg)
    ensures forall k :: k in r ==> r[k] == t[k]
  {
    map k | k in t && !Expired(t[k], now, cfg) :: t[k]
  }

  /**
   * One call of rateLimit for caller id at instant now. After clean-up, a
   * caller without a live window gets a new one holding this request; a
   * caller at the limit is refused and nothing is stored for it; anyone
   * else has the request counted.
   */
  function Step(t: Table, id: string, now: int, cfg: Config): (r: (Table, Decision))
    ensures var live := Evict(t, now, cfg);
      id !in live ==>
        && r.1 == Decision(true, cfg.maxRequests - 1, now + cfg.windowMs)
        && r.0 == live[id := Window(1, now + cfg.windowMs)]
    ensures var live := Evict(t, now, cfg);
      id in live && live[id].count >= cfg.maxRequests ==>
        r == (live, Decision(false, 0, live[id].resetTime))
    ensures var live := Evict(t, now, cfg);
      id in live && live[id].count < cfg.maxRequests ==>
        && r.0 == live[id := Window(live[id].count + 1, live[id].resetTime)]
        && r.1 == Decision(true, cfg.maxRequests - r.0[id].count, live[id].resetTime)
  {
    var live := Evict(t, now, cfg);
    if id !in live || Expired(live[id], now, cfg) then
      (live[id := Window(1, now + cfg.windowMs)], Decision(true, cfg.maxRequests - 1, now + cfg.windowMs))
    else
      var current := live[id];
      if current.count >= cfg.maxRequests then
        (live, Decision(false, 0, current.resetTime))
      else
        var next := current.(count := current.count + 1);
        (live[id := next], Decision(true, cfg.maxRequests - next.count, next.resetTime))
  }

  /** Every stored count lies between 1 and the limit. */
  predicate CountsInRange(t: Table, cfg: Config) {
    forall k :: k in t ==> 1 <= t[k].count <= cfg.maxRequests
  }

  /** A sequence of calls by one caller at the given instants: the final table and how many were let through. */
  function Calls(t: Table, id: string, times: seq<int>, cfg: Config): (r: (Table, nat))
    ensures r.1 <= |times|
    decreases |times|
  {
    if times == [] then (t, 0)
    else
      var (t', d) := Step(t, id, times[0], cfg);
      var (u, n) := Calls(t', id, times[1..], cfg);
      (u, n + (if d.success then 1 else 0))
  }
}
