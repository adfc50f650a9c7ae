/**
 * Properties of the request counter: the range invariant on counts, what a
 * call does to other callers' windows, and the bound on successful calls
 * within one window.
 */
module RateLimitProps {
  import opened RateLimit

  /** With a limit of at least 1, every call keeps every count within [1, limit] and reports a remaining count that is not negative. */
  lemma StepKeepsCountsInRange(t: Table, id: string, now: int, cfg: Config)
    requires cfg.maxRequests >= 1
    requires CountsInRange(t, cfg)
    ensures CountsInRange(Step(t, id, now, cfg).0, cfg)
    ensures 0 <= Step(t, id, now, cfg).1.remaining < cfg.maxRequests
  {
  }

  /** A call touches no other caller's window beyond dropping the expired ones. */
  lemma StepLeavesOthers(t: Table, id: string, now: int, cfg: Config, other: string)
    requires other != id
    ensures other in Step(t, id, now, cfg).0 <==> other in t && !Expired(t[other], now, cfg)
    ensures other in Step(t, id, now, cfg).0 ==> Step(t, id, now, cfg).0[other] == t[other]
  {
  }

  /** A refused call changes nothing for the caller: the same window stays stored. */
  lemma RefusalKeepsWindow(t: Table, id: string, now: int, cfg: Config)
    requires !Step(t, id, now, cfg).1.success
    ensures id in t && Step(t, id, now, cfg).0[id] == t[id]
    ensures Step(t, id, now, cfg).1.resetTime == t[id].resetTime
  {
  }

  /**
   * While the caller's window stays in force, the calls that succeed are at
   * most the requests the window has left, and the window keeps its reset
   * time.
   */
  lemma {:induction false} LiveWindowBound(t: Table, id: string, times: seq<int>, cfg: Config)
    requires id in t && 1 <= t[id].count <= cfg.maxRequests
    requires forall i :: 0 <= i < |times| ==> !Expired(t[id], times[i], cfg)
    ensures Calls(t, id, times, cfg).1 <= cfg.maxRequests - t[id].count
    ensures id in Calls(t, id, times, cfg).0
    ensures Calls(t, id, times, cfg).0[id].resetTime == t[id].resetTime
    ensures t[id].count <= Calls(t, id, times, cfg).0[id].count <= cfg.maxRequests
  {
    if times != [] {
      var (t', d) := Step(t, id, times[0], cfg);
      assert t'[id].resetTime == t[id].resetTime;
      assert forall i :: 0 <= i < |times[1..]| ==> !Expired(t'[id], times[1..][i], cfg) by {
        forall i | 0 <= i < |times[1..]| ensures !Expired(t'[id], times[1..][i], cfg) {
          assert times[1..][i] == times[i + 1];
        }
      }
      LiveWindowBound(t', id, times[1..], cfg);
    }
  }

  /**
   * Within one window a caller gets at most maxRequests successful calls:
   * from the call that opens the window, through calls at non-decreasing
   * instants up to the last one at which the window is still in force.
   */
  lemma AtMostLimitPerWindow(t: Table, id: string, times: seq<int>, cfg: Config)
    requires cfg.maxRequests >= 1
    requires |times| >= 1
    requires id !in Evict(t, times[0], cfg)
    requires forall i, j :: 0 <= i < j < |times| ==> times[i] <= times[j]
    requires !Expired(Window(1, times[0] + cfg.windowMs), times[|times| - 1], cfg)
    ensures Calls(t, id, times, cfg).1 <= cfg.maxRequests
  {
    var (t', d) := Step(t, id, times[0], cfg);
    forall i | 0 <= i < |times[1..]| ensures !Expired(t'[id], times[1..][i], cfg) {
      assert times[1..][i] == times[i + 1];
    }
    LiveWindowBound(t', id, times[1..], cfg);
  }
}
