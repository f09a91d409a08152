/** The back-off between automatic connections. */
module ReconnectPolicy {
  /** Which of its patterns, tried in this order, a reason matches. */
  datatype Reason = LoginRejected | Suspicious | Unavailable | Other

  datatype Policy = Policy(failures: nat, loginRejections: nat)

  const FRESH := Policy(0, 0)
  const STABLE_MS := 120000

  function Min(a: int, b: int): int {
    if a < b then a else b
  }

  function Max(a: int, b: int): int {
    if a < b then b else a
  }

  function Power(n: nat): nat {
    if n == 0 then 1 else 2 * Power(n - 1)
  }

  /** The counters after a failure. */
  function Counted(p: Policy, reason: Reason, stable: int): Policy {
    var p1 := if stable >= STABLE_MS then FRESH else p;
    Policy(p1.failures + 1, p1.loginRejections + if reason.LoginRejected? then 1 else 0)
  }

  /** The wait that the counters call for. */
  function Wait(p: Policy, reason: Reason): int
    requires reason.LoginRejected? ==> p.loginRejections >= 1
  {
    match reason
    case LoginRejected => Min(300000, 60000 * Power(Min(3, p.loginRejections - 1)))
    case Suspicious => 60000
    case Unavailable => Min(120000, 15000 * Power(Max(0, Min(3, p.failures - 2))))
    case Other => 15000
  }

  /** No wait is under 15 s or over 5 minutes, and after a login rejection it is a minute at least. */
  lemma WaitBounds(p: Policy, reason: Reason)
    requires reason.LoginRejected? ==> p.loginRejections >= 1
    ensures 15000 <= Wait(p, reason) <= 300000
    ensures reason.LoginRejected? ==> Wait(p, reason) >= 60000
    ensures !reason.LoginRejected? ==> Wait(p, reason) <= 120000
  {
    assert Power(0) == 1 && Power(1) == 2 && Power(2) == 4 && Power(3) == 8;
  }

  /** While the connection is never stable, waits for the same reason never get shorter. */
  lemma WaitsGrow(p: Policy, between: seq<Reason>, reason: Reason, stable: int)
    requires stable < STABLE_MS
    ensures Wait(Counted(p, reason, stable), reason) <=
              Wait(Counted(AfterUnstable(Counted(p, reason, stable), between), reason, stable), reason)
  {
    var p1 := Counted(p, reason, stable);
    OnlyMore(p1, between);
    assert Power(0) == 1 && Power(1) == 2 && Power(2) == 4 && Power(3) == 8;
  }

  /** The counters after failures that each followed an unstable connection. */
  function AfterUnstable(p: Policy, reasons: seq<Reason>): Policy
    decreases |reasons|
  {
    if reasons == [] then p else AfterUnstable(Counted(p, reasons[0], 0), reasons[1..])
  }

  lemma {:induction false} OnlyMore(p: Policy, reasons: seq<Reason>)
    ensures p.failures <= AfterUnstable(p, reasons).failures
    ensures p.loginRejections <= AfterUnstable(p, reasons).loginRejections
    decreases |reasons|
  {
    if reasons != [] {
      OnlyMore(Counted(p, reasons[0], 0), reasons[1..]);
    }
  }

  class Backoff {
    var failures: nat
    var loginRejections: nat

    ghost function View(): Policy
      reads this
    {
      Policy(failures, loginRejections)
    }

    constructor ()
      ensures View() == FRESH
    {
      failures, loginRejections := 0, 0;
    }

    method Reset()
      modifies this
      ensures View() == FRESH
    {
      failures, loginRejections := 0, 0;
    }

    method Delay(reason: Reason, stable: int) returns (delay: int)
      modifies this
      ensures View() == Counted(old(View()), reason, stable)
      ensures delay == Wait(View(), reason) && delay >= 15000
    {
      hide Power;
      if stable >= STABLE_MS {
        Reset();
      }
      failures := failures + 1;
      ghost var p := Counted(old(View()), reason, stable);
      WaitBounds(p, reason);
      if reason.LoginRejected? {
        loginRejections := loginRejections + 1;
        return Min(300000, 60000 * Power(Min(3, loginRejections - 1)));
      }
      if reason.Suspicious? {
        return 60000;
      }
      if reason.Unavailable? {
        return Min(120000, 15000 * Power(Max(0, Min(3, failures - 2))));
      }
      return 15000;
    }
  }
}
