/** The reconnect supervisor `MinecraftClient`: one controller at a time, and always a
    reason why there is none.

    User calls, timers, and the events of controllers, stale ones included, arrive in any
    order. A timer may fire at any time from its due time on. */
module Supervisor {
  import opened Wrappers
  import opened ReconnectPolicy

  datatype Status = Offline | Connecting | Reconnecting | Online | Error

  /** A timer for a reconnection, and the failure it answers. */
  datatype Reconnect = Reconnect(due: nat, failedAt: nat)

  /** `always` timers end the connection whatever the status is; all give their reason. */
  datatype Hang = Hang(due: nat, always: bool, reason: Reason)

  /** Controllers are numbered; `live` is the current one and `spawned` how many there were. */
  datatype State = State(autoReconnect: bool, status: Status, live: Option<nat>, spawned: nat,
                         reconnect: Option<Reconnect>, restart: Option<nat>, hang: Option<Hang>, watchdog: bool,
                         heartbeat: nat, controlLost: Option<nat>, manuallyStopped: bool, connectionEnded: bool,
                         since: Option<nat>, policy: Policy)

  /** What a controller reports. */
  datatype Report = MsaCode(expiresIn: nat) | Profile | Spawn | Heartbeat | ControlLost | ControlBack
                  | Ends(reason: Reason) | Noise

  /** `made` says how making a controller ends: with one, or with a reason. */
  datatype Event =
    | Connect(made: Option<Reason>, now: nat)
    | Disconnect(now: nat)
    | Restart(now: nat)
    | Configure(autoReconnect: bool, now: nat)
    | ReconnectFires(made: Option<Reason>, now: nat)
    | RestartFires(made: Option<Reason>, now: nat)
    | HangFires(now: nat)
    | WatchdogTicks(now: nat)
    | Reports(controller: nat, report: Report, now: nat)
    | Breaks(controller: nat, reason: Reason, now: nat)
    | Closes(controller: nat, reason: Reason, now: nat)

  const RESTART_MS := 5000
  const HANG_MS := 300000
  const WORLD_ENTRY_MS := 90000
  const SILENCE_MS := 45000
  const OUTAGE_LEASE_MS := 15000

  function Initial(autoReconnect: bool): State {
    State(autoReconnect, Offline, None, 0, None, None, None, false, 0, None, false, false, None, FRESH)
  }

  // ----- what the supervisor does -----

  function TornDown(s: State): State {
    s.(watchdog := false, live := None, since := None)
  }

  function Failed(s: State, reason: Reason, now: nat): State {
    if s.connectionEnded then s
    else
      var stable := if s.since.Some? then now - s.since.value else 0;
      var s1 := TornDown(s).(connectionEnded := true, hang := None);
      if s.manuallyStopped then s1.(status := Offline)
      else if !s.autoReconnect then s1.(status := Error)
      else
        var policy := Counted(s.policy, reason, stable);
        s1.(status := Reconnecting, policy := policy, reconnect := Some(Reconnect(now + DelayFor(policy, reason), now)))
  }

  /** The delay as a natural number of milliseconds. */
  function DelayFor(p: Policy, reason: Reason): (ms: nat)
    requires reason.LoginRejected? ==> p.loginRejections >= 1
    ensures ms == Wait(p, reason) && ms >= 15000
  {
    WaitBounds(p, reason);
    Wait(p, reason)
  }

  function Attempted(s: State, status: Status, made: Option<Reason>, now: nat): State {
    var s1 := s.(connectionEnded := false, controlLost := None, status := status);
    if made.Some? then Failed(s1, made.value, now)
    else
      s1.(live := Some(s.spawned), spawned := s.spawned + 1, heartbeat := now, watchdog := true,
          hang := Some(Hang(now + HANG_MS, false, Other)))
  }

  function Connected(s: State, made: Option<Reason>, now: nat): State {
    if (s.status != Offline && s.status != Error) || s.restart.Some? then s
    else Attempted(s.(manuallyStopped := false, policy := FRESH, reconnect := None), Connecting, made, now)
  }

  function Disconnected(s: State): State {
    TornDown(s).(manuallyStopped := true, restart := None, reconnect := None, hang := None, status := Offline)
  }

  function Restarted(s: State, now: nat): State {
    TornDown(s).(manuallyStopped := false, policy := FRESH, reconnect := None, hang := None, status := Offline,
                 restart := Some(now + RESTART_MS))
  }

  function HangFired(s: State, now: nat): State {
    if s.hang.None? || now < s.hang.value.due then s
    else if s.hang.value.always || s.status == Connecting || s.status == Reconnecting then
      Failed(s.(hang := None), s.hang.value.reason, now)
    else s.(hang := None)
  }

  function Ticked(s: State, now: nat): State {
    if !s.watchdog || s.status != Online then s
    else if s.controlLost.Some? && now - s.controlLost.value < OUTAGE_LEASE_MS then s
    else if now - s.heartbeat > SILENCE_MS then Failed(s, Other, now)
    else s
  }

  function Reported(s: State, r: Report, now: nat): State {
    match r
    case MsaCode(expiresIn) => s.(hang := Some(Hang(now + Min(expiresIn, 900) * 1000 + 15000, true, Other)))
    case Profile => s.(hang := Some(Hang(now + WORLD_ENTRY_MS, true, Unavailable)))
    case Spawn => s.(hang := None, controlLost := None, heartbeat := now, since := Some(now), status := Online)
    case Heartbeat => s.(controlLost := None, heartbeat := now)
    case ControlLost => s.(controlLost := Some(now))
    case ControlBack => if s.controlLost.Some? then s.(controlLost := None, heartbeat := now) else s
    case Ends(reason) => Failed(s, reason, now)
    case Noise => s
  }

  function Step(s: State, e: Event): State {
    match e
    case Connect(made, now) => Connected(s, made, now)
    case Disconnect(_) => Disconnected(s)
    case Restart(now) => Restarted(s, now)
    case Configure(autoReconnect, _) => s.(autoReconnect := autoReconnect)
    case ReconnectFires(made, now) =>
      if s.reconnect.None? || now < s.reconnect.value.due then s
      else Attempted(s.(reconnect := None), Reconnecting, made, now)
    case RestartFires(made, now) =>
      if s.restart.None? || now < s.restart.value then s
      else if s.manuallyStopped then s.(restart := None)
      else Attempted(s.(restart := None), Connecting, made, now)
    case HangFires(now) => HangFired(s, now)
    case WatchdogTicks(now) => Ticked(s, now)
    case Reports(controller, report, now) => if s.live == Some(controller) then Reported(s, report, now) else s
    case Breaks(controller, reason, now) => if s.live == Some(controller) then Failed(s, reason, now) else s
    case Closes(controller, reason, now) =>
      if s.live != Some(controller) then s
      else if s.manuallyStopped then TornDown(s)
      else Failed(s, reason, now)
  }

  // ----- the invariant -----

  function Count(b: bool): nat {
    if b then 1 else 0
  }

  predicate AtMostOne(s: State) {
    Count(s.live.Some?) + Count(s.reconnect.Some?) + Count(s.restart.Some?) <= 1
  }

  /** The status tells what there is, and never waits for nothing. */
  predicate StatusInv(s: State) {
    match s.status
    case Offline => s.live.None? && s.reconnect.None?
    case Error => s.live.None? && s.reconnect.None? && s.restart.None?
    case Connecting => s.live.Some?
    case Online => s.live.Some?
    case Reconnecting => s.live.Some? || s.reconnect.Some?
  }

  predicate Inv(s: State) {
    && AtMostOne(s) && StatusInv(s)
    && (s.hang.Some? ==> s.live.Some?) && (s.watchdog <==> s.live.Some?)
    && (s.live.Some? ==> !s.connectionEnded && s.live.value < s.spawned)
    && (s.manuallyStopped ==> s.live.None? && s.reconnect.None? && s.restart.None?)
    && (s.reconnect.Some? ==> s.reconnect.value.due >= s.reconnect.value.failedAt + 15000)
    && (s.status == Online ==> s.since.Some?)
  }

  lemma FailedKeeps(s: State, reason: Reason, now: nat)
    requires s.reconnect.None? && s.restart.None? && (s.manuallyStopped ==> s.live.None?)
    requires !s.connectionEnded
    ensures Inv(Failed(s, reason, now)) && Failed(s, reason, now).live.None?
    ensures Failed(s, reason, now).spawned == s.spawned && Failed(s, reason, now).manuallyStopped == s.manuallyStopped
    ensures Failed(s, reason, now).reconnect.Some? ==> Failed(s, reason, now).reconnect.value.failedAt == now
  {
    hide DelayFor;
  }

  lemma AttemptedKeeps(s: State, status: Status, made: Option<Reason>, now: nat)
    requires s.reconnect.None? && s.restart.None? && s.live.None? && !s.manuallyStopped
    requires status == Connecting || status == Reconnecting
    ensures Inv(Attempted(s, status, made, now))
    ensures Attempted(s, status, made, now).spawned == s.spawned + Count(made.None?)
    ensures !Attempted(s, status, made, now).manuallyStopped
    ensures Attempted(s, status, made, now).reconnect.Some? ==>
              Attempted(s, status, made, now).reconnect.value.failedAt == now
  {
    hide Failed;
    if made.Some? {
      FailedKeeps(s.(connectionEnded := false, controlLost := None, status := status), made.value, now);
    }
  }

  /** Whatever happens, a reconnection set up is for a failure that happens now. */
  predicate Answers(s: State, e: Event, t: State) {
    t.reconnect.Some? && t.reconnect != s.reconnect ==>
      t.reconnect.value.failedAt == e.now && (s.reconnect.None? || e.ReconnectFires?)
  }

  predicate SpawnsOnly(s: State, e: Event, t: State) {
    && s.spawned <= t.spawned <= s.spawned + 1
    && (t.spawned > s.spawned ==> (e.Connect? || e.RestartFires? || e.ReconnectFires?) && !t.manuallyStopped)
    && (s.manuallyStopped && !e.Connect? && !e.Restart? ==> t.manuallyStopped)
  }

  lemma CallsKeep(s: State, e: Event)
    requires Inv(s) && (e.Connect? || e.Disconnect? || e.Restart? || e.Configure?)
    ensures Inv(Step(s, e)) && SpawnsOnly(s, e, Step(s, e))
    ensures Answers(s, e, Step(s, e))
  {
    hide Attempted, Failed;
    if e.Connect? && Connected(s, e.made, e.now) != s {
      AttemptedKeeps(s.(manuallyStopped := false, policy := FRESH, reconnect := None), Connecting, e.made, e.now);
    }
  }

  lemma TimersKeep(s: State, e: Event)
    requires Inv(s) && (e.ReconnectFires? || e.RestartFires? || e.HangFires? || e.WatchdogTicks?)
    ensures Inv(Step(s, e)) && SpawnsOnly(s, e, Step(s, e)) && Answers(s, e, Step(s, e))
  {
    hide Attempted, Failed;
    match e
    case ReconnectFires(made, now) =>
      if s.reconnect.Some? && now >= s.reconnect.value.due {
        AttemptedKeeps(s.(reconnect := None), Reconnecting, made, now);
      }
    case RestartFires(made, now) =>
      if s.restart.Some? && now >= s.restart.value && !s.manuallyStopped {
        AttemptedKeeps(s.(restart := None), Connecting, made, now);
      }
    case HangFires(now) =>
      if s.hang.Some? {
        FailedKeeps(s.(hang := None), s.hang.value.reason, now);
      }
    case WatchdogTicks(now) =>
      if s.watchdog {
        FailedKeeps(s, Other, now);
      }
  }

  lemma ControllerKeeps(s: State, e: Event)
    requires Inv(s) && (e.Reports? || e.Breaks? || e.Closes?)
    ensures Inv(Step(s, e)) && SpawnsOnly(s, e, Step(s, e)) && Answers(s, e, Step(s, e))
  {
    hide Failed;
    if s.live == Some(e.controller) {
      FailedKeeps(s, if e.Reports? then (if e.report.Ends? then e.report.reason else Other) else e.reason, e.now);
    }
  }

  lemma StepKeeps(s: State, e: Event)
    requires Inv(s)
    ensures Inv(Step(s, e)) && SpawnsOnly(s, e, Step(s, e)) && Answers(s, e, Step(s, e))
  {
    hide Inv, SpawnsOnly, Answers, Step;
    if e.Connect? || e.Disconnect? || e.Restart? || e.Configure? {
      CallsKeep(s, e);
    } else if e.Reports? || e.Breaks? || e.Closes? {
      ControllerKeeps(s, e);
    } else {
      TimersKeep(s, e);
    }
  }

  // ----- whole runs -----

  function At(auto: bool, events: seq<Event>, n: nat): State
    requires n <= |events|
  {
    if n == 0 then Initial(auto) else Step(At(auto, events, n - 1), events[n - 1])
  }

  lemma {:induction false} RunKeeps(auto: bool, events: seq<Event>, n: nat)
    requires n <= |events|
    ensures Inv(At(auto, events, n))
  {
    hide Inv, Step;
    if n > 0 {
      RunKeeps(auto, events, n - 1);
      StepKeeps(At(auto, events, n - 1), events[n - 1]);
    } else {
      StartsWell(auto);
    }
  }

  lemma StartsWell(auto: bool)
    ensures Inv(Initial(auto))
  {
  }

  lemma RunStep(auto: bool, events: seq<Event>, n: nat)
    requires n < |events|
    ensures At(auto, events, n + 1) == Step(At(auto, events, n), events[n])
    ensures SpawnsOnly(At(auto, events, n), events[n], At(auto, events, n + 1))
    ensures Answers(At(auto, events, n), events[n], At(auto, events, n + 1))
  {
    hide Step, SpawnsOnly, Answers, Inv;
    RunKeeps(auto, events, n);
    StepKeeps(At(auto, events, n), events[n]);
  }

  /** In every interleaving there is at most one of a live controller, a reconnect timer and
      a restart timer; the hang timer and the watchdog run only for a live controller; and the
      status is never one that waits for nothing. */
  lemma OneReasonAtATime(auto: bool, events: seq<Event>, n: nat)
    requires n <= |events|
    ensures var s := At(auto, events, n);
            && AtMostOne(s) && StatusInv(s)
            && (s.hang.Some? ==> s.live.Some?) && (s.watchdog <==> s.live.Some?)
            && (s.manuallyStopped ==> s.live.None? && s.reconnect.None? && s.restart.None?)
  {
    hide At, AtMostOne, StatusInv;
    RunKeeps(auto, events, n);
  }

  /** After a manual disconnect nothing is spawned until the user connects or restarts. */
  lemma {:induction false} QuietAfterDisconnect(auto: bool, events: seq<Event>, m: nat, n: nat)
    requires m < n <= |events| && events[m].Disconnect?
    requires forall k :: m < k < n ==> !events[k].Connect? && !events[k].Restart?
    ensures At(auto, events, n).manuallyStopped && At(auto, events, n).live.None?
    ensures At(auto, events, n).spawned == At(auto, events, m).spawned
    decreases n
  {
    hide At, Step, Answers, AtMostOne, StatusInv;
    RunStep(auto, events, n - 1);
    RunKeeps(auto, events, n);
    if m < n - 1 {
      QuietAfterDisconnect(auto, events, m, n - 1);
    } else {
      DisconnectStops(At(auto, events, m), events[m]);
    }
  }

  lemma DisconnectStops(s: State, e: Event)
    requires e.Disconnect?
    ensures Step(s, e).manuallyStopped && Step(s, e).spawned == s.spawned
  {
  }

  /** The failure a reconnect timer answers: the event that set it. */
  lemma {:induction false} ReconnectHasFailure(auto: bool, events: seq<Event>, n: nat) returns (k: nat)
    requires n <= |events| && At(auto, events, n).reconnect.Some?
    ensures k < n && events[k].now == At(auto, events, n).reconnect.value.failedAt
    ensures At(auto, events, k).reconnect != At(auto, events, k + 1).reconnect == At(auto, events, n).reconnect
    ensures At(auto, events, k + 1).spawned == At(auto, events, n).spawned
  {
    hide At, Step, AtMostOne, StatusInv, SpawnsOnly;
    assert n > 0 by { NothingAtFirst(auto, events); }
    RunStep(auto, events, n - 1);
    var s, t := At(auto, events, n - 1), At(auto, events, n);
    if t.reconnect != s.reconnect {
      k := n - 1;
    } else {
      k := ReconnectHasFailure(auto, events, n - 1);
      RunKeeps(auto, events, n - 1);
      WaitingSpawnsNothing(s, events[n - 1]);
    }
  }

  lemma NothingAtFirst(auto: bool, events: seq<Event>)
    ensures At(auto, events, 0).reconnect.None?
  {
  }

  lemma WaitingSpawnsNothing(s: State, e: Event)
    requires Inv(s) && s.reconnect.Some? && Step(s, e).reconnect == s.reconnect
    ensures Step(s, e).spawned == s.spawned
  {
    hide DelayFor;
  }

  /** Every automatic respawn comes at least 15 s after the failure it answers, and nothing
      was spawned between the two. */
  lemma RespawnWaits(auto: bool, events: seq<Event>, n: nat) returns (k: nat)
    requires n < |events| && events[n].ReconnectFires? && At(auto, events, n + 1).spawned > At(auto, events, n).spawned
    ensures k < n && events[n].now >= events[k].now + 15000
    ensures At(auto, events, k).reconnect != At(auto, events, k + 1).reconnect == At(auto, events, n).reconnect
    ensures At(auto, events, k + 1).spawned == At(auto, events, n).spawned
  {
    hide At, AtMostOne, StatusInv, SpawnsOnly, Attempted;
    RunStep(auto, events, n);
    RunKeeps(auto, events, n);
    k := ReconnectHasFailure(auto, events, n);
  }

  /** A controller that is not the current one reports, breaks or closes. */
  predicate Stale(s: State, e: Event) {
    (e.Reports? || e.Breaks? || e.Closes?) && s.live != Some(e.controller)
  }

  /** The first `n` events of a run without those of superseded controllers. */
  function Current(auto: bool, events: seq<Event>, n: nat): seq<Event>
    requires n <= |events|
  {
    if n == 0 then []
    else Current(auto, events, n - 1) + if Stale(At(auto, events, n - 1), events[n - 1]) then [] else [events[n - 1]]
  }

  /** Whatever superseded controllers report, and whenever they end, the run goes as without it. */
  lemma {:induction false} StaleIsIgnored(auto: bool, events: seq<Event>, n: nat)
    requires n <= |events|
    ensures var current := Current(auto, events, n); At(auto, events, n) == At(auto, current, |current|)
  {
    hide Step, Stale;
    if n > 0 {
      StaleIsIgnored(auto, events, n - 1);
      StaleChangesNothing(At(auto, events, n - 1), events[n - 1]);
      var before := Current(auto, events, n - 1);
      assert before + [] == before;
      OneMore(auto, before, events[n - 1]);
    }
  }

  lemma StaleChangesNothing(s: State, e: Event)
    ensures Stale(s, e) ==> Step(s, e) == s
  {
  }

  /** A controller that is no longer the current one never is again. */
  lemma {:induction false} SupersededForGood(auto: bool, events: seq<Event>, m: nat, n: nat, controller: nat)
    requires m <= n <= |events| && controller < At(auto, events, m).spawned
    requires At(auto, events, m).live != Some(controller)
    ensures controller < At(auto, events, n).spawned && At(auto, events, n).live != Some(controller)
    decreases n
  {
    hide Step, At;
    if m < n {
      SupersededForGood(auto, events, m, n - 1, controller);
      RunStep(auto, events, n - 1);
      LiveIsNewest(At(auto, events, n - 1), events[n - 1]);
    }
  }

  lemma LiveIsNewest(s: State, e: Event)
    ensures var t := Step(s, e); t.live.Some? ==> t.live == s.live || t.live == Some(s.spawned)
  {
    hide DelayFor;
  }

  lemma OneMore(auto: bool, events: seq<Event>, e: Event)
    ensures At(auto, events + [e], |events| + 1) == Step(At(auto, events, |events|), e)
  {
    hide Step;
    SamePrefix(auto, events, e, |events|);
  }

  lemma {:induction false} SamePrefix(auto: bool, events: seq<Event>, e: Event, n: nat)
    requires n <= |events|
    ensures At(auto, events + [e], n) == At(auto, events, n)
  {
    hide Step;
    if n > 0 {
      SamePrefix(auto, events, e, n - 1);
    }
  }

  /** A bot that is online but silent for 45 s is recycled by the next watchdog tick, except
      while the control service is known to be lost. */
  lemma SilenceEnds(auto: bool, events: seq<Event>, n: nat)
    requires n < |events| && events[n].WatchdogTicks? && At(auto, events, n).status == Online
    ensures var s, now := At(auto, events, n), events[n].now;
            At(auto, events, n + 1).live.None? <==>
              now - s.heartbeat > SILENCE_MS && (s.controlLost.None? || now - s.controlLost.value >= OUTAGE_LEASE_MS)
  {
    hide At, AtMostOne, SpawnsOnly, Answers, DelayFor;
    RunStep(auto, events, n);
    RunKeeps(auto, events, n);
  }

  // ----- the supervisor itself -----

  class MinecraftClient {
    const reconnectPolicy: Backoff
    var autoReconnect: bool
    var status: Status
    var live: Option<nat>
    var spawned: nat
    var reconnectTimer: Option<Reconnect>
    var restartTimer: Option<nat>
    var hangTimer: Option<Hang>
    var onlineWatchdog: bool
    var lastHeartbeatAt: nat
    var lastControlFailureAt: Option<nat>
    var manuallyStopped: bool
    var connectionEnded: bool
    var connectedSince: Option<nat>
    ghost const initial: bool
    ghost var events: seq<Event>

    ghost function View(): State
      reads this, reconnectPolicy
    {
      State(autoReconnect, status, live, spawned, reconnectTimer, restartTimer, hangTimer, onlineWatchdog,
            lastHeartbeatAt,
            lastControlFailureAt, manuallyStopped, connectionEnded, connectedSince, reconnectPolicy.View())
    }

    ghost predicate Valid()
      reads this, reconnectPolicy
    {
      View() == At(initial, events, |events|)
    }

    /** One controller, or one timer for the next one, or a rest; and a status that says so. */
    ghost predicate HasOneReason()
      reads this, reconnectPolicy
    {
      && Count(live.Some?) + Count(reconnectTimer.Some?) + Count(restartTimer.Some?) <= 1
      && (hangTimer.Some? ==> live.Some?) && (onlineWatchdog <==> live.Some?)
      && (manuallyStopped ==> live.None? && reconnectTimer.None? && restartTimer.None?)
      && StatusInv(View())
    }

    /** What holds of the object whenever it rests. */
    lemma ValidIsSafe()
      requires Valid()
      ensures HasOneReason()
    {
      hide At, StatusInv;
      OneReasonAtATime(initial, events, |events|);
    }

    constructor (autoReconnect: bool)
      ensures Valid() && events == [] && initial == autoReconnect && fresh(reconnectPolicy)
    {
      this.autoReconnect, status, live, spawned := autoReconnect, Offline, None, 0;
      reconnectTimer, restartTimer, hangTimer, onlineWatchdog := None, None, None, false;
      lastHeartbeatAt, lastControlFailureAt, manuallyStopped, connectionEnded := 0, None, false, false;
      connectedSince, initial, events := None, autoReconnect, [];
      reconnectPolicy := new Backoff();
    }

    method TeardownSubprocess()
      modifies this`onlineWatchdog, this`live, this`connectedSince
      ensures View() == TornDown(old(View()))
    {
      onlineWatchdog := false;
      live := None;
      connectedSince := None;
    }

    method HandleConnectionFailure(reason: Reason, now: nat)
      modifies this, reconnectPolicy
      ensures View() == Failed(old(View()), reason, now) && events == old(events)
    {
      hide Counted, Wait;
      if connectionEnded {
        return;
      }
      connectionEnded := true;
      var stable := if connectedSince.Some? then now - connectedSince.value else 0;
      hangTimer := None;
      TeardownSubprocess();
      if manuallyStopped {
        status := Offline;
        return;
      }
      if !autoReconnect {
        status := Error;
        return;
      }
      var delay := reconnectPolicy.Delay(reason, stable);
      status := Reconnecting;
      reconnectTimer := Some(Reconnect(now + delay, now));
    }

    method AttemptConnect(reconnecting: bool, made: Option<Reason>, now: nat)
      modifies this, reconnectPolicy
      ensures View() == Attempted(old(View()), if reconnecting then Reconnecting else Connecting, made, now)
      ensures events == old(events)
    {
      hide Failed;
      connectionEnded := false;
      lastControlFailureAt := None;
      status := if reconnecting then Reconnecting else Connecting;
      if made.Some? {
        HandleConnectionFailure(made.value, now);
        return;
      }
      live := Some(spawned);
      spawned := spawned + 1;
      lastHeartbeatAt := now;
      onlineWatchdog := true;
      hangTimer := Some(Hang(now + HANG_MS, false, Other));
    }

    method Connect(made: Option<Reason>, now: nat)
      modifies this, reconnectPolicy
      ensures View() == Connected(old(View()), made, now) && events == old(events)
    {
      hide Attempted;
      if (status != Offline && status != Error) || restartTimer.Some? {
        return;
      }
      manuallyStopped := false;
      reconnectPolicy.Reset();
      reconnectTimer := None;
      AttemptConnect(false, made, now);
    }

    method Disconnect()
      modifies this
      ensures View() == Disconnected(old(View())) && events == old(events)
    {
      manuallyStopped := true;
      restartTimer := None;
      reconnectTimer := None;
      hangTimer := None;
      TeardownSubprocess();
      status := Offline;
    }

    method Restart(now: nat)
      modifies this, reconnectPolicy
      ensures View() == Restarted(old(View()), now) && events == old(events)
    {
      manuallyStopped := false;
      reconnectPolicy.Reset();
      reconnectTimer := None;
      hangTimer := None;
      TeardownSubprocess();
      status := Offline;
      restartTimer := Some(now + RESTART_MS);
    }

    method TimerFires(e: Event)
      requires e.ReconnectFires? || e.RestartFires? || e.HangFires? || e.WatchdogTicks?
      modifies this, reconnectPolicy
      ensures View() == Step(old(View()), e) && events == old(events)
    {
      hide Attempted, Failed;
      match e
      case ReconnectFires(made, now) =>
        if reconnectTimer.Some? && now >= reconnectTimer.value.due {
          reconnectTimer := None;
          AttemptConnect(true, made, now);
        }
      case RestartFires(made, now) =>
        if restartTimer.Some? && now >= restartTimer.value {
          restartTimer := None;
          if !manuallyStopped {
            AttemptConnect(false, made, now);
          }
        }
      case HangFires(now) =>
        if hangTimer.Some? && now >= hangTimer.value.due {
          var timer := hangTimer.value;
          hangTimer := None;
          if timer.always || status == Connecting || status == Reconnecting {
            HandleConnectionFailure(timer.reason, now);
          }
        }
      case WatchdogTicks(now) =>
        if onlineWatchdog && status == Online
           && !(lastControlFailureAt.Some? && now - lastControlFailureAt.value < OUTAGE_LEASE_MS)
           && now - lastHeartbeatAt > SILENCE_MS {
          HandleConnectionFailure(Other, now);
        }
    }

    method HandleBotEvent(report: Report, now: nat)
      modifies this, reconnectPolicy
      ensures View() == Reported(old(View()), report, now) && events == old(events)
    {
      hide Failed;
      match report
      case MsaCode(expiresIn) => hangTimer := Some(Hang(now + Min(expiresIn, 900) * 1000 + 15000, true, Other));
      case Profile => hangTimer := Some(Hang(now + WORLD_ENTRY_MS, true, Unavailable));
      case Spawn =>
        hangTimer := None;
        lastControlFailureAt := None;
        lastHeartbeatAt := now;
        connectedSince := Some(now);
        status := Online;
      case Heartbeat =>
        lastControlFailureAt := None;
        lastHeartbeatAt := now;
      case ControlLost => lastControlFailureAt := Some(now);
      case ControlBack =>
        if lastControlFailureAt.Some? {
          lastControlFailureAt := None;
          lastHeartbeatAt := now;
        }
      case Ends(reason) => HandleConnectionFailure(reason, now);
      case Noise =>
    }

    method ControllerEvent(e: Event)
      requires e.Reports? || e.Breaks? || e.Closes?
      modifies this, reconnectPolicy
      ensures View() == Step(old(View()), e) && events == old(events)
    {
      hide Failed, Reported;
      if live != Some(e.controller) {
        return;
      }
      match e
      case Reports(_, report, now) => HandleBotEvent(report, now);
      case Breaks(_, reason, now) => HandleConnectionFailure(reason, now);
      case Closes(_, reason, now) =>
        if manuallyStopped {
          TeardownSubprocess();
        } else {
          HandleConnectionFailure(reason, now);
        }
    }

    method Handle(e: Event)
      requires Valid()
      modifies this, reconnectPolicy
      ensures Valid() && events == old(events) + [e] && HasOneReason()
      ensures old(Stale(View(), e)) ==> View() == old(View())
      ensures old(spawned) <= spawned <= old(spawned) + 1
      ensures spawned > old(spawned) ==> (e.Connect? || e.RestartFires? || e.ReconnectFires?) && !manuallyStopped
      ensures spawned > old(spawned) && e.ReconnectFires? ==>
                old(reconnectTimer).Some? && e.now >= old(reconnectTimer).value.failedAt + 15000
    {
      hide At, Connected, Disconnected, Restarted, HasOneReason, Step, Stale;
      OneMore(initial, events, e);
      RunKeeps(initial, events, |events|);
      StepIsSafe(View(), e);
      StepIs(View(), e);
      if e.Reports? || e.Breaks? || e.Closes? {
        ControllerEvent(e);
      } else if e.Connect? {
        Connect(e.made, e.now);
      } else if e.Disconnect? {
        Disconnect();
      } else if e.Restart? {
        Restart(e.now);
      } else if e.Configure? {
        autoReconnect := e.autoReconnect;
      } else {
        TimerFires(e);
      }
      events := events + [e];
      ValidIsSafe();
    }
  }

  lemma StepIsSafe(s: State, e: Event)
    requires Inv(s)
    ensures Stale(s, e) ==> Step(s, e) == s
    ensures s.spawned <= Step(s, e).spawned <= s.spawned + 1
    ensures Step(s, e).spawned > s.spawned ==>
              (e.Connect? || e.RestartFires? || e.ReconnectFires?) && !Step(s, e).manuallyStopped
    ensures Step(s, e).spawned > s.spawned && e.ReconnectFires? ==>
              s.reconnect.Some? && e.now >= s.reconnect.value.failedAt + 15000
  {
    hide Attempted, AtMostOne, StatusInv;
    StaleChangesNothing(s, e);
    StepKeeps(s, e);
  }

  lemma StepIs(s: State, e: Event)
    ensures e.Connect? ==> Step(s, e) == Connected(s, e.made, e.now)
    ensures e.Disconnect? ==> Step(s, e) == Disconnected(s)
    ensures e.Restart? ==> Step(s, e) == Restarted(s, e.now)
    ensures e.Configure? ==> Step(s, e) == s.(autoReconnect := e.autoReconnect)
  {
    hide Connected, Disconnected, Restarted;
  }
}
