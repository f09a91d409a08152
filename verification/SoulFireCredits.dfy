/** The command credits of the scheduler: three at most, one more every 1500 ms, one less
    for every command or way home that was sent. */
module SoulFireCredits {
  import opened Wrappers
  import opened SoulFire
  import opened SoulFireOwnership

  /** The time of the tick a step belongs to, once it has one. */
  function TickTime(pc: Pc): Option<nat> {
    match pc
    case Entering(now) => Some(now)
    case Sneaking(now) => Some(now)
    case _ => Admitted(pc)
  }

  /** The time at which the tick found a credit for what it is now doing. */
  function Admitted(pc: Pc): Option<nat> {
    match pc
    case Suspending(_, now) => Some(now)
    case CommandFetch(_, _, now) => Some(now)
    case CommandClose(_, _, _, now) => Some(now)
    case HomeOff(_, now) => Some(now)
    case CommandChat(now) => Some(now)
    case MultiplierChat(_, _, now) => Some(now)
    case SpawnerOpen(_, _, now) => Some(now)
    case HomeChat(now) => Some(now)
    case _ => None
  }

  /** A chat line of a command or of the way home has been sent. */
  predicate Sends(s: State, e: Event) {
    e.OnResume? && e.outcome.Done? && (s.pc.CommandChat? || s.pc.MultiplierChat? || s.pc.HomeChat?)
  }

  /** `epoch` is the credit clock at that moment. */
  datatype Sent = Sent(admitted: nat, epoch: nat, completed: nat)

  function Log(g: Gateway, cfg: Config, events: seq<Event>, n: nat): seq<Sent>
    requires n <= |events|
  {
    if n == 0 then []
    else
      var s, e := At(g, cfg, events, n - 1), events[n - 1];
      Log(g, cfg, events, n - 1) + if Sends(s, e) then [Sent(s.pc.now, s.credit.at, e.now)] else []
  }

  /** The last time read from the clock before event `n`. */
  function Clock(events: seq<Event>, n: nat): nat
    requires n <= |events|
  {
    if n == 0 then 0
    else
      var e := events[n - 1];
      if e.OnJoining? || e.OnConfigure? then Clock(events, n - 1) else e.now
  }

  ghost predicate InOrder(events: seq<Event>) {
    forall n :: 0 <= n < |events| ==> Clock(events, n) <= Clock(events, n + 1)
  }

  // ----- one step -----

  /** Apart from admissions and dispatches a step leaves the credits and admits nothing. */
  predicate Unmoved(s: State, e: Event, t: State) {
    && t.credit == s.credit
    && (Admitted(t.pc).None? || Admitted(t.pc) == Admitted(s.pc))
    && (TickTime(t.pc).None? || TickTime(t.pc) == TickTime(s.pc) || (e.OnTick? && t.pc == Entering(e.now)))
  }

  lemma ResumeUnmoved(s: State, o: Outcome, now: nat)
    requires !s.pc.Sneaking? && !Sends(s, OnResume(o, now))
    ensures Unmoved(s, OnResume(o, now), Resume(s, o, now))
  {
    hide ResumeCommand, ResumeTurn, ResumeMenu;
    if CommandPc(s.pc) {
      CommandUnmoved(s, o, now);
    } else if TurnPc(s.pc) {
      TurnUnmoved(s, o, now);
    } else if !SayPc(s.pc) {
      MenuUnmoved(s, o, now);
    }
  }

  lemma CommandUnmoved(s: State, o: Outcome, now: nat)
    requires CommandPc(s.pc) && !Sends(s, OnResume(o, now))
    ensures Unmoved(s, OnResume(o, now), ResumeCommand(s, o, now))
  {
    hide RunCommand, StartForeground;
    match s.pc
    case CommandFetch(command, generation, at) =>
      RunCommandUnmoved(s, command, generation, if o.Read? then o.inventory.menu else "", at, now);
    case CommandClose(command, generation, menu, at) => RunCommandUnmoved(s, command, generation, menu, at, now);
    case SpawnerOpen(_, menu, _) => StartUnmoved(s, Spawner, menu, now);
    case _ =>
  }

  lemma TurnUnmoved(s: State, o: Outcome, now: nat)
    requires TurnPc(s.pc) && !s.pc.Sneaking?
    ensures var t := ResumeTurn(s, o, now); t.credit == s.credit && TickTime(t.pc).None?
  {
    hide SellRead, SaleAsked, SaleClicked, ForegroundRead, SpawnerClicked;
    if o.Read? && s.pc.SellFetch? {
      SellReadUnmoved(s, s.pc.generation, o.inventory, now);
    } else if o.Read? && s.pc.ForegroundFetch? {
      ForegroundReadUnmoved(s, s.pc.id, o.inventory, now);
    } else if s.pc.SellChat? {
      SaleAskedUnmoved(s, s.pc.id, s.pc.generation, s.pc.fetched, o, now);
    } else if s.pc.SpawnerClick? {
      SpawnerClickedUnmoved(s, s.pc.id, o, now);
    } else if s.pc.SellClick? || s.pc.SellClickAll? {
      SaleClickedUnmoved(s, s.pc.id, o, now);
    }
  }

  lemma MenuUnmoved(s: State, o: Outcome, now: nat)
    requires !CommandPc(s.pc) && !TurnPc(s.pc) && !SayPc(s.pc)
    ensures Unmoved(s, OnResume(o, now), ResumeMenu(s, o, now))
  {
    hide Finish, CancelSell;
    if s.pc.Holding? {
      CancelUnmoved(s, Configured(s.pc.changed));
      FinishUnmoved(s, Configured(s.pc.changed), now);
    } else if s.pc.Returning? {
      FinishUnmoved(s, s.pc.after, now);
    }
  }

  lemma StartUnmoved(s: State, kind: Kind, menu: string, now: nat)
    ensures StartForeground(s, kind, menu, now).credit == s.credit && StartForeground(s, kind, menu, now).pc == Idle
  {
  }

  lemma CancelUnmoved(s: State, after: After)
    ensures CancelSell(s, after).credit == s.credit && TickTime(CancelSell(s, after).pc).None?
  {
  }

  lemma FinishUnmoved(s: State, after: After, now: nat)
    ensures Finish(s, after, now).credit == s.credit && TickTime(Finish(s, after, now).pc).None?
  {
  }

  lemma RunCommandUnmoved(s: State, command: Command, generation: nat, menu: string, at: nat, now: nat)
    ensures var t := RunCommand(s, command, generation, menu, at, now);
            t.credit == s.credit && (Admitted(t.pc) == Some(at) || TickTime(t.pc).None?)
  {
  }

  lemma SellReadUnmoved(s: State, generation: nat, inv: Inventory, now: nat)
    ensures var t := SellRead(s, generation, inv, now); t.credit == s.credit && TickTime(t.pc).None?
  {
    hide SaleTurn;
  }

  lemma SaleAskedUnmoved(s: State, id: nat, generation: nat, fetched: nat, o: Outcome, now: nat)
    ensures var t := SaleAsked(s, id, generation, fetched, o, now); t.credit == s.credit && TickTime(t.pc).None?
  {
  }

  lemma SaleClickedUnmoved(s: State, id: nat, o: Outcome, now: nat)
    ensures var t := SaleClicked(s, id, o, now); t.credit == s.credit && TickTime(t.pc).None?
  {
  }

  lemma ForegroundReadUnmoved(s: State, id: nat, inv: Inventory, now: nat)
    ensures var t := ForegroundRead(s, id, inv, now); t.credit == s.credit && TickTime(t.pc).None?
  {
    hide SpawnerTurn, NineMultipliers;
  }

  lemma SpawnerClickedUnmoved(s: State, id: nat, o: Outcome, now: nat)
    ensures var t := SpawnerClicked(s, id, o, now); t.credit == s.credit && TickTime(t.pc).None?
  {
  }

  lemma OutsideUnmoved(s: State, e: Event)
    requires !e.OnResume?
    ensures Unmoved(s, e, Step(s, e))
  {
    hide Resume;
  }

  lemma DecideAdmits(s: State, now: nat)
    ensures (
      var t := Decide(s, now);
      if Admitted(t.pc).Some?
      then Admitted(t.pc) == Some(now) && t.credit == CreditReady(s.credit, now) && t.credit.left >= 1
      else TickTime(t.pc).None? && (t.credit == s.credit || t.credit == CreditReady(s.credit, now))
    )
  {
    hide CreditReady;
  }

  lemma SendingSpends(s: State, e: Event)
    requires Sends(s, e)
    ensures Step(s, e).credit == Credit(s.credit.left - 1, s.credit.at) && TickTime(Step(s, e).pc).None?
  {
    hide ResumeTurn, ResumeMenu, RunCommand, CommandRead;
  }

  // ----- the credits bound what was sent -----

  predicate CreditInv(c: Credit, pc: Pc, log: seq<Sent>, clock: nat) {
    && 0 <= c.left <= CREDITS && c.at <= clock
    && (TickTime(pc).Some? ==>
          && c.at <= TickTime(pc).value <= clock
          && forall k :: 0 <= k < |log| ==> log[k].completed <= TickTime(pc).value)
    && (Admitted(pc).Some? ==> c.left >= 1 && Admitted(pc).value < c.at + CREDIT_MS)
    && Sequential(log, clock) && Paid(c, log)
  }

  /** Each was admitted within 1500 ms of its credit clock, after the one before was sent. */
  predicate Sequential(log: seq<Sent>, clock: nat) {
    forall k :: 0 <= k < |log| ==>
      && log[k].epoch <= log[k].admitted < log[k].epoch + CREDIT_MS
      && log[k].admitted <= log[k].completed <= clock
      && (k > 0 ==> log[k - 1].completed <= log[k].admitted)
  }

  /** What was sent since an entry, and what is left, was there or has been earned since. */
  predicate Paid(c: Credit, log: seq<Sent>) {
    forall k :: 0 <= k < |log| ==>
      log[k].epoch <= c.at && |log| - k + c.left <= CREDITS + (c.at - log[k].epoch) / CREDIT_MS
  }

  lemma EarningPays(c: Credit, now: nat, log: seq<Sent>)
    requires 0 <= c.left <= CREDITS && c.at <= now && Paid(c, log)
    ensures (
      var c1 := CreditReady(c, now);
      0 <= c1.left <= CREDITS && c1.at <= now < c1.at + CREDIT_MS && Paid(c1, log)
    )
  {
    var c1 := CreditReady(c, now);
    forall k | 0 <= k < |log|
      ensures log[k].epoch <= c1.at && |log| - k + c1.left <= CREDITS + (c1.at - log[k].epoch) / CREDIT_MS {
    }
  }

  lemma SendingPays(c: Credit, log: seq<Sent>, x: Sent)
    requires 1 <= c.left <= CREDITS && Paid(c, log) && x.epoch == c.at
    ensures Paid(Credit(c.left - 1, c.at), log + [x])
  {
  }

  lemma QuietPays(s: State, e: Event, t: State, log: seq<Sent>, clock: nat, clock1: nat)
    requires CreditInv(s.credit, s.pc, log, clock) && clock <= clock1 && Unmoved(s, e, t)
    requires e.OnTick? ==> clock1 == e.now
    ensures CreditInv(t.credit, t.pc, log, clock1)
  {
    hide Paid;
  }

  lemma DecisionPays(s: State, t: State, log: seq<Sent>, clock: nat, clock1: nat)
    requires CreditInv(s.credit, s.pc, log, clock) && clock <= clock1 && s.pc.Sneaking?
    requires if Admitted(t.pc).Some?
             then Admitted(t.pc) == Some(s.pc.now) && t.credit == CreditReady(s.credit, s.pc.now) && t.credit.left >= 1
             else TickTime(t.pc).None? && (t.credit == s.credit || t.credit == CreditReady(s.credit, s.pc.now))
    ensures CreditInv(t.credit, t.pc, log, clock1)
  {
    hide CreditReady, Paid;
    EarningPays(s.credit, s.pc.now, log);
  }

  lemma DispatchPays(s: State, e: Event, log: seq<Sent>, clock: nat)
    requires Sends(s, e) && CreditInv(s.credit, s.pc, log, clock) && clock <= e.now
    ensures CreditInv(Step(s, e).credit, Step(s, e).pc, log + [Sent(s.pc.now, s.credit.at, e.now)], e.now)
  {
    hide Step, Paid;
    SendingSpends(s, e);
    SendingPays(s.credit, log, Sent(s.pc.now, s.credit.at, e.now));
  }

  lemma StepPays(s: State, e: Event, log: seq<Sent>, clock: nat, clock1: nat)
    requires CreditInv(s.credit, s.pc, log, clock) && clock <= clock1
    requires e.OnTick? || e.OnResume? ==> clock1 == e.now
    ensures (
      var log1 := log + if Sends(s, e) then [Sent(s.pc.now, s.credit.at, e.now)] else [];
      CreditInv(Step(s, e).credit, Step(s, e).pc, log1, clock1)
    )
  {
    hide Decide, Resume, CreditReady, CreditInv, Unmoved, TickTime, Admitted;
    if Sends(s, e) {
      DispatchPays(s, e, log, clock);
    } else {
      assert log + [] == log;
      if e.OnResume? && s.pc.Sneaking? {
        DecideAdmits(s, s.pc.now);
        SneakingDecides(s, e.outcome, e.now);
        DecisionPays(s, Step(s, e), log, clock, clock1);
      } else {
        if e.OnResume? {
          ResumeUnmoved(s, e.outcome, e.now);
        } else {
          OutsideUnmoved(s, e);
        }
        QuietPays(s, e, Step(s, e), log, clock, clock1);
      }
    }
  }

  lemma SneakingDecides(s: State, o: Outcome, now: nat)
    requires s.pc.Sneaking?
    ensures Resume(s, o, now) == Decide(s, s.pc.now)
  {
    hide Decide, ResumeCommand;
  }

  // ----- whole runs -----

  lemma {:induction false} RunPays(g: Gateway, cfg: Config, events: seq<Event>, n: nat)
    requires n <= |events| && InOrder(events)
    ensures var s := At(g, cfg, events, n); CreditInv(s.credit, s.pc, Log(g, cfg, events, n), Clock(events, n))
  {
    hide Step, CreditInv, Sends;
    if n == 0 {
      NothingSent(g, cfg, events);
    } else {
      RunPays(g, cfg, events, n - 1);
      assert Clock(events, n - 1) <= Clock(events, n - 1 + 1);
      StepPays(At(g, cfg, events, n - 1), events[n - 1], Log(g, cfg, events, n - 1), Clock(events, n - 1),
               Clock(events, n));
    }
  }

  lemma NothingSent(g: Gateway, cfg: Config, events: seq<Event>)
    ensures var s := At(g, cfg, events, 0); CreditInv(s.credit, s.pc, Log(g, cfg, events, 0), Clock(events, 0))
  {
  }

  function CeilDiv(a: nat, b: nat): nat
    requires b > 0
  {
    (a + b - 1) / b
  }

  /** In any window, measured by the ticks that admitted them, at most 3 + ceil(T / 1500 ms)
      commands are sent. */
  lemma SentBound(g: Gateway, cfg: Config, events: seq<Event>, n: nat, i: nat, j: nat)
    requires n <= |events| && InOrder(events) && i <= j < |Log(g, cfg, events, n)|
    ensures var log := Log(g, cfg, events, n);
            && log[i].admitted <= log[j].admitted
            && j - i + 1 <= CREDITS + CeilDiv(log[j].admitted - log[i].admitted, CREDIT_MS)
  {
    hide At, Log, Clock, Sends, CreditInv, CeilDiv, Paid;
    var log := Log(g, cfg, events, n);
    var m, before := LogPrefix(g, cfg, events, n, j);
    RunPays(g, cfg, events, n);
    InvIsSequential(At(g, cfg, events, n), log, Clock(events, n));
    RunPays(g, cfg, events, m);
    CreditInHand(At(g, cfg, events, m), events[m], before, Clock(events, m));
    WindowBound(At(g, cfg, events, m).credit, log, before, Clock(events, n), i, j);
  }

  lemma InvIsSequential(s: State, log: seq<Sent>, clock: nat)
    requires CreditInv(s.credit, s.pc, log, clock)
    ensures Sequential(log, clock)
  {
  }

  lemma CreditInHand(s: State, e: Event, log: seq<Sent>, clock: nat)
    requires CreditInv(s.credit, s.pc, log, clock) && Sends(s, e)
    ensures s.credit.left >= 1 && Paid(s.credit, log)
  {
  }

  lemma WindowBound(c: Credit, log: seq<Sent>, before: seq<Sent>, clock: nat, i: nat, j: nat)
    requires i <= j < |log| && before == log[..j] && log[j].epoch == c.at && c.left >= 1
    requires Sequential(log, clock) && Paid(c, before)
    ensures log[i].admitted <= log[j].admitted
    ensures j - i + 1 <= CREDITS + CeilDiv(log[j].admitted - log[i].admitted, CREDIT_MS)
  {
    InSequence(log, clock, i, j);
    if i < j {
      assert before[i] == log[i];
    }
  }

  lemma {:induction false} InSequence(log: seq<Sent>, clock: nat, i: nat, j: nat)
    requires i <= j < |log| && Sequential(log, clock)
    ensures log[i].admitted <= log[j].admitted
    ensures i < j ==> log[i].completed <= log[j].admitted
    decreases j
  {
    if i < j {
      InSequence(log, clock, i, j - 1);
    }
  }

  /** The moment entry `j` was sent. */
  lemma {:induction false} LogPrefix(g: Gateway, cfg: Config, events: seq<Event>, n: nat, j: nat)
      returns (m: nat, before: seq<Sent>)
    requires n <= |events| && j < |Log(g, cfg, events, n)|
    ensures m < n && before == Log(g, cfg, events, m) == Log(g, cfg, events, n)[..j]
    ensures Sends(At(g, cfg, events, m), events[m])
    ensures Log(g, cfg, events, n)[j] == Sent(At(g, cfg, events, m).pc.now, At(g, cfg, events, m).credit.at,
                                              events[m].now)
  {
    hide Step, Sends, At;
    if j == |Log(g, cfg, events, n - 1)| {
      m, before := n - 1, Log(g, cfg, events, n - 1);
    } else {
      m, before := LogPrefix(g, cfg, events, n - 1, j);
    }
  }

  /** Measured by when they were sent there may be one more: all but the first of a window
      were admitted inside it. */
  lemma CompletedBound(g: Gateway, cfg: Config, events: seq<Event>, n: nat, i: nat, j: nat)
    requires n <= |events| && InOrder(events) && i <= j < |Log(g, cfg, events, n)|
    ensures var log := Log(g, cfg, events, n);
            && log[i].completed <= log[j].completed
            && j - i + 1 <= CREDITS + 1 + CeilDiv(log[j].completed - log[i].completed, CREDIT_MS)
  {
    hide At, Log, Clock, Sends, CreditInv, Paid;
    var log := Log(g, cfg, events, n);
    RunPays(g, cfg, events, n);
    InvIsSequential(At(g, cfg, events, n), log, Clock(events, n));
    InSequence(log, Clock(events, n), i, j);
    if i < j {
      SentBound(g, cfg, events, n, i + 1, j);
      InSequence(log, Clock(events, n), i, i + 1);
      CeilGrows(log[j].admitted - log[i + 1].admitted, log[j].completed - log[i].completed);
    }
  }

  lemma CeilGrows(a: nat, b: nat)
    requires a <= b
    ensures CeilDiv(a, CREDIT_MS) <= CeilDiv(b, CREDIT_MS)
  {
  }

  /** Measured by when they were sent, a latency of the first of a window stretches the window. */
  lemma LatencyBound(g: Gateway, cfg: Config, events: seq<Event>, n: nat, i: nat, j: nat, latency: nat)
    requires n <= |events| && InOrder(events) && i <= j < |Log(g, cfg, events, n)|
    requires var first := Log(g, cfg, events, n)[i]; first.completed - first.admitted <= latency
    ensures var log := Log(g, cfg, events, n);
            && log[i].completed <= log[j].completed
            && j - i + 1 <= CREDITS + CeilDiv(log[j].completed - log[i].completed + latency, CREDIT_MS)
  {
    hide At, Log, Clock, Sends, CreditInv, Paid, CeilDiv;
    var log := Log(g, cfg, events, n);
    RunPays(g, cfg, events, n);
    InvIsSequential(At(g, cfg, events, n), log, Clock(events, n));
    InSequence(log, Clock(events, n), i, j);
    SentBound(g, cfg, events, n, i, j);
    CeilGrows(log[j].admitted - log[i].admitted, log[j].completed - log[i].completed + latency);
  }

  /** If the chat call took no time for the first of a window, the promised bound holds by
      completion as well. */
  lemma PromptBound(g: Gateway, cfg: Config, events: seq<Event>, n: nat, i: nat, j: nat)
    requires n <= |events| && InOrder(events) && i <= j < |Log(g, cfg, events, n)|
    requires var first := Log(g, cfg, events, n)[i]; first.completed == first.admitted
    ensures var log := Log(g, cfg, events, n);
            && log[i].completed <= log[j].completed
            && j - i + 1 <= CREDITS + CeilDiv(log[j].completed - log[i].completed, CREDIT_MS)
  {
    hide At, Log, Clock, Sends, CeilDiv;
    LatencyBound(g, cfg, events, n, i, j, 0);
  }

  // ----- the bound by completion time -----

  ghost predicate WithinLatency(log: seq<Sent>, latency: nat) {
    forall k :: 0 <= k < |log| ==> log[k].completed - log[k].admitted <= latency
  }

  predicate CompletionBound(log: seq<Sent>, i: nat, j: nat)
    requires i <= j < |log| && log[i].completed <= log[j].completed
  {
    j - i + 1 <= CREDITS + CeilDiv(log[j].completed - log[i].completed, CREDIT_MS)
  }

  /** In every run whose chat calls take at most `latency`, at most 3 + ceil(T / 1500 ms) of
      them complete in any window of length T. */
  ghost predicate BoundedByCompletion(latency: nat) {
    forall g, cfg, events, n: nat, i: nat, j: nat |
      && n <= |events| && InOrder(events) && i <= j < |Log(g, cfg, events, n)|
      && WithinLatency(Log(g, cfg, events, n), latency)
      :: Log(g, cfg, events, n)[i].completed <= Log(g, cfg, events, n)[j].completed
         && CompletionBound(Log(g, cfg, events, n), i, j)
  }

  /** That holds only when chat calls take no time at all. */
  lemma CompletionBoundNeedsPromptChat(latency: nat)
    ensures BoundedByCompletion(latency) <==> latency == 0
  {
    hide At, Log, InOrder, CeilDiv;
    if latency == 0 {
      forall g, cfg, events, n: nat, i: nat, j: nat |
        && n <= |events| && InOrder(events) && i <= j < |Log(g, cfg, events, n)|
        && WithinLatency(Log(g, cfg, events, n), latency)
        ensures Log(g, cfg, events, n)[i].completed <= Log(g, cfg, events, n)[j].completed
                && CompletionBound(Log(g, cfg, events, n), i, j)
      {
        var first := Log(g, cfg, events, n)[i];
        RunPays(g, cfg, events, n);
        InvIsSequential(At(g, cfg, events, n), Log(g, cfg, events, n), Clock(events, n));
        assert first.completed - first.admitted <= 0 && first.admitted <= first.completed;
        PromptBound(g, cfg, events, n, i, j);
      }
    } else {
      FourAtOnce(latency);
    }
  }

  const CHAT_GATEWAY := Gateway(true, true)
  const CHAT_CONFIG := Config(false, None, Text("/sell", false, false), false, "", [], [])

  function Line(raw: string): Command {
    Chat(Text(raw, false, false))
  }

  /** A tick that sends the first queued line, admitted at `at` and sent at `done`. */
  function Sending(at: nat, done: nat): seq<Event> {
    [OnTick(at), OnResume(Done, at), OnResume(Done, at), OnResume(Done, at), OnResume(Failed, at), OnResume(Done, done)]
  }

  function Ready(commands: seq<Command>, manualUntil: nat, last: Option<(Text, nat)>, credit: Credit): State {
    State(CHAT_GATEWAY, CHAT_CONFIG, true, Times(2000, 2000, 0, 0, manualUntil, 0), commands, last, Home(false, 0, 0),
          None, None, credit, 1, 0, Idle)
  }

  predicate SaidAt(events: seq<Event>, n: nat, said: seq<Event>) {
    n + |said| <= |events| && forall k :: n <= k < n + |said| ==> events[k] == said[k - n]
  }

  lemma SendOne(events: seq<Event>, n: nat, commands: seq<Command>, manual: nat, last: Option<(Text, nat)>,
                credit: Credit, at: nat, done: nat, c: Credit)
    requires SaidAt(events, n, Sending(at, done)) && at <= done
    requires commands != [] && commands[0].Chat? && commands[0].text.raw != ""
    requires !commands[0].text.blocked && !commands[0].text.travels
    requires c == CreditReady(credit, at) && c.left >= 1
    requires At(CHAT_GATEWAY, CHAT_CONFIG, events, n) == Ready(commands, manual, last, credit)
    ensures At(CHAT_GATEWAY, CHAT_CONFIG, events, n + 6) ==
              Ready(commands[1..], done + 5000, last, Credit(c.left - 1, c.at))
    ensures Log(CHAT_GATEWAY, CHAT_CONFIG, events, n + 6) ==
              Log(CHAT_GATEWAY, CHAT_CONFIG, events, n) + [Sent(at, c.at, done)]
  {
    hide At, Log, CreditReady, Step, Ready, Sends;
    ReachesChat(events, n, commands, manual, last, credit, at, done, c);
    ChatCompletes(events, n, commands, at, done, last, c);
  }

  /** A tick that takes the first command as far as its look at the inventory. */
  function Fetching(at: nat): seq<Event> {
    [OnTick(at), OnResume(Done, at), OnResume(Done, at), OnResume(Done, at)]
  }

  lemma ReachesFetch(events: seq<Event>, n: nat, commands: seq<Command>, manual: nat, last: Option<(Text, nat)>,
                     credit: Credit, at: nat, c: Credit)
    requires SaidAt(events, n, Fetching(at)) && commands != []
    requires c == CreditReady(credit, at) && c.left >= 1
    requires At(CHAT_GATEWAY, CHAT_CONFIG, events, n) == Ready(commands, manual, last, credit)
    ensures At(CHAT_GATEWAY, CHAT_CONFIG, events, n + 4) ==
              Ready(commands[1..], manual, last, c).(pc := CommandFetch(commands[0], 1, at))
    ensures Log(CHAT_GATEWAY, CHAT_CONFIG, events, n + 4) == Log(CHAT_GATEWAY, CHAT_CONFIG, events, n)
  {
    hide At, Log, CreditReady, SellRead, SaleAsked, SaleClicked, ForegroundRead, SpawnerClicked, CancelSell, GoHome,
      CommandRead, RunCommand, StartForeground, ResumeSay;
    Next(events, n);
    var s := Ready(commands, manual, last, credit);
    assert At(CHAT_GATEWAY, CHAT_CONFIG, events, n + 1) == s.(pc := Entering(at));
    Next(events, n + 1);
    assert At(CHAT_GATEWAY, CHAT_CONFIG, events, n + 2) == s.(pc := Sneaking(at));
    Next(events, n + 2);
    assert At(CHAT_GATEWAY, CHAT_CONFIG, events, n + 3) ==
           Ready(commands[1..], manual, last, c).(pc := Suspending(commands[0], at));
    Next(events, n + 3);
  }

  lemma ReachesChat(events: seq<Event>, n: nat, commands: seq<Command>, manual: nat, last: Option<(Text, nat)>,
                    credit: Credit, at: nat, done: nat, c: Credit)
    requires SaidAt(events, n, Sending(at, done))
    requires commands != [] && commands[0].Chat? && commands[0].text.raw != ""
    requires !commands[0].text.blocked && !commands[0].text.travels
    requires c == CreditReady(credit, at) && c.left >= 1
    requires At(CHAT_GATEWAY, CHAT_CONFIG, events, n) == Ready(commands, manual, last, credit)
    ensures At(CHAT_GATEWAY, CHAT_CONFIG, events, n + 5) ==
              Ready(commands[1..], at + 5000, last, c).(pc := CommandChat(at))
    ensures Log(CHAT_GATEWAY, CHAT_CONFIG, events, n + 5) == Log(CHAT_GATEWAY, CHAT_CONFIG, events, n)
  {
    hide At, Log, CreditReady, ResumeTurn, ResumeSay, ResumeMenu, StartForeground;
    assert SaidAt(events, n, Fetching(at));
    ReachesFetch(events, n, commands, manual, last, credit, at, c);
    Next(events, n + 4);
  }

  lemma ChatCompletes(events: seq<Event>, n: nat, commands: seq<Command>, at: nat, done: nat, last: Option<(Text, nat)>,
                      c: Credit)
    requires SaidAt(events, n, Sending(at, done)) && commands != []
    requires At(CHAT_GATEWAY, CHAT_CONFIG, events, n + 5) ==
               Ready(commands[1..], at + 5000, last, c).(pc := CommandChat(at))
    ensures At(CHAT_GATEWAY, CHAT_CONFIG, events, n + 6) ==
              Ready(commands[1..], done + 5000, last, Credit(c.left - 1, c.at))
    ensures Log(CHAT_GATEWAY, CHAT_CONFIG, events, n + 6) ==
              Log(CHAT_GATEWAY, CHAT_CONFIG, events, n + 5) + [Sent(at, c.at, done)]
  {
    hide At, Log, CreditReady, ResumeCommand, ResumeTurn, ResumeMenu;
    Next(events, n + 5);
  }

  lemma Next(events: seq<Event>, n: nat)
    requires n < |events|
    ensures At(CHAT_GATEWAY, CHAT_CONFIG, events, n + 1) == Step(At(CHAT_GATEWAY, CHAT_CONFIG, events, n), events[n])
    ensures var s := At(CHAT_GATEWAY, CHAT_CONFIG, events, n);
            Log(CHAT_GATEWAY, CHAT_CONFIG, events, n + 1) ==
              Log(CHAT_GATEWAY, CHAT_CONFIG, events, n)
              + if Sends(s, events[n]) then [Sent(s.pc.now, s.credit.at, events[n].now)] else []
  {
    hide Step;
  }

  /** A cleaning that fails at its look at the inventory starts the credit clock; the line behind
      it is admitted 1499 ms later and takes 1 ms, and in the millisecond in which it completes
      three more go out. */
  function HurriedRun(): seq<Event> {
    Queueing() + Fetching(3000) + [OnResume(Failed, 3000)]
    + Sending(4499, 4500) + Sending(4500, 4500) + Sending(4500, 4500) + Sending(4500, 4500)
  }

  const A := Line("/a")
  const B := Line("/b")
  const C := Line("/c")
  const D := Line("/d")

  function Queueing(): seq<Event> {
    [OnSpawned(0), OnEnqueue(CleanSpawner, 0), OnEnqueue(A, 0), OnEnqueue(B, 0), OnEnqueue(C, 0), OnEnqueue(D, 0)]
  }

  /** The text remembered as the last one queued. */
  function Said(c: Command): Option<(Text, nat)>
    requires c.Chat?
  {
    Some((c.text, 0))
  }

  lemma HurriedStart(events: seq<Event>)
    requires events == HurriedRun()
    ensures At(CHAT_GATEWAY, CHAT_CONFIG, events, 6) == Ready([CleanSpawner, A, B, C, D], 0, Said(D), Credit(3, 0))
    ensures Log(CHAT_GATEWAY, CHAT_CONFIG, events, 6) == []
  {
    hide At, Log, HurriedRun, Ready;
    HurriedPieces(events);
    FirstQueued(events);
    assert [CleanSpawner, A, B] + [C] == [CleanSpawner, A, B, C];
    assert [CleanSpawner, A, B, C] + [D] == [CleanSpawner, A, B, C, D];
    Queued(events, 4, [CleanSpawner, A, B], Said(B), "/c");
    Queued(events, 5, [CleanSpawner, A, B, C], Said(C), "/d");
  }

  lemma FirstQueued(events: seq<Event>)
    requires SaidAt(events, 0, Queueing())
    ensures At(CHAT_GATEWAY, CHAT_CONFIG, events, 4) == Ready([CleanSpawner, A, B], 0, Said(B), Credit(3, 0))
    ensures Log(CHAT_GATEWAY, CHAT_CONFIG, events, 4) == []
  {
    hide At, Log, Ready;
    JustSpawned(events);
    CleaningQueued(events);
    assert [CleanSpawner] + [A] == [CleanSpawner, A];
    assert [CleanSpawner, A] + [B] == [CleanSpawner, A, B];
    Queued(events, 2, [CleanSpawner], None, "/a");
    Queued(events, 3, [CleanSpawner, A], Said(A), "/b");
  }

  lemma JustSpawned(events: seq<Event>)
    requires events != [] && events[0] == OnSpawned(0)
    ensures At(CHAT_GATEWAY, CHAT_CONFIG, events, 1) == Ready([], 0, None, Credit(3, 0))
    ensures Log(CHAT_GATEWAY, CHAT_CONFIG, events, 1) == []
  {
    hide At, Log, Resume;
    NothingQueued(events);
    Next(events, 0);
  }

  lemma NothingQueued(events: seq<Event>)
    ensures At(CHAT_GATEWAY, CHAT_CONFIG, events, 0) == Initial(CHAT_GATEWAY, CHAT_CONFIG)
    ensures Log(CHAT_GATEWAY, CHAT_CONFIG, events, 0) == []
  {
  }

  lemma CleaningQueued(events: seq<Event>)
    requires |events| > 1 && events[1] == OnEnqueue(CleanSpawner, 0)
    requires At(CHAT_GATEWAY, CHAT_CONFIG, events, 1) == Ready([], 0, None, Credit(3, 0))
    ensures At(CHAT_GATEWAY, CHAT_CONFIG, events, 2) == Ready([CleanSpawner], 0, None, Credit(3, 0))
    ensures Log(CHAT_GATEWAY, CHAT_CONFIG, events, 2) == Log(CHAT_GATEWAY, CHAT_CONFIG, events, 1)
  {
    hide At, Log, Resume;
    Next(events, 1);
  }

  lemma Queued(events: seq<Event>, n: nat, commands: seq<Command>, last: Option<(Text, nat)>, raw: string)
    requires n < |events| && events[n] == OnEnqueue(Line(raw), 0) && raw != ""
    requires Line(raw) !in commands && |commands| < QUEUE_CAP && (last.Some? ==> last.value.0.raw != raw)
    requires At(CHAT_GATEWAY, CHAT_CONFIG, events, n) == Ready(commands, 0, last, Credit(3, 0))
    ensures At(CHAT_GATEWAY, CHAT_CONFIG, events, n + 1) ==
              Ready(commands + [Line(raw)], 0, Some((Text(raw, false, false), 0)), Credit(3, 0))
    ensures Log(CHAT_GATEWAY, CHAT_CONFIG, events, n + 1) == Log(CHAT_GATEWAY, CHAT_CONFIG, events, n)
  {
    hide At, Log, Resume;
    Next(events, n);
  }

  lemma CleaningFails(events: seq<Event>)
    requires events == HurriedRun()
    ensures At(CHAT_GATEWAY, CHAT_CONFIG, events, 11) ==
              Ready([A, B, C, D], 0, Said(D), Credit(3, 3000))
    ensures Log(CHAT_GATEWAY, CHAT_CONFIG, events, 11) == []
  {
    hide At, Log, ResumeTurn, ResumeSay, ResumeMenu, StartForeground, HurriedRun;
    HurriedStart(events);
    HurriedPieces(events);
    var commands := [CleanSpawner, A, B, C, D];
    assert commands[1..] == [A, B, C, D];
    ReachesFetch(events, 6, commands, 0, Said(D), Credit(3, 0), 3000, Credit(3, 3000));
    Next(events, 10);
  }

  lemma HurriedLog(events: seq<Event>)
    requires events == HurriedRun()
    ensures Log(CHAT_GATEWAY, CHAT_CONFIG, events, 35) ==
              [Sent(4499, 3000, 4500), Sent(4500, 4500, 4500), Sent(4500, 4500, 4500), Sent(4500, 4500, 4500)]
  {
    hide At, Log, Ready, CreditReady;
    CleaningFails(events);
    var last := Said(D);
    var a := [A, B, C, D];
    HurriedPieces(events);
    HurriedCredits();
    SendOne(events, 11, a, 0, last, Credit(3, 3000), 4499, 4500, Credit(3, 3000));
    SendOne(events, 17, a[1..], 9500, last, Credit(2, 3000), 4500, 4500, Credit(3, 4500));
    SendOne(events, 23, a[1..][1..], 9500, last, Credit(2, 4500), 4500, 4500, Credit(2, 4500));
    SendOne(events, 29, a[1..][1..][1..], 9500, last, Credit(1, 4500), 4500, 4500, Credit(1, 4500));
  }

  lemma HurriedCredits()
    ensures CreditReady(Credit(3, 3000), 4499) == Credit(3, 3000)
    ensures CreditReady(Credit(2, 3000), 4500) == Credit(3, 4500)
    ensures CreditReady(Credit(2, 4500), 4500) == Credit(2, 4500)
    ensures CreditReady(Credit(1, 4500), 4500) == Credit(1, 4500)
  {
  }

  lemma HurriedPieces(events: seq<Event>)
    requires events == HurriedRun()
    ensures |events| == 35 && SaidAt(events, 0, Queueing()) && SaidAt(events, 6, Fetching(3000))
    ensures events[10] == OnResume(Failed, 3000)
    ensures SaidAt(events, 11, Sending(4499, 4500))
    ensures SaidAt(events, 17, Sending(4500, 4500)) && SaidAt(events, 23, Sending(4500, 4500))
    ensures SaidAt(events, 29, Sending(4500, 4500))
  {
  }

  lemma HurriedInOrder(events: seq<Event>)
    requires events == HurriedRun()
    ensures InOrder(events)
  {
    hide Clock;
    forall n: nat | n < |events| ensures Clock(events, n) <= Clock(events, n + 1) {
      ClockReads(events, n);
    }
  }

  lemma ClockReads(events: seq<Event>, n: nat)
    requires n < |events| && (forall k :: 0 <= k < |events| ==> !events[k].OnJoining? && !events[k].OnConfigure?)
    ensures Clock(events, n) == if n == 0 then 0 else events[n - 1].now
    ensures Clock(events, n + 1) == events[n].now
  {
  }

  lemma FourAtOnce(latency: nat)
    requires latency >= 1
    ensures !BoundedByCompletion(latency)
  {
    hide At, Log, InOrder, HurriedRun;
    var events := HurriedRun();
    HurriedLog(events);
    HurriedPieces(events);
    HurriedInOrder(events);
    var log := Log(CHAT_GATEWAY, CHAT_CONFIG, events, 35);
    assert WithinLatency(log, latency) && !CompletionBound(log, 0, 3);
  }
}
