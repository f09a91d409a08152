/** What every run of the native scheduler keeps: one kind of inventory work at a time, manual
    commands in order, the command budget, and the discipline of the automatic clicks. */
module NativeSafety {
  import opened Wrappers
  import opened NativeScheduler

  // ----- the invariant -----

  /** A foreground task and an auto-sell cycle exclude each other. */
  predicate Exclusive(s: State) {
    s.active.Some? ==> s.phase.Idle?
  }

  /** Manual commands: those sent and then those queued are those asked for. */
  predicate Fifo(s: State) {
    s.record.dispatched + s.queue == s.record.enqueued
  }

  /** Since any command went out no more were sent than were there or have been earned. */
  predicate Paid(b: Budget, sent: seq<nat>) {
    forall i :: 0 <= i < |sent| ==>
      sent[i] <= b.at && (|sent| - i) as real + b.tokens <= BURST + (b.at - sent[i]) as real / TOKEN_MS as real
  }

  /** In any window at most three commands, and one more for every 1.5 s. */
  predicate Windowed(sent: seq<nat>) {
    forall i, j :: 0 <= i <= j < |sent| ==>
      sent[i] <= sent[j] && (j - i + 1) as real <= BURST + (sent[j] - sent[i]) as real / TOKEN_MS as real
  }

  predicate BudgetInv(b: Budget, sent: seq<nat>) {
    0.0 <= b.tokens <= BURST && Paid(b, sent) && Windowed(sent)
  }

  /** Made in the owned menu of its cycle, on an occupied slot of the player. */
  predicate Proper(c: Click) {
    && c.owned && c.look.session == c.session
    && c.look.inventory.Some? && c.look.inventory.value.id == c.menu && c.look.inventory.value.slots.Some?
    && var slots := c.look.inventory.value.slots.value;
       PlayerStart(slots) <= c.slot <= PlayerEnd(slots) && Occupied(slots, c.slot)
  }

  /** `c` comes before `d`. */
  predicate Follows(c: Click, d: Click) {
    && d.at >= c.at + CLICK_MS && c.episode <= d.episode
    && (c.episode == d.episode ==> c.slot < d.slot && c.menu == d.menu && c.session == d.session)
  }

  predicate Disciplined(clicks: seq<Click>) {
    && (forall i :: 0 <= i < |clicks| ==> Proper(clicks[i]))
    && forall i, j :: 0 <= i < j < |clicks| ==> Follows(clicks[i], clicks[j])
  }

  /** Every click made so far is out of the way of the next one. */
  predicate Behind(phase: Phase, nextClickAt: nat, episode: nat, clicks: seq<Click>) {
    && (forall i :: 0 <= i < |clicks| ==> clicks[i].at + CLICK_MS <= nextClickAt && clicks[i].episode < episode)
    && (phase.Selling? ==>
          && phase.episode < episode && phase.next <= phase.end + 1 && phase.end + 1 <= phase.next + PLAYER_SLOTS
          && forall i :: 0 <= i < |clicks| ==>
               && clicks[i].episode <= phase.episode
               && (clicks[i].episode == phase.episode ==>
                     clicks[i].slot < phase.next && clicks[i].menu == phase.menu && clicks[i].session == phase.session))
  }

  predicate ClickInv(s: State) {
    Disciplined(s.record.clicks) && Behind(s.phase, s.clock.nextClickAt, s.episode, s.record.clicks)
  }

  predicate Inv(s: State) {
    Exclusive(s) && Fifo(s) && BudgetInv(s.budget, s.record.sent) && ClickInv(s)
  }

  // ----- steps that keep the books as they are -----

  predicate SameBooks(s: State, t: State) {
    && t.record == s.record && t.queue == s.queue && t.budget == s.budget && t.episode == s.episode
    && t.clock.nextClickAt == s.clock.nextClickAt && (t.phase == s.phase || !t.phase.Selling?)
  }

  predicate Plain(s: State, t: State) {
    SameBooks(s, t) && Exclusive(t)
  }

  lemma PlainKeeps(s: State, t: State)
    requires Inv(s) && Plain(s, t)
    ensures Inv(t)
  {
    hide Disciplined, BudgetInv;
  }

  // ----- the budget -----

  lemma RefillPays(b: Budget, now: nat, sent: seq<nat>)
    requires BudgetInv(b, sent) && b.at <= now
    ensures BudgetInv(Refilled(b, now), sent) && Refilled(b, now).at == now
  {
    hide Windowed;
    var b1 := Refilled(b, now);
    forall i | 0 <= i < |sent|
      ensures sent[i] <= b1.at
      ensures (|sent| - i) as real + b1.tokens <= BURST + (b1.at - sent[i]) as real / TOKEN_MS as real {
      assert (b1.at - sent[i]) as real == (b.at - sent[i]) as real + (now - b.at) as real;
    }
  }

  lemma SpendPays(b: Budget, sent: seq<nat>)
    requires BudgetInv(b, sent) && b.tokens >= 1.0
    ensures BudgetInv(b.(tokens := b.tokens - 1.0), sent + [b.at])
  {
    OneMoreSent(b, sent);
  }

  lemma OneMoreSent(b: Budget, sent: seq<nat>)
    requires Paid(b, sent) && Windowed(sent) && 1.0 <= b.tokens <= BURST
    ensures Windowed(sent + [b.at])
  {
    hide Windowed;
    var longer := sent + [b.at];
    forall i, j | 0 <= i <= j < |longer|
      ensures longer[i] <= longer[j]
      ensures (j - i + 1) as real <= BURST + (longer[j] - longer[i]) as real / TOKEN_MS as real {
      InWindow(sent, i, j);
      if j == |sent| && i < j {
        assert (|sent| - i) as real + b.tokens <= BURST + (b.at - sent[i]) as real / TOKEN_MS as real;
        assert (j - i + 1) as real == (|sent| - i) as real + 1.0;
      }
    }
    IsWindowed(longer);
  }

  lemma InWindow(sent: seq<nat>, i: nat, j: nat)
    requires Windowed(sent) && i <= j
    ensures j < |sent| ==>
              sent[i] <= sent[j] && (j - i + 1) as real <= BURST + (sent[j] - sent[i]) as real / TOKEN_MS as real
  {
  }

  lemma IsWindowed(sent: seq<nat>)
    requires forall i, j :: 0 <= i <= j < |sent| ==>
      sent[i] <= sent[j] && (j - i + 1) as real <= BURST + (sent[j] - sent[i]) as real / TOKEN_MS as real
    ensures Windowed(sent)
  {
  }

  predicate Timely(s: State, now: nat) {
    s.budget.at <= now
  }

  // ----- manual commands -----

  lemma RefillKeeps(s: State, now: nat)
    requires Inv(s) && Timely(s, now)
    ensures Inv(s.(budget := Refilled(s.budget, now)))
  {
    hide Refilled, BudgetInv, Disciplined, Behind;
    RefillPays(s.budget, now, s.record.sent);
  }

  lemma SpendKeeps(s: State, now: nat)
    requires Inv(s) && s.budget.tokens >= 1.0 && s.budget.at == now
    ensures Inv(Spent(s, now))
  {
    hide BudgetInv, Disciplined, Behind;
    SpendPays(s.budget, s.record.sent);
  }

  lemma ManualKeeps(s: State, b: Look, now: nat)
    requires Inv(s) && Timely(s, now)
    ensures Inv(ManualChat(s, b, now).0) && Timely(ManualChat(s, b, now).0, now)
  {
    hide Inv, Refilled, Interrupting, Spent, AfterCommand;
    RefillIsNow(s.budget, now);
    RefillKeeps(s, now);
    var s1 := s.(budget := Refilled(s.budget, now));
    if b.inGame && s1.budget.tokens >= 1.0 && s1.queue != [] {
      var task := s1.queue[0];
      var s2 := Interrupting(s1, task, b, now);
      InterruptingIsPlain(s1, task, b, now);
      PlainKeeps(s1, s2);
      SpendKeeps(s2, now);
      var s3 := Spent(s2, now).(queue := s2.queue[1..]);
      var s4 := s3.(record := s3.record.(dispatched := s3.record.dispatched + [task]));
      TakeKeeps(Spent(s2, now), task, s4);
      AfterCommandIsPlain(s4, task, now);
      PlainKeeps(s4, AfterCommand(s4, task, now));
    }
  }

  lemma RefillIsNow(b: Budget, now: nat)
    ensures Refilled(b, now).at == now
  {
  }

  lemma InterruptingIsPlain(s: State, m: Manual, b: Look, now: nat)
    ensures Plain(s, Interrupting(s, m, b, now)) && Interrupting(s, m, b, now).phase.Idle?
    ensures Interrupting(s, m, b, now).queue == s.queue
    ensures Spent(Interrupting(s, m, b, now), now).budget == s.budget.(tokens := s.budget.tokens - 1.0)
    ensures Spent(Interrupting(s, m, b, now), now).queue == s.queue
    ensures Spent(Interrupting(s, m, b, now), now).phase.Idle?
  {
    hide Cancelling;
  }

  /** The first queued command has been sent. */
  lemma TakeKeeps(s: State, task: Manual, t: State)
    requires Inv(s) && s.queue != [] && s.queue[0] == task
    requires t == s.(queue := s.queue[1..], record := s.record.(dispatched := s.record.dispatched + [task]))
    ensures Inv(t)
  {
    hide BudgetInv, Disciplined, Behind;
    assert s.record.dispatched + [task] + s.queue[1..] == s.record.dispatched + s.queue;
  }

  lemma AfterCommandIsPlain(s: State, m: Manual, now: nat)
    requires s.phase.Idle?
    ensures Plain(s, AfterCommand(s, m, now))
  {
  }

  // ----- foreground tasks -----

  lemma ScannedIsPlain(s: State, b: Look, now: nat, p: Active)
    requires p.Scanning? && s.active == Some(p) && Exclusive(s)
    ensures Plain(s, Scanned(s, b, now, p)) && Scanned(s, b, now, p).phase == s.phase
  {
  }

  lemma AdvancedIsPlain(s: State, b: Look, now: nat)
    requires Exclusive(s)
    ensures Plain(s, Advanced(s, b, now)) && Advanced(s, b, now).phase == s.phase
  {
    hide SpawnerTurn, Scanned;
    if s.active.Some? && s.active.value.Scanning? {
      ScannedIsPlain(s, b, now, s.active.value);
    }
  }

  lemma ForegroundIsPlain(s: State, b: Look, now: nat)
    requires Exclusive(s)
    ensures Plain(s, Foreground(s, b, now).0)
  {
    hide Advanced, ManualMenuPending, Paused;
    AdvancedIsPlain(s, b, now);
  }

  // ----- auto-sell -----

  lemma SellIdleKeeps(s: State, b: Look, now: nat)
    requires Inv(s) && Timely(s, now) && s.phase.Idle?
    ensures Inv(SellIdle(s, b, now)) && Timely(SellIdle(s, b, now), now)
  {
    hide Inv, Refilled, ManualMenuPending, Requested;
    RefillIsNow(s.budget, now);
    RefillKeeps(s, now);
    var s1 := s.(budget := Refilled(s.budget, now));
    if s.active.None? && s1.budget.tokens >= 1.0 {
      SpendKeeps(s1, now);
      RequestedIsPlain(s1, b, now);
      PlainKeeps(Spent(s1, now), Requested(s1, b, now));
    }
  }

  lemma RequestedIsPlain(s: State, b: Look, now: nat)
    requires s.active.None?
    ensures Plain(Spent(s, now), Requested(s, b, now)) && Requested(s, b, now).budget.at == s.budget.at
  {
  }

  lemma ClickKeeps(s: State, b: Look, now: nat, slot: nat, more: bool)
    requires Inv(s) && s.phase.Selling? && now >= s.clock.nextClickAt && OwnsSale(s.guard, b)
    requires b.session == s.phase.session
    requires b.inventory.value.slots.Some? && b.inventory.value.id == s.phase.menu
    requires var slots := b.inventory.value.slots.value;
             PlayerEnd(slots) == s.phase.end && s.phase.next <= slot <= s.phase.end && Occupied(slots, slot)
    ensures Inv(Clicked(s, b, now, slot, more))
  {
    hide BudgetInv, OwnsSale, Disciplined, Behind;
    OwnedIsOpen(s.guard, b);
    var t := Clicked(s, b, now, slot, more);
    var click := Click(now, slot, s.phase.menu, s.phase.session, s.phase.episode, b, OwnsSale(s.guard, b));
    PlayerRange(b.inventory.value.slots.value, s.phase, slot, s.clock.nextClickAt, s.episode, s.record.clicks);
    OneClickMore(s.phase, s.clock.nextClickAt, s.episode, s.record.clicks, click, t.phase);
  }

  lemma PlayerRange(slots: seq<Stack>, phase: Phase, slot: nat, nextClickAt: nat, episode: nat, clicks: seq<Click>)
    requires phase.Selling? && PlayerEnd(slots) == phase.end && phase.next <= slot <= phase.end
    requires Behind(phase, nextClickAt, episode, clicks)
    ensures PlayerStart(slots) <= slot <= PlayerEnd(slots)
  {
  }

  lemma OneClickMore(phase: Phase, nextClickAt: nat, episode: nat, clicks: seq<Click>, c: Click, after: Phase)
    requires Disciplined(clicks) && Behind(phase, nextClickAt, episode, clicks) && phase.Selling?
    requires Proper(c) && c.at >= nextClickAt && c.episode == phase.episode && c.menu == phase.menu
    requires c.session == phase.session
    requires phase.next <= c.slot <= phase.end
    requires after == phase.(next := c.slot + 1) || after.Closing?
    ensures Disciplined(clicks + [c]) && Behind(after, c.at + CLICK_MS, episode, clicks + [c])
  {
    hide Proper;
    forall i | 0 <= i < |clicks| ensures Follows(clicks[i], c) {
    }
  }

  lemma AdvanceClickKeeps(s: State, b: Look, now: nat)
    requires Inv(s)
    ensures Inv(AdvanceClick(s, b, now)) && AdvanceClick(s, b, now).budget == s.budget
  {
    hide Inv, OwnsSale, Clicked, FirstOccupied;
    if s.phase.Selling? {
      var t := AdvanceClick(s, b, now);
      SellingExcludes(s);
      if OwnsSale(s.guard, b) {
        OwnedIsOpen(s.guard, b);
        ClickedBudget(s, b, now);
      }
      if Plain(s, t) {
        PlainKeeps(s, t);
      } else {
        var slots := b.inventory.value.slots.value;
        ClickKeeps(s, b, now, FirstOccupied(slots, s.phase.next, s.phase.end).value,
                   FirstOccupied(slots, FirstOccupied(slots, s.phase.next, s.phase.end).value + 1, s.phase.end).Some?);
      }
    }
  }

  lemma SellingExcludes(s: State)
    requires Inv(s) && !s.phase.Idle?
    ensures s.active.None?
  {
  }

  lemma OwnedIsOpen(g: Guard, b: Look)
    requires OwnsSale(g, b)
    ensures b.inventory.Some? && b.inventory.value.id != 0
  {
  }

  lemma ClickedBudget(s: State, b: Look, now: nat)
    requires s.phase.Selling?
    ensures forall slot, more :: Clicked(s, b, now, slot, more).budget == s.budget
  {
  }

  lemma StartSellingKeeps(s: State, b: Look, start: nat, id: int)
    requires Inv(s) && s.active.None?
    ensures Inv(s.(phase := Selling(id, b.session, start, start + PLAYER_SLOTS - 1, s.episode),
                   episode := s.episode + 1))
  {
    hide BudgetInv, Disciplined;
  }

  lemma SellWaitingKeeps(s: State, b: Look, now: nat)
    requires Inv(s) && s.phase.WaitingForMenu?
    ensures Inv(SellWaiting(s, b, now)) && SellWaiting(s, b, now).budget == s.budget
  {
    hide Inv, AdvanceClick, MenuUsable, Interval;
    SellingExcludes(s);
    if MenuUsable(s, b) {
      UsableIsOpen(s, b);
      var start := PlayerStart(b.inventory.value.slots.value);
      var s1 := s.(phase := Selling(b.inventory.value.id, b.session, start, start + PLAYER_SLOTS - 1, s.episode),
                   episode := s.episode + 1);
      StartSellingKeeps(s, b, start, b.inventory.value.id);
      AdvanceClickKeeps(s1, b, now);
    } else {
      PlainKeeps(s, SellWaiting(s, b, now));
    }
  }

  lemma UsableIsOpen(s: State, b: Look)
    requires s.phase.WaitingForMenu? && MenuUsable(s, b)
    ensures b.inventory.Some? && b.inventory.value.slots.Some?
  {
  }

  lemma AutosellKeeps(s: State, b: Look, now: nat)
    requires Inv(s) && Timely(s, now)
    ensures Inv(Autosell(s, b, now)) && Timely(Autosell(s, b, now), now)
  {
    hide Inv, SellIdle, SellWaiting, AdvanceClick, Paused;
    ExclusiveOf(s);
    if !s.cfg.autosell || Paused(s, now) || s.phase.Closing? {
      PlainKeeps(s, Autosell(s, b, now));
    } else if s.phase.Idle? {
      SellIdleKeeps(s, b, now);
    } else if s.phase.WaitingForMenu? {
      SellWaitingKeeps(s, b, now);
    } else {
      AdvanceClickKeeps(s, b, now);
    }
  }

  lemma ExclusiveOf(s: State)
    requires Inv(s)
    ensures Exclusive(s)
  {
  }

  lemma RecoverKeeps(s: State, b: Look, now: nat)
    requires Inv(s) && Timely(s, now)
    ensures Inv(RecoverOrphan(s, b, now).0) && Timely(RecoverOrphan(s, b, now).0, now)
  {
    hide Inv, Autosell, ManualMenuPending, OwnsSale, Paused, Interval;
    ExclusiveOf(s);
    if s.active.None? && s.phase.Idle? {
      var s1 := s.(phase := WaitingForMenu(now, false, None), clock := s.clock.(nextSellAt := now + Interval(s.cfg)));
      PlainKeeps(s, s1);
      AutosellKeeps(s1, b, now);
    }
    if Plain(s, RecoverOrphan(s, b, now).0) {
      PlainKeeps(s, RecoverOrphan(s, b, now).0);
    }
  }

  // ----- every event -----

  lemma AutomatedKeeps(s: State, looks: Looks, now: nat)
    requires Inv(s) && Timely(s, now)
    ensures Inv(Automated(s, looks, now)) && Timely(Automated(s, looks, now), now)
  {
    hide Inv, RecoverOrphan, Foreground, Autosell;
    RecoverKeeps(s, looks.orphan, now);
    var s1 := RecoverOrphan(s, looks.orphan, now).0;
    ExclusiveOf(s1);
    ForegroundIsPlain(s1, looks.foreground, now);
    PlainKeeps(s1, Foreground(s1, looks.foreground, now).0);
    AutosellKeeps(Foreground(s1, looks.foreground, now).0, looks.sell, now);
  }

  lemma TickKeeps(s: State, looks: Looks, now: nat)
    requires Inv(s) && Timely(s, now)
    ensures Inv(OnTick(s, looks, now)) && Timely(OnTick(s, looks, now), now)
  {
    hide Inv, ManualChat, Automated, Recovered, PauseBoundary;
    var s1 := PauseBoundary(Recovered(s, looks.recovery, now), now);
    ExclusiveOf(s);
    BoundaryIsPlain(s, looks.recovery, now);
    PlainKeeps(s, s1);
    ManualKeeps(s1, looks.manual, now);
    AutomatedKeeps(ManualChat(s1, looks.manual, now).0, looks, now);
  }

  lemma BoundaryIsPlain(s: State, b: Look, now: nat)
    requires Exclusive(s)
    ensures Plain(s, PauseBoundary(Recovered(s, b, now), now))
  {
  }

  lemma ControlKeeps(s: State, b: Look, now: nat)
    requires Inv(s) && Timely(s, now)
    ensures Inv(OnControl(s, b, now)) && Timely(OnControl(s, b, now), now)
  {
    hide Inv, ManualChat, Scanned;
    ManualKeeps(s, b, now);
    var s1 := ManualChat(s, b, now).0;
    ExclusiveOf(s1);
    if s1.active.Some? && s1.active.value.Scanning? {
      ScannedIsPlain(s1, b, now, s1.active.value);
      PlainKeeps(s1, OnControl(s, b, now));
    }
  }

  lemma WorldIsPlain(s: State, b: Look, now: nat)
    requires Exclusive(s)
    ensures Plain(s, Login(s, now)) && Plain(s, PositionSync(s, b, now)) && Plain(s, SpawnedIn(s, now))
    ensures Plain(s, InventoryBusy(s, now))
  {
  }

  lemma MenuIsPlain(s: State, id: int, title: Title, now: nat)
    requires Exclusive(s)
    ensures Plain(s, MenuOpened(s, id, title, now))
  {
  }

  lemma ContentIsPlain(s: State, b: Look, id: int, count: nat, now: nat)
    requires Exclusive(s)
    ensures Plain(s, ContentReceived(s, b, id, count, now)) && Plain(s, MultiplierSlot(s, id, now))
  {
  }

  lemma EnqueueKeeps(s: State, m: Manual)
    requires Inv(s)
    ensures Inv(Enqueued(s, m))
  {
    hide BudgetInv, Disciplined, Behind;
    assert s.record.dispatched + (s.queue + [m]) == s.record.dispatched + s.queue + [m];
  }

  /** A look at nothing. */
  const UNSEEN := Look(false, false, None, 0, 0, false, false)

  lemma PacketKeeps(s: State, e: Event)
    requires Inv(s) && !e.Tick? && !e.Control?
    ensures Inv(Step(s, e)) && Step(s, e).budget == s.budget
  {
    hide Inv, Login, PositionSync, SpawnedIn, MenuOpened, ContentReceived, MultiplierSlot, InventoryBusy;
    ExclusiveOf(s);
    if e.EnqueueChat? {
      EnqueueKeeps(s, Chat(Trim(e.text), e.teleports));
      if Trim(e.text) == "" {
        PlainKeeps(s, Step(s, e));
      }
    } else if e.EnqueueMultipliers? {
      EnqueueKeeps(s, SellMultipliers);
    } else {
      var look := if e.Positioned? || e.Content? then e.look else UNSEEN;
      WorldIsPlain(s, look, e.now);
      if e.MenuOpens? {
        MenuIsPlain(s, e.id, e.title, e.now);
      } else if e.Content? {
        ContentIsPlain(s, look, e.id, e.count, e.now);
      } else if e.ItemShown? {
        ContentIsPlain(s, look, e.id, 0, e.now);
      }
      PlainKeeps(s, Step(s, e));
    }
  }

  lemma StepKeeps(s: State, e: Event)
    requires Inv(s) && Timely(s, e.now)
    ensures Inv(Step(s, e)) && Timely(Step(s, e), e.now)
  {
    hide Inv, OnTick, OnControl;
    if e.Tick? {
      TickKeeps(s, e.looks, e.now);
    } else if e.Control? {
      ControlKeeps(s, e.look, e.now);
    } else {
      PacketKeeps(s, e);
    }
  }

  // ----- whole runs -----

  function LastTime(start: nat, events: seq<Event>, n: nat): nat
    requires n <= |events|
  {
    if n == 0 then start else events[n - 1].now
  }

  /** Time does not go backwards. */
  predicate InOrder(start: nat, events: seq<Event>) {
    forall n :: 0 <= n < |events| ==> LastTime(start, events, n) <= events[n].now
  }

  lemma StartsWell(cfg: Config, pause: Option<(nat, nat)>, start: nat)
    ensures Inv(Initial(cfg, pause, start)) && Timely(Initial(cfg, pause, start), start)
  {
  }

  lemma {:induction false} RunKeeps(cfg: Config, pause: Option<(nat, nat)>, start: nat, events: seq<Event>, n: nat)
    requires n <= |events| && InOrder(start, events)
    ensures Inv(At(Initial(cfg, pause, start), events, n))
    ensures Timely(At(Initial(cfg, pause, start), events, n), LastTime(start, events, n))
  {
    hide Inv, Step;
    var init := Initial(cfg, pause, start);
    if n == 0 {
      StartsWell(cfg, pause, start);
    } else {
      RunKeeps(cfg, pause, start, events, n - 1);
      assert LastTime(start, events, n - 1) <= events[n - 1].now;
      StepKeeps(At(init, events, n - 1), events[n - 1]);
    }
  }

  /** A foreground task never runs beside an auto-sell cycle; manual commands sent and queued
      are exactly those asked for, in order. */
  lemma OneAtATimeInOrder(cfg: Config, pause: Option<(nat, nat)>, start: nat, events: seq<Event>, n: nat)
    requires n <= |events| && InOrder(start, events)
    ensures var s := At(Initial(cfg, pause, start), events, n);
            && (s.active.Some? ==> s.phase.Idle?)
            && s.record.dispatched + s.queue == s.record.enqueued
  {
    hide At, BudgetInv, Disciplined, Behind;
    RunKeeps(cfg, pause, start, events, n);
  }

  /** In any window of length T at most 3 + T / 1.5 s commands go out, manual and automatic together. */
  lemma CommandBound(cfg: Config, pause: Option<(nat, nat)>, start: nat, events: seq<Event>, n: nat, i: nat, j: nat)
    requires n <= |events| && InOrder(start, events)
    requires i <= j < |At(Initial(cfg, pause, start), events, n).record.sent|
    ensures var sent := At(Initial(cfg, pause, start), events, n).record.sent;
            sent[i] <= sent[j] && (j - i + 1) as real <= 3.0 + (sent[j] - sent[i]) as real / 1500.0
  {
    hide At, Disciplined, Behind, Paid, Windowed;
    RunKeeps(cfg, pause, start, events, n);
    InWindow(At(Initial(cfg, pause, start), events, n).record.sent, i, j);
  }

  /** Automatic clicks: each in its cycle's own menu on an occupied slot of the player, slots
      ascending within a cycle, and any two at least 100 ms apart. */
  lemma ClicksAreDisciplined(cfg: Config, pause: Option<(nat, nat)>, start: nat, events: seq<Event>, n: nat)
    requires n <= |events| && InOrder(start, events)
    ensures Disciplined(At(Initial(cfg, pause, start), events, n).record.clicks)
  {
    hide At, Disciplined, Behind, BudgetInv;
    RunKeeps(cfg, pause, start, events, n);
  }

  // ----- the server's spam counter -----

  const SERVER_TICK_MS := 50
  const COMMAND_POINTS := 20

  /** The server ticks after `from` up to `to`; `phase` says when its ticks fall. */
  function ServerTicks(from: nat, to: nat, phase: nat): int {
    (to + phase) / SERVER_TICK_MS - (from + phase) / SERVER_TICK_MS
  }

  /** The counter right after the first `n` commands: a point less every tick, twenty more every command. */
  function Counter(sent: seq<nat>, phase: nat, n: nat): int
    requires n <= |sent|
  {
    if n == 0 then 0
    else if n == 1 then COMMAND_POINTS
    else
      var decayed := Counter(sent, phase, n - 1) - ServerTicks(sent[n - 2], sent[n - 1], phase);
      COMMAND_POINTS + if decayed > 0 then decayed else 0
  }

  /** The counter counts the commands since it was last at zero. */
  lemma {:induction false} CounterSince(sent: seq<nat>, phase: nat, n: nat) returns (i: nat)
    requires 0 < n <= |sent|
    ensures i < n && Counter(sent, phase, n) == COMMAND_POINTS * (n - i) - ServerTicks(sent[i], sent[n - 1], phase)
  {
    i := n - 1;
    if n > 1 && Counter(sent, phase, n - 1) - ServerTicks(sent[n - 2], sent[n - 1], phase) > 0 {
      i := CounterSince(sent, phase, n - 1);
    }
  }

  lemma TicksKeepUp(from: nat, to: nat, phase: nat)
    requires from <= to
    ensures 50 * ServerTicks(from, to, phase) >= to - from - 49
  {
  }

  lemma PointsFit(count: nat, gap: nat, ticks: int)
    requires count as real <= 3.0 + gap as real / 1500.0 && 50 * ticks >= gap - 49
    ensures 20 * count - ticks <= 60
  {
    assert 1500.0 * count as real <= 4500.0 + gap as real;
    assert (1500 * count) as real == 1500.0 * count as real;
    assert 1500 * count <= 4500 + gap;
  }

  /** So commands never bring the server's counter above 60. */
  lemma CounterStaysLow(cfg: Config, pause: Option<(nat, nat)>, start: nat, events: seq<Event>, n: nat, phase: nat,
                        k: nat)
    requires n <= |events| && InOrder(start, events)
    requires k <= |At(Initial(cfg, pause, start), events, n).record.sent|
    ensures 0 <= Counter(At(Initial(cfg, pause, start), events, n).record.sent, phase, k) <= 60
  {
    hide At, ServerTicks, Counter;
    var sent := At(Initial(cfg, pause, start), events, n).record.sent;
    CounterIsNat(sent, phase, k);
    if k > 0 {
      var i := CounterSince(sent, phase, k);
      CommandBound(cfg, pause, start, events, n, i, k - 1);
      TicksKeepUp(sent[i], sent[k - 1], phase);
      PointsFit(k - i, sent[k - 1] - sent[i], ServerTicks(sent[i], sent[k - 1], phase));
    }
  }

  lemma CounterIsNat(sent: seq<nat>, phase: nat, n: nat)
    requires n <= |sent|
    ensures Counter(sent, phase, n) >= 0 && (n == 0 ==> Counter(sent, phase, n) == 0)
  {
  }

  // ----- spawner runs -----

  predicate ClicksNow(move: Move) {
    move.Throw? || move.Press?
  }

  lemma TypedBatch(cfg: Config, p: Spawner, slots: seq<Stack>, now: nat)
    requires TypedTurn(cfg, p, slots, now).Throw?
    ensures var matching := Matching(slots, ContainerLength(slots), cfg.dropItems);
            |matching| > 1 && TypedTurn(cfg, p, slots, now).slots == matching[..|matching| - 1]
  {
    hide Matching, SellTurn;
    SellingThrowsNothing(cfg, Progressed(p, |Matching(slots, ContainerLength(slots), cfg.sellItems)|), slots, now);
  }

  /** A slot of the container with an item that is to be dropped. */
  predicate ToDrop(cfg: Config, slots: seq<Stack>, x: int) {
    0 <= x < ContainerLength(slots) && slots[x].present && Lists(cfg.dropItems, slots[x].item)
  }

  ghost predicate AllThrownBut(cfg: Config, slots: seq<Stack>, thrown: seq<nat>, left: int) {
    forall x :: ToDrop(cfg, slots, x) && x != left ==> x in thrown
  }

  /** With a type configured a drop batch throws stacks of items to drop, and all but one of them. */
  lemma BatchLeavesOne(cfg: Config, p: Spawner, b: Look, now: nat)
    requires Trim(cfg.spawnerType) != "" && SpawnerTurn(cfg, p, b, now).Throw?
    ensures b.inventory.Some? && b.inventory.value.slots.Some?
    ensures var slots, thrown := b.inventory.value.slots.value, SpawnerTurn(cfg, p, b, now).slots;
            && (forall x :: x in thrown ==> ToDrop(cfg, slots, x))
            && exists left :: ToDrop(cfg, slots, left) && left !in thrown && AllThrownBut(cfg, slots, thrown, left)
  {
    hide Lists, TypedTurn, LegacyTurn, Trim, Matching;
    var slots := b.inventory.value.slots.value;
    TypedBatch(cfg, Started(cfg, p), slots, now);
    var matching := Matching(slots, ContainerLength(slots), cfg.dropItems);
    AllButLast(cfg, slots, matching, matching[..|matching| - 1], matching[|matching| - 1]);
  }

  lemma AllButLast(cfg: Config, slots: seq<Stack>, matching: seq<nat>, thrown: seq<nat>, left: nat)
    requires matching != [] && thrown == matching[..|matching| - 1] && left == matching[|matching| - 1]
    requires forall x :: x in matching <==> ToDrop(cfg, slots, x)
    requires forall i, j :: 0 <= i < j < |matching| ==> matching[i] < matching[j]
    ensures (forall x :: x in thrown ==> ToDrop(cfg, slots, x)) && ToDrop(cfg, slots, left) && left !in thrown
    ensures AllThrownBut(cfg, slots, thrown, left)
  {
    hide Lists, ContainerLength;
    forall x | x in thrown ensures ToDrop(cfg, slots, x) {
      assert x in matching;
    }
    assert left in matching;
    forall x | ToDrop(cfg, slots, x) && x != left ensures x in thrown {
      assert x in matching;
    }
  }

  lemma SellingThrowsNothing(cfg: Config, p: Spawner, slots: seq<Stack>, now: nat)
    ensures !SellTurn(cfg, p, slots, now).Throw?
  {
  }

  /** The slot pressed to sell holds nothing that is configured to be dropped or sold. */
  lemma PressIsNoStock(cfg: Config, p: Spawner, b: Look, now: nat)
    requires SpawnerTurn(cfg, p, b, now).Press?
    ensures b.inventory.Some? && b.inventory.value.slots.Some?
    ensures var slots, slot := b.inventory.value.slots.value, SpawnerTurn(cfg, p, b, now).slot;
            && slot < ContainerLength(slots) && slots[slot].present && slots[slot].sells
            && !Lists(cfg.dropItems, slots[slot].item) && !Lists(cfg.sellItems, slots[slot].item)
  {
    hide Trim;
    var slots, slot := b.inventory.value.slots.value, SpawnerTurn(cfg, p, b, now).slot;
    forall n | n in cfg.dropItems || n in cfg.sellItems ensures Bare(n) != Bare(slots[slot].item) {
      assert n in cfg.dropItems + cfg.sellItems;
    }
  }

  /** The clicks of a run against any settings, looks and times. */
  function Clicks(p: Spawner, turns: seq<(Config, Look, nat)>): nat
    decreases |turns|
  {
    if turns == [] then 0
    else
      match SpawnerTurn(turns[0].0, p, turns[0].1, turns[0].2)
      case Nothing => Clicks(p, turns[1..])
      case Later(p1) => Clicks(p1, turns[1..])
      case End => 0
      case Throw(p1, _) => 1 + Clicks(p1, turns[1..])
      case Press(p1, _) => 1 + Clicks(p1, turns[1..])
  }

  lemma TurnCounts(cfg: Config, p: Spawner, b: Look, now: nat)
    ensures var move := SpawnerTurn(cfg, p, b, now);
            && (move.Later? ==> p.steps <= move.p.steps)
            && (ClicksNow(move) ==> p.steps < MAX_STEPS && move.p.steps == p.steps + 1)
            && (move.Later? || ClicksNow(move) ==>
                  move.p.runDeadline == p.runDeadline && move.p.menuDeadline == p.menuDeadline)
  {
    hide Matching, Present, SellSlot, Trim;
  }

  /** A run makes at most 200 steps with clicks. */
  lemma {:induction false} RunIsBounded(p: Spawner, turns: seq<(Config, Look, nat)>)
    ensures Clicks(p, turns) <= if p.steps <= MAX_STEPS then MAX_STEPS - p.steps else 0
    decreases |turns|
  {
    hide SpawnerTurn;
    if turns != [] {
      TurnCounts(turns[0].0, p, turns[0].1, turns[0].2);
      match SpawnerTurn(turns[0].0, p, turns[0].1, turns[0].2)
      case Nothing => RunIsBounded(p, turns[1..]);
      case Later(p1) => RunIsBounded(p1, turns[1..]);
      case End =>
      case Throw(p1, _) => RunIsBounded(p1, turns[1..]);
      case Press(p1, _) => RunIsBounded(p1, turns[1..]);
    }
  }

  /** The first turn after its deadline that finds an inventory ends a run, whatever it shows. */
  lemma DeadlineEnds(cfg: Config, p: Spawner, b: Look, now: nat)
    requires b.inventory.Some? && now >= p.runDeadline && p.menuDeadline <= p.runDeadline
    ensures SpawnerTurn(cfg, p, b, now).End?
  {
  }

  predicate Deadlines(active: Option<Active>) {
    active.Some? && active.value.Cleaning? ==>
      var p := active.value.spawner; p.menuDeadline <= p.runDeadline && p.steps <= MAX_STEPS + MAX_STALLS
  }

  /** No spawner run is begun or moved on. */
  predicate NoRunMoved(s: State, t: State) {
    t.active == s.active || t.active.None? || t.active.value.Scanning?
  }

  lemma ManualMovesNoRun(s: State, b: Look, now: nat)
    ensures NoRunMoved(s, ManualChat(s, b, now).0)
    ensures ManualChat(s, b, now).0.active != s.active ==>
              !(ManualChat(s, b, now).0.active.Some? && ManualChat(s, b, now).0.active.value.Cleaning?)
    ensures ManualChat(s, b, now).0.active == s.active && s.active.Some? && s.active.value.Cleaning? ==>
              ManualChat(s, b, now).0.world == s.world && ManualChat(s, b, now).0.guard == s.guard
              && !ManualChat(s, b, now).1
  {
    hide Refilled, Cancelling;
  }

  lemma SellingMovesNoRun(s: State, b: Look, now: nat)
    ensures Autosell(s, b, now).active == s.active && RecoverOrphan(s, b, now).0.active == s.active
  {
    hide Refilled, ManualMenuPending, OwnsSale, MenuUsable, FirstOccupied, Paused, Interval;
  }

  lemma PacketsMoveNoRun(s: State, e: Event)
    requires !e.Tick?
    ensures NoRunMoved(s, Step(s, e))
  {
    hide ManualChat;
    if e.Control? {
      ManualMovesNoRun(s, e.look, e.now);
    }
  }

  lemma TurnKeepsDeadlines(s: State, b: Look, now: nat)
    requires Deadlines(s.active)
    ensures Deadlines(Foreground(s, b, now).0.active)
  {
    hide SpawnerTurn, Scanned, ManualMenuPending, Paused;
    if s.active.Some? {
      if s.active.value.Cleaning? {
        TurnCounts(s.cfg, s.active.value.spawner, b, now);
        TurnStepsLittle(s.cfg, s.active.value.spawner, b, now);
      } else {
        ScannedActive(s, b, now, s.active.value);
      }
    }
  }

  lemma TurnStepsLittle(cfg: Config, p: Spawner, b: Look, now: nat)
    ensures var move := SpawnerTurn(cfg, p, b, now);
            move.Later? || ClicksNow(move) ==> p.steps < MAX_STEPS && move.p.steps <= p.steps + 1
  {
    hide Matching, Present, SellSlot, Trim;
  }

  lemma ScannedActive(s: State, b: Look, now: nat, p: Active)
    requires p.Scanning? && s.active == Some(p)
    ensures Scanned(s, b, now, p).active.None? || Scanned(s, b, now, p).active.value.Scanning?
  {
  }

  lemma TickKeepsDeadlines(s: State, looks: Looks, now: nat)
    requires Deadlines(s.active)
    ensures Deadlines(OnTick(s, looks, now).active)
  {
    hide ManualChat, RecoverOrphan, Foreground, Autosell, Deadlines;
    var s1 := PauseBoundary(Recovered(s, looks.recovery, now), now);
    BoundaryMovesNoRun(s, looks.recovery, now);
    var s2 := ManualChat(s1, looks.manual, now).0;
    ManualMovesNoRun(s1, looks.manual, now);
    MovedKeeps(s, s1);
    MovedKeeps(s1, s2);
    SellingMovesNoRun(s2, looks.orphan, now);
    TurnKeepsDeadlines(RecoverOrphan(s2, looks.orphan, now).0, looks.foreground, now);
    SellingMovesNoRun(Foreground(RecoverOrphan(s2, looks.orphan, now).0, looks.foreground, now).0, looks.sell, now);
  }

  lemma MovedKeeps(s: State, t: State)
    requires NoRunMoved(s, t) && Deadlines(s.active)
    ensures Deadlines(t.active)
  {
  }

  lemma BoundaryMovesNoRun(s: State, b: Look, now: nat)
    ensures NoRunMoved(s, PauseBoundary(Recovered(s, b, now), now))
    ensures s.world.spawned ==> PauseBoundary(Recovered(s, b, now), now).world == s.world
    ensures s.world.spawned && !PauseBoundary(Recovered(s, b, now), now).active.None? ==>
              PauseBoundary(Recovered(s, b, now), now) == s
  {
  }

  lemma {:induction false} RunsHaveDeadlines(init: State, events: seq<Event>, n: nat)
    requires n <= |events| && init.active.None?
    ensures Deadlines(At(init, events, n).active)
  {
    hide Step, Deadlines;
    if n > 0 {
      RunsHaveDeadlines(init, events, n - 1);
      var s, e := At(init, events, n - 1), events[n - 1];
      if e.Tick? {
        TickKeepsDeadlines(s, e.looks, e.now);
        TickStep(s, e);
      } else {
        PacketsMoveNoRun(s, e);
        MovedKeeps(s, Step(s, e));
      }
    } else {
      NoTaskNoDeadline(init);
    }
  }

  lemma TickStep(s: State, e: Event)
    requires e.Tick?
    ensures Step(s, e) == OnTick(s, e.looks, e.now)
  {
    hide OnTick;
  }

  lemma NoTaskNoDeadline(s: State)
    requires s.active.None?
    ensures Deadlines(s.active)
  {
  }

  /** A tick that may work and sees an inventory. */
  predicate Usable(s: State, looks: Looks, now: nat) {
    && s.world.spawned && now >= s.world.readyAt && looks.orphan.inGame && looks.foreground.inventory.Some?
    && !ManualMenuPending(s.guard, looks.foreground, now)
  }

  predicate Runs(active: Option<Active>, deadline: nat) {
    active.Some? && active.value.Cleaning? && active.value.spawner.runDeadline == deadline
  }

  /** A spawner run is over after the first usable tick from its deadline on. */
  lemma RunEndsAtDeadline(init: State, events: seq<Event>, n: nat)
    requires n < |events| && init.active.None? && events[n].Tick?
    requires Usable(At(init, events, n), events[n].looks, events[n].now)
    requires At(init, events, n).active.Some? && At(init, events, n).active.value.Cleaning?
    requires events[n].now >= At(init, events, n).active.value.spawner.runDeadline
    ensures !Runs(At(init, events, n + 1).active, At(init, events, n).active.value.spawner.runDeadline)
  {
    hide At, OnTick, Usable;
    RunsHaveDeadlines(init, events, n);
    AtNext(init, events, n);
    TickStep(At(init, events, n), events[n]);
    TickEnds(At(init, events, n), events[n].looks, events[n].now);
  }

  lemma AtNext(init: State, events: seq<Event>, n: nat)
    requires n < |events|
    ensures At(init, events, n + 1) == Step(At(init, events, n), events[n])
  {
    hide Step;
  }

  lemma TickEnds(s: State, looks: Looks, now: nat)
    requires Usable(s, looks, now) && s.active.Some? && s.active.value.Cleaning? && Deadlines(s.active)
    requires now >= s.active.value.spawner.runDeadline
    ensures !Runs(OnTick(s, looks, now).active, s.active.value.spawner.runDeadline)
  {
    hide ManualChat, RecoverOrphan, Foreground, Autosell, ManualMenuPending, Recovered, PauseBoundary;
    var s1 := PauseBoundary(Recovered(s, looks.recovery, now), now);
    BoundaryMovesNoRun(s, looks.recovery, now);
    var s2 := ManualChat(s1, looks.manual, now).0;
    ManualMovesNoRun(s1, looks.manual, now);
    if s2.active.Some? {
      RecoveryWaits(s2, looks.orphan, now);
    }
    SellingMovesNoRun(s2, looks.orphan, now);
    var s3 := RecoverOrphan(s2, looks.orphan, now).0;
    SellingMovesNoRun(Foreground(s3, looks.foreground, now).0, looks.sell, now);
    if s3.active == s.active {
      ForegroundEnds(s3, looks.foreground, now);
    } else {
      NewRunIsLater(s3, looks.foreground, now, s.active.value.spawner.runDeadline);
    }
  }

  lemma RecoveryWaits(s: State, b: Look, now: nat)
    requires s.active.Some?
    ensures RecoverOrphan(s, b, now) == (s, false)
  {
    hide Autosell;
  }

  lemma ForegroundEnds(s: State, b: Look, now: nat)
    requires s.active.Some? && s.active.value.Cleaning? && Deadlines(s.active)
    requires now >= s.active.value.spawner.runDeadline
    requires b.inventory.Some? && !ManualMenuPending(s.guard, b, now)
    ensures !Runs(Foreground(s, b, now).0.active, s.active.value.spawner.runDeadline)
  {
    hide SpawnerTurn, ManualMenuPending, Paused;
    DeadlineEnds(s.cfg, s.active.value.spawner, b, now);
  }

  lemma NewRunIsLater(s: State, b: Look, now: nat, deadline: nat)
    requires now >= deadline && !(s.active.Some? && s.active.value.Cleaning?)
    ensures !Runs(Foreground(s, b, now).0.active, deadline)
  {
    hide ManualMenuPending, Paused;
  }
}
