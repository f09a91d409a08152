/** The native scheduler as an object: its fields are changed in place by every handler, and
    it never leaves the runs of `NativeSafety`. */
module NativeBehaviors {
  import opened Wrappers
  import opened NativeScheduler
  import opened NativeSafety

  class BehaviorState {
    var config: Config
    var nextAutosellAt: nat
    var nextAutosellClickAt: nat
    var restartSellPause: Option<(nat, nat)>
    var manualChatQueue: seq<Manual>
    var tokens: real
    var updatedAt: nat
    var autosellPhase: Phase
    var spawned: bool
    var awaitingRespawnPosition: bool
    var transitionRecoveryAt: Option<nat>
    var automationReadyAt: nat
    var guard: Guard
    var taskQueue: nat
    var activeTask: Option<Active>
    var episode: nat
    ghost var record: Record
    ghost const firstCfg: Config
    ghost const firstPause: Option<(nat, nat)>
    ghost const start: nat
    ghost var events: seq<Event>

    ghost function View(): State
      reads this
    {
      State(config, Clock(nextAutosellAt, nextAutosellClickAt, restartSellPause), manualChatQueue,
            Budget(tokens, updatedAt),
            autosellPhase, World(spawned, awaitingRespawnPosition, transitionRecoveryAt, automationReadyAt), guard,
            taskQueue, activeTask, episode, record)
    }

    /** The fields are where a new scheduler is after `events`, in which time did not go back. */
    ghost predicate Valid()
      reads this
    {
      View() == At(Initial(firstCfg, firstPause, start), events, |events|) && InOrder(start, events)
    }

    /** The time of the last event, or of the start. */
    ghost function Now(): nat
      reads this
    {
      LastTime(start, events, |events|)
    }

    /** A foreground task and a sale exclude each other. */
    ghost predicate OneAtATime()
      reads this
    {
      activeTask.Some? ==> autosellPhase.Idle?
    }

    /** The manual commands sent, and then those queued, are those asked for. */
    ghost predicate InTurn()
      reads this
    {
      record.dispatched + manualChatQueue == record.enqueued
    }

    /** No window sees more commands than its budget, and the server's counter stays low. */
    ghost predicate WithinBudget()
      reads this
    {
      && (forall i, j :: 0 <= i <= j < |record.sent| ==>
            && record.sent[i] <= record.sent[j]
            && (j - i + 1) as real <= BURST + (record.sent[j] - record.sent[i]) as real / TOKEN_MS as real)
      && forall phase: nat, k: nat :: k <= |record.sent| ==> 0 <= Counter(record.sent, phase, k) <= 60
    }

    /** What holds of the object whenever it rests. */
    lemma ValidIsSafe()
      requires Valid()
      ensures OneAtATime() && InTurn() && WithinBudget() && Disciplined(record.clicks)
    {
      hide At, Counter, Disciplined;
      OneAtATimeInOrder(firstCfg, firstPause, start, events, |events|);
      ClicksAreDisciplined(firstCfg, firstPause, start, events, |events|);
      forall i: nat, j: nat | i <= j < |record.sent|
        ensures record.sent[i] <= record.sent[j]
        ensures (j - i + 1) as real <= BURST + (record.sent[j] - record.sent[i]) as real / TOKEN_MS as real
      {
        CommandBound(firstCfg, firstPause, start, events, |events|, i, j);
      }
      forall phase: nat, k: nat | k <= |record.sent| ensures 0 <= Counter(record.sent, phase, k) <= 60 {
        CounterStaysLow(firstCfg, firstPause, start, events, |events|, phase, k);
      }
    }

    constructor (cfg: Config, pause: Option<(nat, nat)>, now: nat)
      ensures Valid() && events == [] && Now() == now
    {
      config, nextAutosellAt, nextAutosellClickAt, restartSellPause := cfg, now, now, pause;
      manualChatQueue, tokens, updatedAt, autosellPhase := [], BURST, now, Idle;
      spawned, awaitingRespawnPosition, transitionRecoveryAt, automationReadyAt := false, false, None, now;
      guard, taskQueue, activeTask, episode := Guard(None, None, None, None, None, None), 0, None, 0;
      record, firstCfg, firstPause, start, events := Record([], [], [], []), cfg, pause, now, [];
    }

    // ----- the budget -----

    method Ready(now: nat) returns (ready: bool)
      modifies this`tokens, this`updatedAt
      ensures Budget(tokens, updatedAt) == Refilled(Budget(old(tokens), old(updatedAt)), now)
      ensures ready <==> tokens >= 1.0
    {
      var elapsed := if now > updatedAt then now - updatedAt else 0;
      tokens := tokens + elapsed as real / TOKEN_MS as real;
      if tokens >= BURST {
        tokens := BURST;
      }
      updatedAt := now;
      ready := tokens >= 1.0;
    }

    method Spend(now: nat)
      modifies this`tokens, this`record
      ensures View() == Spent(old(View()), now)
    {
      tokens := tokens - 1.0;
      record := record.(sent := record.sent + [now]);
    }

    // ----- the world -----

    method PostponeAutomationUntil(at: nat)
      modifies this`automationReadyAt, this`nextAutosellAt
      ensures View() == Postponed(old(View()), at)
    {
      if at > automationReadyAt {
        automationReadyAt := at;
      }
      if at > nextAutosellAt {
        nextAutosellAt := at;
      }
    }

    method ResetInteractions()
      modifies this`autosellPhase, this`activeTask, this`guard
      ensures View() == Reset(old(View()))
    {
      autosellPhase := Idle;
      activeTask := None;
      guard := guard.(menuUntil := None, menuId := None, requestedAt := None, sellMenu := None);
    }

    method OnLogin(now: nat)
      modifies this
      ensures View() == Login(old(View()), now) && events == old(events)
    {
      hide Reset;
      ResetInteractions();
      ResetKeepsWorld(old(View()));
      spawned := false;
      awaitingRespawnPosition := true;
      transitionRecoveryAt := Some(now + RECOVERY_MS);
    }

    method OnPositionSync(b: Look, now: nat)
      modifies this
      ensures View() == PositionSync(old(View()), b, now) && events == old(events)
    {
      hide Reset, Postponed;
      if awaitingRespawnPosition {
        if !b.loaded {
          return;
        }
        spawned := true;
        awaitingRespawnPosition := false;
        transitionRecoveryAt := None;
        PostponeAutomationUntil(now + SPAWN_MS);
      }
      if !spawned {
        return;
      }
      ResetInteractions();
      PostponeAutomationUntil(now + 100);
      nextAutosellAt := automationReadyAt;
    }

    method OnSpawn(now: nat)
      modifies this
      ensures View() == SpawnedIn(old(View()), now) && events == old(events)
    {
      hide Reset;
      ResetInteractions();
      ResetKeepsWorld(old(View()));
      spawned := true;
      awaitingRespawnPosition := false;
      transitionRecoveryAt := None;
      automationReadyAt := now + SPAWN_MS;
      nextAutosellAt := automationReadyAt;
    }

    method RecoverLoadedWorld(b: Look, now: nat)
      modifies this
      ensures View() == Recovered(old(View()), b, now) && events == old(events)
    {
      hide SpawnedIn;
      if !spawned && transitionRecoveryAt.Some? && now >= transitionRecoveryAt.value && b.inGame && b.loaded
         && b.inventory.Some? {
        OnSpawn(now);
      }
    }

    // ----- manual commands -----

    method Interrupt(task: Manual, b: Look, now: nat)
      modifies this
      ensures View() == Interrupting(old(View()), task, b, now) && events == old(events)
    {
      hide Reset, OwnsSale, Trim;
      if Line(task) == Trim(config.command) {
        guard := guard.(cancelledUntil := None);
      } else if guard.requestedAt.Some? || !autosellPhase.Idle? || OwnsSale(guard, b) {
        guard := guard.(cancelledUntil := Some(now + LATE_MENU_MS));
      }
      guard := guard.(priorityUntil := Some(now + MANUAL_GUARD_MS));
      ResetInteractions();
    }

    method GuardAfter(task: Manual, now: nat)
      modifies this
      ensures View() == AfterCommand(old(View()), task, now) && events == old(events)
    {
      hide Postponed;
      PostponeAutomationUntil(now + if task.Chat? && task.teleports then 750 else 100);
      if task.SellMultipliers? {
        guard := guard.(priorityUntil := None, menuUntil := None);
        activeTask := Some(Scanning(now + 10000, None, now));
      } else {
        guard := guard.(menuUntil := if task.text != "" && task.text[0] == '/' then Some(now + MANUAL_GUARD_MS)
                                     else None);
      }
    }

    method TickManualChat(b: Look, now: nat) returns (ran: bool)
      modifies this
      ensures (View(), ran) == ManualChat(old(View()), b, now) && events == old(events)
    {
      hide Refilled, Interrupting, AfterCommand;
      ran := false;
      if !b.inGame {
        return;
      }
      var ready := Ready(now);
      if !ready || manualChatQueue == [] {
        return;
      }
      ghost var before := View();
      var task := manualChatQueue[0];
      manualChatQueue := manualChatQueue[1..];
      QueueDoesNotMatter(before, manualChatQueue, task, b, now);
      Interrupt(task, b, now);
      if !b.sends {
        manualChatQueue := [task] + manualChatQueue;
        assert manualChatQueue == before.queue;
        return;
      }
      Dispatched(task, now);
      ran := true;
    }

    method Dispatched(task: Manual, now: nat)
      modifies this
      ensures events == old(events)
      ensures var s := Spent(old(View()), now);
              View() == AfterCommand(s.(record := s.record.(dispatched := s.record.dispatched + [task])), task, now)
    {
      hide AfterCommand;
      Spend(now);
      record := record.(dispatched := record.dispatched + [task]);
      GuardAfter(task, now);
    }

    // ----- foreground tasks -----

    method AdvanceSellMultipliers(b: Look, now: nat)
      requires activeTask.Some? && activeTask.value.Scanning?
      modifies this`activeTask, this`nextAutosellAt
      ensures View() == Scanned(old(View()), b, now, old(activeTask).value)
    {
      var p := activeTask.value;
      if now < p.nextCheck && now < p.deadline {
        return;
      }
      activeTask := Some(p.(nextCheck := now + 50));
      if b.inventory.Some? && b.inventory.value.id != 0 && Some(b.inventory.value.id) == p.menu
         && b.inventory.value.multipliers {
        activeTask := None;
        nextAutosellAt := Max(nextAutosellAt, now + ORPHAN_MS);
      } else if now >= p.deadline {
        activeTask := None;
      }
    }

    /** Clicks go out as the move says. */
    method AdvanceCleanSpawner(b: Look, now: nat) returns (move: Move)
      requires activeTask.Some? && activeTask.value.Cleaning?
      modifies this`activeTask
      ensures move == SpawnerTurn(config, old(activeTask).value.spawner, b, now) && View() == Cleaned(old(View()), move)
    {
      hide SpawnerTurn;
      move := SpawnerTurn(config, activeTask.value.spawner, b, now);
      match move
      case Nothing =>
      case Later(p) => activeTask := Some(Cleaning(p));
      case End => activeTask := None;
      case Throw(p, _) => activeTask := Some(Cleaning(p));
      case Press(p, _) => activeTask := Some(Cleaning(p));
    }

    method StartNextTask(b: Look, now: nat)
      modifies this`taskQueue, this`activeTask
      ensures View() == StartTask(old(View()), b, now)
    {
      var paused := restartSellPause.Some? && restartSellPause.value.0 <= now < restartSellPause.value.1;
      if paused || b.inventory.None? || b.inventory.value.id != 0 || taskQueue == 0 {
        return;
      }
      taskQueue := taskQueue - 1;
      if b.spawnerInReach {
        activeTask := Some(Cleaning(Spawner(now + SPAWNER_MENU_MS, now + SPAWNER_RUN_MS, 0, WaitMenu, now, None, 0, 0,
                                            0, 0)));
      }
    }

    method TickForeground(b: Look, now: nat) returns (ran: bool)
      modifies this`taskQueue, this`activeTask, this`nextAutosellAt
      ensures (View(), ran) == Foreground(old(View()), b, now)
    {
      hide ManualMenuPending, SpawnerTurn, Scanned, StartTask, Cleaned;
      if ManualMenuPending(guard, b, now) {
        return false;
      }
      ran := activeTask.Some?;
      if activeTask.Some? {
        match activeTask.value {
          case Cleaning(_) =>
            var _ := AdvanceCleanSpawner(b, now);
          case Scanning(_, _, _) => AdvanceSellMultipliers(b, now);
        }
      }
      if activeTask.None? && autosellPhase.Idle? && taskQueue > 0 {
        ran := true;
        StartNextTask(b, now);
      }
    }

    // ----- auto-sell -----

    method RequestSale(b: Look, now: nat)
      modifies this`tokens, this`record, this`nextAutosellAt, this`guard, this`autosellPhase
      ensures View() == Requested(old(View()), b, now)
    {
      nextAutosellAt := now + Interval(config);
      guard := guard.(requestedAt := Some(now), cancelledUntil := None);
      Spend(now);
      autosellPhase := WaitingForMenu(now, b.items == 0, None);
    }

    method StartCycle(b: Look, now: nat)
      modifies this`tokens, this`updatedAt, this`record, this`nextAutosellAt, this`guard, this`autosellPhase
      ensures View() == SellIdle(old(View()), b, now)
    {
      hide ManualMenuPending, Refilled, Requested;
      if activeTask.Some? || taskQueue > 0 || ManualMenuPending(guard, b, now) || now < nextAutosellAt {
        return;
      }
      var ready := Ready(now);
      if ready && !(b.inventory.Some? && b.inventory.value.id != 0) {
        RequestSale(b, now);
      }
    }

    method Click(b: Look, now: nat, slot: nat, more: bool)
      requires autosellPhase.Selling?
      modifies this`record, this`nextAutosellClickAt, this`autosellPhase
      ensures View() == Clicked(old(View()), b, now, slot, more)
    {
      hide OwnsSale;
      var p := autosellPhase;
      record := record.(clicks := record.clicks
        + [NativeScheduler.Click(now, slot, p.menu, p.session, p.episode, b, OwnsSale(guard, b))]);
      nextAutosellClickAt := now + CLICK_MS;
      autosellPhase := if more then p.(next := slot + 1) else Closing(now + CLOSE_MS, p.menu, p.session);
    }

    method AdvanceAutosellClick(b: Look, now: nat)
      modifies this`record, this`nextAutosellClickAt, this`autosellPhase
      ensures View() == AdvanceClick(old(View()), b, now)
    {
      hide FirstOccupied, Clicked, OwnsSale;
      if !autosellPhase.Selling? {
        return;
      }
      var p := autosellPhase;
      if b.session != p.session || !OwnsSale(guard, b) {
        autosellPhase := Idle;
        return;
      }
      OwnedIsOpen(guard, b);
      if b.inventory.value.slots.None? {
        return;
      }
      var slots := b.inventory.value.slots.value;
      if b.inventory.value.id != p.menu || PlayerEnd(slots) != p.end {
        autosellPhase := Idle;
        return;
      }
      var slot := FirstOccupied(slots, p.next, p.end);
      if slot.None? {
        autosellPhase := Closing(now + CLOSE_MS, p.menu, p.session);
      } else if now >= nextAutosellClickAt {
        Click(b, now, slot.value, FirstOccupied(slots, slot.value + 1, p.end).Some?);
      }
    }

    method AwaitMenu(b: Look, now: nat)
      requires autosellPhase.WaitingForMenu?
      modifies this`record, this`nextAutosellClickAt, this`nextAutosellAt, this`episode, this`autosellPhase
      ensures View() == SellWaiting(old(View()), b, now)
    {
      hide MenuUsable, AdvanceClick, Interval;
      var p := autosellPhase;
      if MenuUsableNow(b) {
        UsableIsOpen(View(), b);
        var slots := b.inventory.value.slots.value;
        autosellPhase := Selling(b.inventory.value.id, b.session, PlayerStart(slots), PlayerEnd(slots), episode);
        episode := episode + 1;
        AdvanceAutosellClick(b, now);
      } else if now - p.since >= MENU_TIMEOUT_MS {
        autosellPhase := Idle;
        var retryAt := Max(now + ORPHAN_MS, p.since + Interval(config));
        nextAutosellAt := if p.startedEmpty && b.items > 0 then retryAt else Max(nextAutosellAt, retryAt);
      }
    }

    predicate MenuUsableNow(b: Look)
      requires autosellPhase.WaitingForMenu?
      reads this
      ensures MenuUsableNow(b) <==> MenuUsable(View(), b)
    {
      && OwnsSale(guard, b) && b.inventory.value.slots.Some?
      && var slots := b.inventory.value.slots.value;
         && PlayerStart(slots) > 0
         && (|| (&& autosellPhase.content.Some? && autosellPhase.content.value.0 == b.inventory.value.id
                 && autosellPhase.content.value.1 >= |slots|)
             || FirstOccupied(slots, PlayerStart(slots), PlayerEnd(slots)).Some?)
    }

    method TickAutosell(b: Look, now: nat)
      modifies this
      ensures View() == Autosell(old(View()), b, now) && events == old(events)
    {
      hide SellIdle, SellWaiting, AdvanceClick;
      var paused := restartSellPause.Some? && restartSellPause.value.0 <= now < restartSellPause.value.1;
      if !config.autosell || paused {
        autosellPhase := Idle;
        return;
      }
      match autosellPhase
      case Idle => StartCycle(b, now);
      case WaitingForMenu(_, _, _) => AwaitMenu(b, now);
      case Selling(_, _, _, _, _) => AdvanceAutosellClick(b, now);
      case Closing(closeAt, _, _) =>
        if now >= closeAt {
          autosellPhase := Idle;
          guard := guard.(requestedAt := None);
        }
    }

    method RecoverOrphanedAutosellMenu(b: Look, now: nat) returns (recovered: bool)
      modifies this
      ensures (View(), recovered) == RecoverOrphan(old(View()), b, now) && events == old(events)
    {
      hide Autosell, ManualMenuPending, OwnsSale, Interval;
      if !config.autosell || !autosellPhase.Idle? || activeTask.Some? || ManualMenuPending(guard, b, now)
         || !OwnsSale(guard, b) {
        return false;
      }
      var paused := restartSellPause.Some? && restartSellPause.value.0 <= now < restartSellPause.value.1;
      if b.items > 0 && !paused {
        autosellPhase := WaitingForMenu(now, false, None);
        nextAutosellAt := now + Interval(config);
        TickAutosell(b, now);
      } else {
        nextAutosellAt := Max(nextAutosellAt, now + ORPHAN_MS);
      }
      return true;
    }

    // ----- events -----

    method Automate(looks: Looks, now: nat)
      modifies this
      ensures View() == Automated(old(View()), looks, now) && events == old(events)
    {
      hide RecoverOrphan, Foreground, Autosell;
      var recovered := RecoverOrphanedAutosellMenu(looks.orphan, now);
      if recovered {
        return;
      }
      var ran := TickForeground(looks.foreground, now);
      if !ran {
        TickAutosell(looks.sell, now);
      }
    }

    method OnTick(looks: Looks, now: nat)
      modifies this
      ensures View() == NativeScheduler.OnTick(old(View()), looks, now) && events == old(events)
    {
      hide Recovered, Reset, ManualChat, Automated;
      RecoverLoadedWorld(looks.recovery, now);
      var paused := restartSellPause.Some? && restartSellPause.value.0 <= now < restartSellPause.value.1;
      if paused && (!autosellPhase.Idle? || activeTask.Some?) {
        ResetInteractions();
      }
      var ran := TickManualChat(looks.manual, now);
      if spawned && now >= automationReadyAt && looks.orphan.inGame && !ran {
        Automate(looks, now);
      }
    }

    method OnControlEvent(b: Look, now: nat)
      modifies this
      ensures View() == OnControl(old(View()), b, now) && events == old(events)
    {
      hide ManualChat, Scanned;
      var _ := TickManualChat(b, now);
      if activeTask.Some? && activeTask.value.Scanning? {
        AdvanceSellMultipliers(b, now);
      }
    }

    method OnMenuOpen(id: int, title: Title, now: nat)
      modifies this`autosellPhase, this`activeTask, this`guard
      ensures View() == MenuOpened(old(View()), id, title, now)
    {
      if autosellPhase.Selling? || autosellPhase.Closing? {
        autosellPhase := Idle;
        guard := guard.(requestedAt := None, sellMenu := None);
      }
      guard := guard.(menuId := None);
      if activeTask.Some? && activeTask.value.Scanning? {
        activeTask := Some(activeTask.value.(menu := Some(id), nextCheck := now));
      } else if guard.menuUntil.Some? && now < guard.menuUntil.value {
        guard := guard.(menuId := Some(id));
      } else if activeTask.None? && (title.sale || (guard.requestedAt.Some?
                                                    && now - guard.requestedAt.value <= LATE_MENU_MS)) {
        guard := guard.(sellMenu := Some((id, title)));
      }
    }

    method OnMultiplierSlot(id: int, now: nat)
      modifies this`activeTask
      ensures View() == MultiplierSlot(old(View()), id, now)
    {
      if activeTask.Some? && activeTask.value.Scanning? && activeTask.value.menu == Some(id) {
        activeTask := Some(activeTask.value.(nextCheck := now));
      }
    }

    method OnContainerContent(b: Look, id: int, count: nat, now: nat)
      modifies this`activeTask, this`autosellPhase
      ensures View() == ContentReceived(old(View()), b, id, count, now)
    {
      if b.inventory.None? || b.inventory.value.id != id || id == 0 {
        return;
      }
      OnMultiplierSlot(id, now);
      if autosellPhase.WaitingForMenu? {
        autosellPhase := autosellPhase.(content := Some((id, count)));
      }
    }

    method OnInventoryBusy(now: nat)
      modifies this`autosellPhase, this`guard, this`automationReadyAt, this`nextAutosellAt
      ensures View() == InventoryBusy(old(View()), now)
    {
      autosellPhase := Idle;
      guard := guard.(requestedAt := None);
      PostponeAutomationUntil(now + 1000);
    }

    method UpdateConfig(cfg: Config, now: nat)
      modifies this`config, this`nextAutosellAt
      ensures View() == Configured(old(View()), cfg, now)
    {
      var changed := config.autosell != cfg.autosell || config.interval != cfg.interval
                     || config.command != cfg.command;
      config := cfg;
      if changed && config.autosell {
        nextAutosellAt := Max(automationReadyAt, now);
      }
    }

    method Enqueue(m: Manual)
      modifies this`manualChatQueue, this`record
      ensures View() == Enqueued(old(View()), m)
    {
      manualChatQueue := manualChatQueue + [m];
      record := record.(enqueued := record.enqueued + [m]);
    }

    method EnqueueChat(text: string, teleports: bool)
      modifies this`manualChatQueue, this`record
      ensures View() == ChatEnqueued(old(View()), text, teleports)
    {
      hide Trim;
      if Trim(text) != "" {
        Enqueue(Chat(Trim(text), teleports));
      }
    }

    method EnqueueCleanSpawner()
      modifies this`taskQueue
      ensures View() == SpawnerEnqueued(old(View()))
    {
      if !(activeTask.Some? && activeTask.value.Cleaning?) && taskQueue == 0 {
        taskQueue := taskQueue + 1;
      }
    }

    method HandleOther(e: Event)
      requires !e.Tick? && !e.Control?
      modifies this
      ensures View() == Step(old(View()), e) && events == old(events)
    {
      hide Login, PositionSync, SpawnedIn, MenuOpened, ContentReceived, MultiplierSlot, InventoryBusy, Configured,
        Enqueued, ChatEnqueued, SpawnerEnqueued;
      if e.LoggedIn? || e.Respawned? {
        OnLogin(e.now);
        return;
      }
      if e.PauseSelling? {
        restartSellPause := if e.resume > 0 then Some((e.now + e.after, e.now + e.resume)) else None;
        return;
      }
      match e
      case Positioned(look, now) => OnPositionSync(look, now);
      case Spawns(now) => OnSpawn(now);
      case MenuOpens(id, title, now) => OnMenuOpen(id, title, now);
      case Content(look, id, count, now) => OnContainerContent(look, id, count, now);
      case ItemShown(id, now) => OnMultiplierSlot(id, now);
      case Busy(now) => OnInventoryBusy(now);
      case Configure(cfg, now) => UpdateConfig(cfg, now);
      case EnqueueChat(text, teleports, _) => EnqueueChat(text, teleports);
      case EnqueueMultipliers(_) => Enqueue(SellMultipliers);
      case EnqueueSpawner(_) => EnqueueCleanSpawner();
    }

    /** Whatever happens next: the object stays safe, and a spawner run ends with the first
        usable tick from its deadline on. */
    method Handle(e: Event)
      requires Valid() && Now() <= e.now
      modifies this
      ensures Valid() && events == old(events) + [e]
      ensures OneAtATime() && InTurn() && WithinBudget() && Disciplined(record.clicks)
      ensures old(activeTask.Some? && activeTask.value.Cleaning?) && e.Tick? && old(Usable(View(), e.looks, e.now)) ==>
                var deadline := old(activeTask).value.spawner.runDeadline;
                e.now >= deadline ==> !Runs(activeTask, deadline)
    {
      hide At, NativeScheduler.OnTick, OnControl, InOrder, Usable, Runs, OneAtATime, InTurn, WithinBudget, Disciplined,
        Step;
      ghost var init := Initial(firstCfg, firstPause, start);
      OneMore(init, events, e);
      RunGoesOn(firstCfg, firstPause, start, events, e);
      if e.Tick? {
        TickStep(View(), e);
        OnTick(e.looks, e.now);
      } else if e.Control? {
        ControlStep(View(), e);
        OnControlEvent(e.look, e.now);
      } else {
        HandleOther(e);
      }
      events := events + [e];
      ValidIsSafe();
    }
  }

  lemma ControlStep(s: State, e: Event)
    requires e.Control?
    ensures Step(s, e) == OnControl(s, e.look, e.now)
  {
    hide OnControl;
  }

  lemma RunGoesOn(cfg: Config, pause: Option<(nat, nat)>, start: nat, events: seq<Event>, e: Event)
    requires InOrder(start, events) && LastTime(start, events, |events|) <= e.now
    ensures InOrder(start, events + [e])
    ensures (
      var init := Initial(cfg, pause, start);
      var s, t := At(init, events, |events|), At(init, events + [e], |events| + 1);
      s.active.Some? && s.active.value.Cleaning? && e.Tick? && Usable(s, e.looks, e.now) ==>
        e.now >= s.active.value.spawner.runDeadline ==> !Runs(t.active, s.active.value.spawner.runDeadline)
    )
  {
    hide At, Usable, Runs;
    var init, longer := Initial(cfg, pause, start), events + [e];
    SamePrefix(init, events, e, |events|);
    NothingRunsYet(cfg, pause, start);
    var s := At(init, events, |events|);
    if s.active.Some? && s.active.value.Cleaning? && e.Tick? && Usable(s, e.looks, e.now)
       && e.now >= s.active.value.spawner.runDeadline {
      RunEndsAtDeadline(init, longer, |events|);
    }
  }

  lemma NothingRunsYet(cfg: Config, pause: Option<(nat, nat)>, start: nat)
    ensures Initial(cfg, pause, start).active.None?
  {
  }

  lemma OneMore(init: State, events: seq<Event>, e: Event)
    ensures At(init, events + [e], |events| + 1) == Step(At(init, events, |events|), e)
  {
    hide Step;
    SamePrefix(init, events, e, |events|);
  }

  lemma {:induction false} SamePrefix(init: State, events: seq<Event>, e: Event, n: nat)
    requires n <= |events|
    ensures At(init, events + [e], n) == At(init, events, n)
  {
    hide Step;
    if n > 0 {
      SamePrefix(init, events, e, n - 1);
    }
  }

  lemma ResetKeepsWorld(s: State)
    ensures Reset(s).world == s.world && Reset(s).clock == s.clock
  {
  }

  lemma QueueDoesNotMatter(s: State, queue: seq<Manual>, m: Manual, b: Look, now: nat)
    ensures Interrupting(s.(queue := queue), m, b, now) == Interrupting(s, m, b, now).(queue := queue)
    ensures Interrupting(s, m, b, now).queue == s.queue
  {
    hide OwnsSale, Trim;
  }
}
