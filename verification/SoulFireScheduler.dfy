/** The scheduler as an object: its fields are changed in place, one stretch between awaits
    at a time, and it never leaves the runs of `SoulFireOwnership`. */
module SoulFireScheduler {
  import opened Wrappers
  import opened SoulFire
  import opened SoulFireOwnership
  import SoulFireCredits

  class SoulFireBehaviors {
    const gateway: Gateway
    ghost const initial: Config
    ghost var events: seq<Event>
    var cfg: Config
    var online: bool
    var readyAt: nat
    var nextSell: nat
    var pauseStart: nat
    var pauseEnd: nat
    var manualUntil: nat
    var inventoryBlockedUntil: nat
    var commands: seq<Command>
    var lastQueuedChat: Option<(Text, nat)>
    var returningHome: bool
    var homeDue: nat
    var homeAttempts: nat
    var sell: Option<Sell>
    var foreground: Option<Foreground>
    var commandCredits: int
    var creditAt: nat
    var generation: nat
    var serial: nat
    var pc: Pc

    ghost function View(): State
      reads this
    {
      State(gateway, cfg, online, Times(readyAt, nextSell, pauseStart, pauseEnd, manualUntil, inventoryBlockedUntil),
            commands, lastQueuedChat, Home(returningHome, homeDue, homeAttempts), sell, foreground,
            Credit(commandCredits, creditAt), generation, serial, pc)
    }

    /** The object is where the run of its events leads. */
    ghost predicate Valid()
      reads this
    {
      View() == At(gateway, initial, events, |events|)
    }

    /** The commands and ways home sent so far. */
    ghost function Dispatched(): seq<SoulFireCredits.Sent>
      reads this
    {
      SoulFireCredits.Log(gateway, initial, events, |events|)
    }

    ghost predicate WithinCredits()
      reads this
    {
      && 0 <= commandCredits <= CREDITS
      && forall i: nat, j: nat :: i <= j < |Dispatched()| ==>
           && Dispatched()[i].admitted <= Dispatched()[j].admitted
           && j - i + 1 <= CREDITS + SoulFireCredits.CeilDiv(Dispatched()[j].admitted - Dispatched()[i].admitted,
                                                             CREDIT_MS)
    }

    /** What holds of the object whenever it rests; the credits count while the clock does not go back. */
    lemma ValidIsSafe()
      requires Valid()
      ensures Inv(View())
      ensures SoulFireCredits.InOrder(events) ==> WithinCredits()
    {
      hide At, SoulFireCredits.Log, SoulFireCredits.InOrder, SoulFireCredits.CeilDiv;
      RunKeepsInv(gateway, initial, events, |events|);
      if SoulFireCredits.InOrder(events) {
        SoulFireCredits.RunPays(gateway, initial, events, |events|);
        forall i: nat, j: nat | i <= j < |Dispatched()|
          ensures Dispatched()[i].admitted <= Dispatched()[j].admitted
          ensures j - i + 1 <= CREDITS + SoulFireCredits.CeilDiv(Dispatched()[j].admitted - Dispatched()[i].admitted,
                                                                 CREDIT_MS)
        {
          SoulFireCredits.SentBound(gateway, initial, events, |events|, i, j);
        }
      }
    }

    constructor (gateway: Gateway, cfg: Config)
      ensures Valid() && events == [] && this.gateway == gateway && initial == cfg
    {
      this.gateway, initial, events, this.cfg, online := gateway, cfg, [], cfg, false;
      readyAt, nextSell, pauseStart, pauseEnd, manualUntil, inventoryBlockedUntil := 0, 0, 0, 0, 0, 0;
      commands, lastQueuedChat, returningHome, homeDue, homeAttempts := [], None, false, 0, 0;
      sell, foreground, commandCredits, creditAt, generation, serial, pc := None, None, CREDITS, 0, 0, 0, Idle;
    }

    // ----- what arrives from outside -----

    method ResetTasks()
      modifies this`generation, this`sell, this`foreground
      ensures View() == SoulFire.ResetTasks(old(View()))
    {
      generation := generation + 1;
      sell := None;
      foreground := None;
    }

    method Joining()
      modifies this`online, this`generation, this`sell, this`foreground
      ensures View() == SoulFire.Joining(old(View()))
    {
      online := false;
      ResetTasks();
    }

    method Transition(now: nat)
      modifies this`readyAt, this`nextSell, this`generation, this`sell, this`foreground
      ensures View() == SoulFire.Transition(old(View()), now)
    {
      ResetTasks();
      readyAt := now + 2000;
      nextSell := readyAt;
    }

    method Spawned(now: nat)
      modifies this`online, this`readyAt, this`nextSell, this`generation, this`sell, this`foreground
      ensures View() == SoulFire.Spawned(old(View()), now)
    {
      online := true;
      Transition(now);
    }

    method SpawnedHeld(now: nat, home: bool)
      modifies this`returningHome, this`homeDue, this`homeAttempts
      ensures View() == SoulFire.SpawnedHeld(old(View()), now, home)
    {
      returningHome := cfg.autoReturn && home;
      homeDue := now + 5000;
      homeAttempts := 0;
    }

    method OnChat(m: Message, now: nat)
      modifies this`returningHome, this`readyAt, this`nextSell, this`inventoryBlockedUntil, this`generation, this`sell,
        this`foreground
      ensures View() == SoulFire.OnChat(old(View()), m, now)
    {
      hide SoulFire.Confirm, SoulFire.Locked;
      if m.arrived {
        returningHome := false;
        readyAt := now + 2000;
      }
      if m.payout {
        Confirm();
      }
      if m.locked {
        Locked(now);
      }
    }

    method Locked(now: nat)
      modifies this`readyAt, this`nextSell, this`inventoryBlockedUntil, this`generation, this`sell, this`foreground
      ensures View() == SoulFire.Locked(old(View()), now)
    {
      ResetTasks();
      inventoryBlockedUntil := now + 2000;
      readyAt := inventoryBlockedUntil;
      nextSell := readyAt;
    }

    method Confirm()
      modifies this`sell, this`foreground
      ensures View() == SoulFire.Confirm(old(View()))
    {
      if sell.Some? && sell.value.pending.Some? {
        sell := Some(sell.value.(pending := Some(sell.value.pending.value.(confirmed := true))));
      }
      if foreground.Some? && foreground.value.kind.Spawner? && foreground.value.phase.SellPhase?
         && foreground.value.pending.Some? {
        foreground := Some(foreground.value.(pending := Some(foreground.value.pending.value.(confirmed := true))));
      }
    }

    method Enqueue(c: Command, now: nat)
      modifies this`commands, this`lastQueuedChat
      ensures View() == SoulFire.Enqueue(old(View()), c, now)
    {
      if c in commands {
        return;
      }
      var said := c.Chat? && c.text.raw != "";
      if said && lastQueuedChat.Some? && lastQueuedChat.value.0.raw == c.text.raw
         && now - lastQueuedChat.value.1 < 2000 {
        return;
      }
      if |commands| >= QUEUE_CAP {
        return;
      }
      if said {
        lastQueuedChat := Some((c.text, now));
      }
      commands := commands + [c];
    }

    method Pause(after: nat, resume: nat, now: nat)
      modifies this`pauseStart, this`pauseEnd
      ensures View() == SoulFire.Pause(old(View()), after, resume, now)
    {
      pauseStart, pauseEnd := now + after, now + resume;
      if resume == 0 {
        pauseStart, pauseEnd := 0, 0;
      }
    }

    method Configure(config: Config)
      modifies this`cfg, this`returningHome, this`pc
      ensures View() == SoulFire.Configure(old(View()), config)
    {
      var changed := config.autosell != cfg.autosell || config.interval != cfg.interval
                     || config.command != cfg.command;
      cfg := config;
      if !config.autoReturn {
        returningHome := false;
      }
      pc := Holding(changed);
    }

    // ----- the tick -----

    method CreditReady(now: nat) returns (ready: bool)
      modifies this`commandCredits, this`creditAt
      ensures Credit(commandCredits, creditAt) == SoulFire.CreditReady(Credit(old(commandCredits), old(creditAt)), now)
      ensures ready <==> commandCredits >= 1
    {
      if creditAt == 0 {
        creditAt := now;
      }
      var credits := (now - creditAt) / CREDIT_MS;
      if credits > 0 {
        commandCredits := Min(CREDITS, commandCredits + credits);
        creditAt := creditAt + credits * CREDIT_MS;
      }
      ready := commandCredits >= 1;
    }

    method CancelSell(after: After)
      modifies this`sell, this`pc
      ensures View() == SoulFire.CancelSell(old(View()), after)
    {
      var sale := sell;
      sell := None;
      pc := if sale.Some? && Truthy(sale.value.menu) then OwnedFetch(sale.value.menu.value, after)
            else Returning(after);
    }

    method TakeCommand(now: nat)
      requires commands != []
      modifies this`commands, this`commandCredits, this`creditAt, this`pc
      ensures View() == SoulFire.TakeCommand(old(View()), now)
    {
      hide SoulFire.CreditReady;
      var command := commands[0];
      var ready := CreditReady(now);
      pc := Idle;
      if ready {
        commands := commands[1..];
        pc := Suspending(command, now);
      }
    }

    method GoHome(now: nat)
      modifies this`homeAttempts, this`homeDue, this`commandCredits, this`creditAt, this`pc
      ensures View() == SoulFire.GoHome(old(View()), now)
    {
      hide SoulFire.CreditReady, Backoff;
      pc := Idle;
      if now < homeDue {
        return;
      }
      var ready := CreditReady(now);
      if ready {
        homeAttempts := homeAttempts + 1;
        homeDue := now + Backoff(homeAttempts);
        pc := HomeChat(now);
      }
    }

    method Decide(now: nat)
      modifies this`commands, this`commandCredits, this`creditAt, this`homeAttempts, this`homeDue, this`sell, this`pc
      ensures View() == SoulFire.Decide(old(View()), now)
    {
      hide SoulFire.TakeCommand, SoulFire.GoHome, SoulFire.CancelSell;
      if commands != [] {
        TakeCommand(now);
      } else if pauseStart <= now < pauseEnd {
        CancelSell(EndTick);
      } else if now < readyAt {
        pc := Idle;
      } else if foreground.Some? {
        pc := if now < foreground.value.next then Idle else ForegroundFetch(foreground.value.id);
      } else if returningHome {
        GoHome(now);
      } else {
        pc := Idle;
        if cfg.autosell && now >= manualUntil && !gateway.nativeAutosell && (sell.Some? || now >= nextSell) {
          pc := SellFetch(generation);
        }
      }
    }

    method Finish(after: After, now: nat)
      modifies this`nextSell, this`foreground, this`pc
      ensures View() == SoulFire.Finish(old(View()), after, now)
    {
      match after {
        case EndTick =>
        case SaleFailed => nextSell := now;
        case ForegroundOver => foreground := None;
        case Configured(changed) =>
          if changed {
            nextSell := now;
          }
      }
      pc := Idle;
    }

    // ----- commands -----

    method Say(text: Text, at: nat)
      modifies this`pc
      ensures View() == SoulFire.Say(old(View()), text, at)
    {
      pc := if text.blocked then Idle else CommandChat(at);
    }

    method RunCommand(command: Command, captured: nat, menu: string, at: nat, now: nat)
      modifies this`manualUntil, this`returningHome, this`pc
      ensures View() == SoulFire.RunCommand(old(View()), command, captured, menu, at, now)
    {
      manualUntil := now + 5000;
      match command
      case ReadMultipliers => pc := MultiplierChat(captured, menu, at);
      case CleanSpawner => pc := SpawnerOpen(captured, menu, at);
      case Chat(text) =>
        if text.raw == "" {
          pc := Idle;
        } else if text.travels {
          returningHome := false;
          pc := HomeOff(text, at);
        } else {
          Say(text, at);
        }
    }

    method CommandRead(command: Command, captured: nat, at: nat, o: Outcome, now: nat)
      modifies this`manualUntil, this`returningHome, this`pc
      ensures View() == SoulFire.CommandRead(old(View()), command, captured, at, o, now)
    {
      hide SoulFire.RunCommand;
      if o.Read? {
        if o.inventory.container != [] {
          pc := CommandClose(command, captured, o.inventory.menu, at);
        } else {
          RunCommand(command, captured, o.inventory.menu, at, now);
        }
      } else if gateway.nativeAutosell && command.Chat? {
        RunCommand(command, captured, "", at, now);
      } else {
        pc := Idle;
      }
    }

    method StartForeground(kind: Kind, previousMenu: string, now: nat)
      modifies this`foreground, this`serial, this`pc
      ensures View() == SoulFire.StartForeground(old(View()), kind, previousMenu, now)
    {
      var patience, start := if kind.Multipliers? then 10000 else 60000, if kind.Multipliers? then now else now + 400;
      foreground := Some(Foreground(serial, kind, now + patience, None, None, previousMenu, DropPhase, start, None));
      serial := serial + 1;
      pc := Idle;
    }

    // ----- selling -----

    method SellRead(captured: nat, inv: Inventory, now: nat)
      modifies this`sell, this`serial, this`nextSell, this`pc
      ensures View() == SoulFire.SellRead(old(View()), captured, inv, now)
    {
      hide SaleTurn, SoulFire.SaleMoved;
      if captured != generation {
        pc := Idle;
      } else if sell.Some? {
        var move := SaleTurn(gateway, sell.value, inv, now);
        SaleMoved(move, inv.menu, now);
      } else if inv.container != [] {
        pc := if inv.saleTitle then LateClose(now) else Idle;
      } else if now < nextSell {
        pc := Idle;
      } else {
        sell := Some(Sell(serial, now, None, None, None, None));
        pc := SellChat(serial, generation, now);
        serial := serial + 1;
      }
    }

    method SaleMoved(move: SaleMove, menu: string, now: nat)
      modifies this`sell, this`nextSell, this`pc
      ensures View() == SoulFire.SaleMoved(old(View()), move, menu, now)
    {
      hide SoulFire.CancelSell;
      match move
      case Wait(sale) =>
        sell := Some(sale);
        pc := Idle;
      case Fail(sale) =>
        sell := Some(sale);
        CancelSell(SaleFailed);
      case Cancel(sale) =>
        sell := Some(sale);
        CancelSell(EndTick);
      case GiveUp =>
        sell := None;
        pc := Idle;
      case MenuClosed =>
        sell := None;
        nextSell := Max(nextSell, now);
        pc := Idle;
      case Click(sale, slot) =>
        sell := Some(sale);
        pc := SellClick(sale.id, menu, slot);
      case ClickAll(sale) =>
        sell := Some(sale);
        pc := SellClickAll(sale.id, menu);
    }

    method SaleAsked(id: nat, captured: nat, fetched: nat, o: Outcome, now: nat)
      modifies this`sell, this`nextSell, this`pc
      ensures View() == SoulFire.SaleAsked(old(View()), id, captured, fetched, o, now)
    {
      pc := Idle;
      if sell.None? || sell.value.id != id {
        return;
      }
      if !o.Done? || cfg.command.blocked {
        sell := None;
        nextSell := now + 5000;
      } else if captured == generation {
        sell := Some(sell.value.(requested := now));
        var interval := if cfg.interval.Some? then cfg.interval.value else 60;
        nextSell := fetched + Max(250, interval * 1000);
      }
    }

    method SaleClicked(id: nat, o: Outcome, now: nat)
      modifies this`sell, this`pc
      ensures View() == SoulFire.SaleClicked(old(View()), id, o, now)
    {
      pc := Idle;
      if sell.None? || sell.value.id != id || sell.value.pending.None? {
        return;
      }
      if o.Done? {
        sell := Some(sell.value.(pending := Some(sell.value.pending.value.(at := now))));
      } else if !sell.value.pending.value.confirmed {
        CancelSell(SaleFailed);
      }
    }

    // ----- foreground tasks -----

    method ForegroundRead(id: nat, inv: Inventory, now: nat)
      modifies this`foreground, this`pc
      ensures View() == SoulFire.ForegroundRead(old(View()), id, inv, now)
    {
      hide SpawnerTurn, NineMultipliers;
      pc := Idle;
      if foreground.None? || foreground.value.id != id {
        return;
      }
      var task := foreground.value;
      if now >= task.deadline {
        if Truthy(task.menu) {
          pc := OwnedFetch(task.menu.value, ForegroundOver);
        } else {
          foreground := None;
        }
      } else if inv.container == [] {
        if Truthy(task.menu) {
          foreground := None;
        }
      } else if inv.menu == task.previousMenu {
      } else if Truthy(task.menu) && task.menu.value != inv.menu {
        foreground := None;
      } else {
        TaskRead(Bind(task, inv, now), inv, now);
      }
    }

    method TaskRead(bound: Foreground, inv: Inventory, now: nat)
      requires pc.Idle?
      modifies this`foreground, this`pc
      ensures bound.kind.Multipliers? ==>
                View() == old(View()).(foreground := Some(bound),
                                       pc := if inv.multiplierTitle && NineMultipliers(inv) then ForegroundClose
                                             else Idle)
      ensures bound.kind.Spawner? ==> View() == SpawnerMoved(old(View()), SpawnerTurn(cfg, bound, inv, now), inv.menu)
    {
      hide SpawnerTurn, NineMultipliers;
      if bound.kind.Multipliers? {
        foreground := Some(bound);
        if inv.multiplierTitle && NineMultipliers(inv) {
          pc := ForegroundClose;
        }
        return;
      }
      var move := SpawnerTurn(cfg, bound, inv, now);
      foreground := Some(move.task);
      match move
      case Rest(_) =>
      case Abandon(_) => pc := OwnedFetch(inv.menu, ForegroundOver);
      case Close(_) => pc := ForegroundClose;
      case DropStack(task, slot) => pc := SpawnerClick(task.id, inv.menu, slot);
      case Press(task, slot) => pc := SpawnerClick(task.id, inv.menu, slot);
    }

    method SpawnerClicked(id: nat, o: Outcome, now: nat)
      modifies this`foreground, this`pc
      ensures View() == SoulFire.SpawnerClicked(old(View()), id, o, now)
    {
      pc := Idle;
      if !o.Done? || foreground.None? || foreground.value.id != id {
        return;
      }
      var task := foreground.value;
      if task.pending.Some? {
        task := task.(pending := Some(task.pending.value.(at := now)));
      }
      foreground := Some(task.(next := now + 400));
    }

    // ----- one step -----

    method ResumeCommand(o: Outcome, now: nat)
      requires CommandPc(pc)
      modifies this`sell, this`foreground, this`serial, this`commandCredits, this`manualUntil, this`returningHome,
        this`pc
      ensures View() == SoulFire.ResumeCommand(old(View()), o, now)
    {
      hide SoulFire.CommandRead, SoulFire.RunCommand, SoulFire.StartForeground, SoulFire.MultipliersAsked;
      match pc
      case Suspending(command, at) =>
        if o.Done? {
          sell := None;
          foreground := None;
          pc := CommandFetch(command, generation, at);
        } else {
          pc := Idle;
        }
      case CommandFetch(command, captured, at) => CommandRead(command, captured, at, o, now);
      case CommandClose(command, captured, menu, at) =>
        if o.Done? {
          RunCommand(command, captured, menu, at, now);
        } else {
          pc := Idle;
        }
      case MultiplierChat(captured, menu, _) => MultipliersAsked(captured, menu, o, now);
      case SpawnerOpen(captured, menu, _) =>
        if o == Opened(true) && captured == generation {
          StartForeground(Spawner, menu, now);
        } else {
          pc := Idle;
        }
    }

    method MultipliersAsked(captured: nat, menu: string, o: Outcome, now: nat)
      modifies this`foreground, this`serial, this`commandCredits, this`pc
      ensures View() == SoulFire.MultipliersAsked(old(View()), captured, menu, o, now)
    {
      hide SoulFire.StartForeground;
      if o.Done? {
        commandCredits := commandCredits - 1;
        if captured == generation {
          StartForeground(Multipliers, menu, now);
          return;
        }
      }
      pc := Idle;
    }

    method ResumeTurn(o: Outcome, now: nat)
      requires TurnPc(pc)
      modifies this`commands, this`commandCredits, this`creditAt, this`homeAttempts, this`homeDue, this`sell,
        this`foreground,
        this`serial, this`nextSell, this`pc
      ensures View() == SoulFire.ResumeTurn(old(View()), o, now)
    {
      hide SoulFire.Decide, SoulFire.SellRead, SoulFire.SaleAsked, SoulFire.SaleClicked, SoulFire.ForegroundRead,
        SoulFire.SpawnerClicked;
      if (pc.SellFetch? || pc.ForegroundFetch?) && !o.Read? {
        pc := Idle;
        return;
      }
      match pc
      case Sneaking(at) => Decide(at);
      case SellFetch(captured) => SellRead(captured, o.inventory, now);
      case SellChat(id, captured, fetched) => SaleAsked(id, captured, fetched, o, now);
      case SellClick(id, _, _) => SaleClicked(id, o, now);
      case SellClickAll(id, _) => SaleClicked(id, o, now);
      case ForegroundFetch(id) => ForegroundRead(id, o.inventory, now);
      case SpawnerClick(id, _, _) => SpawnerClicked(id, o, now);
    }

    method ResumeSay(o: Outcome, now: nat)
      requires SayPc(pc)
      modifies this`commandCredits, this`manualUntil, this`pc
      ensures View() == SoulFire.ResumeSay(old(View()), o, now)
    {
      if !o.Done? {
        pc := Idle;
        return;
      }
      match pc
      case HomeOff(text, at) => Say(text, at);
      case CommandChat(_) =>
        commandCredits := commandCredits - 1;
        manualUntil := now + 5000;
        pc := Idle;
      case HomeChat(_) =>
        commandCredits := commandCredits - 1;
        pc := Idle;
    }

    method ResumeMenu(o: Outcome, now: nat)
      requires !CommandPc(pc) && !TurnPc(pc) && !SayPc(pc)
      modifies this`sell, this`foreground, this`nextSell, this`pc
      ensures View() == SoulFire.ResumeMenu(old(View()), o, now)
    {
      hide SoulFire.Finish, SoulFire.CancelSell;
      match pc
      case Idle =>
      case Holding(changed) =>
        if !o.Done? {
          pc := Idle;
        } else if cfg.autosell {
          Finish(Configured(changed), now);
        } else {
          CancelSell(Configured(changed));
        }
      case Entering(at) => pc := if !o.Done? || at < inventoryBlockedUntil then Idle else Sneaking(at);
      case OwnedFetch(menu, after) =>
        if !o.Read? {
          pc := Idle;
        } else {
          pc := if o.inventory.menu == menu && o.inventory.container != [] then OwnedClose(after) else Returning(after);
        }
      case OwnedClose(after) => pc := if o.Done? then Returning(after) else Idle;
      case Returning(after) => Finish(after, now);
      case LateClose(fetched) =>
        if o.Done? {
          nextSell := fetched + 500;
        }
        pc := Idle;
      case ForegroundClose =>
        if o.Done? {
          foreground := None;
        }
        pc := Idle;
    }

    method Resume(o: Outcome, now: nat)
      modifies this
      ensures View() == SoulFire.Resume(old(View()), o, now) && events == old(events)
    {
      hide SoulFire.ResumeCommand, SoulFire.ResumeTurn, SoulFire.ResumeSay, SoulFire.ResumeMenu;
      if CommandPc(pc) {
        ResumeCommand(o, now);
      } else if TurnPc(pc) {
        ResumeTurn(o, now);
      } else if SayPc(pc) {
        ResumeSay(o, now);
      } else {
        ResumeMenu(o, now);
      }
    }

    /** Any event, under the busy lock: configuring and ticking wait for the tick in progress.
        A click that goes out is for a task that was live and still is, in the menu the task is
        bound to; no task comes back; and a foreground task is started only by a command that has
        seen no reset since its suspension. */
    method Handle(e: Event)
      requires Valid()
      modifies this
      ensures Valid() && events == old(events) + [e]
      ensures e.OnResume? && ClickAt(pc).Some? ==>
                var click := ClickAt(pc).value;
                && old(Live(View(), click.task)) && BoundTo(View(), click.task, click.menu)
                && MenuKept(old(Task(View(), click.task)).value, Some(click.menu))
      ensures forall id :: 0 <= id < old(serial) && !old(Live(View(), id)) ==> !Live(View(), id)
      ensures foreground.Some? && foreground.value.id >= old(serial) ==>
                old(Captured(pc)) == Some(generation) == Some(old(generation))
      ensures generation == old(generation) + if IsReset(e) then 1 else 0
    {
      hide SoulFire.Joining, SoulFire.Spawned, SoulFire.SpawnedHeld, SoulFire.Transition, SoulFire.OnChat,
        SoulFire.Enqueue,
        SoulFire.Pause, SoulFire.Configure, SoulFire.Resume, At, Inv, Task, MenuKept, IsReset, ClickAt, Captured;
      AtOneMore(gateway, initial, events, e);
      RunKeepsInv(gateway, initial, events, |events|);
      StepIsSafe(View(), e);
      match e {
        case OnJoining => Joining();
        case OnSpawned(now) => Spawned(now);
        case OnSpawnedHeld(now, home) => SpawnedHeld(now, home);
        case OnTransition(now) => Transition(now);
        case OnMessage(message, now) => OnChat(message, now);
        case OnEnqueue(command, now) => Enqueue(command, now);
        case OnPause(after, resume, now) => Pause(after, resume, now);
        case OnConfigure(config) =>
          if pc.Idle? {
            Configure(config);
          }
        case OnTick(now) =>
          if pc.Idle? && online {
            pc := Entering(now);
          }
        case OnResume(outcome, now) => Resume(outcome, now);
      }
      events := events + [e];
    }
  }

  /** One step, as it shows in the tasks. */
  lemma StepIsSafe(s: State, e: Event)
    requires Inv(s)
    ensures (
      var t := Step(s, e);
      && (e.OnResume? && ClickAt(t.pc).Some? ==>
            var click := ClickAt(t.pc).value;
            Live(s, click.task) && BoundTo(t, click.task, click.menu)
            && MenuKept(Task(s, click.task).value, Some(click.menu)))
      && (forall id :: 0 <= id < s.serial && !Live(s, id) ==> !Live(t, id))
      && (t.foreground.Some? && t.foreground.value.id >= s.serial ==>
            Captured(s.pc) == Some(t.generation) == Some(s.generation))
      && t.generation == s.generation + if IsReset(e) then 1 else 0
    )
  {
    hide Step, MenuKept, IsReset, ClickAt, Captured;
    StepKeeps(s, e);
    forall id | 0 <= id < s.serial && !Live(s, id) ensures !Live(Step(s, e), id) {
      KeptIsSameTask(s, Step(s, e), id);
    }
  }
}
