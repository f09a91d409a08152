/** Whatever arrives while a tick waits, no click leaks to a task that is gone, and every
    click names the menu its task is bound to. */
module SoulFireOwnership {
  import opened Wrappers
  import opened SoulFire

  // ----- one step -----

  /** The menu a live task is bound to, if any; `None` outside when the task is not live. */
  function Task(s: State, id: nat): Option<Option<string>> {
    if Selling(s, id) then Some(s.sell.value.menu)
    else if Reading(s, id) then Some(s.foreground.value.menu)
    else None
  }

  predicate Live(s: State, id: nat) {
    Task(s, id).Some?
  }

  datatype SlotClick = SlotClick(task: nat, menu: string)

  function ClickAt(pc: Pc): Option<SlotClick> {
    match pc
    case SellClick(id, menu, _) => Some(SlotClick(id, menu))
    case SellClickAll(id, menu) => Some(SlotClick(id, menu))
    case SpawnerClick(id, menu, _) => Some(SlotClick(id, menu))
    case _ => None
  }

  /** The click a step issues: the call it then waits for. */
  function Issued(s: State, e: Event): Option<SlotClick> {
    if e.OnResume? then ClickAt(Step(s, e).pc) else None
  }

  /** The generation a command captured before it set out. */
  function Captured(pc: Pc): Option<nat> {
    match pc
    case CommandFetch(_, generation, _) => Some(generation)
    case CommandClose(_, generation, _, _) => Some(generation)
    case MultiplierChat(generation, _, _) => Some(generation)
    case SpawnerOpen(generation, _, _) => Some(generation)
    case _ => None
  }

  predicate Inv(s: State) {
    && (s.sell.Some? ==> s.sell.value.id < s.serial)
    && (s.foreground.Some? ==> s.foreground.value.id < s.serial)
    && (s.sell.Some? && s.foreground.Some? ==> s.sell.value.id != s.foreground.value.id)
  }

  predicate MenuKept(before: Option<string>, after: Option<string>) {
    (Truthy(before) ==> after == before) && (before.Some? ==> after.Some?)
  }

  /** A sale is the one there was, or a new one. */
  predicate SellKept(s: State, t: State) {
    t.sell.Some? ==>
      if t.sell.value.id < s.serial
      then Selling(s, t.sell.value.id) && MenuKept(s.sell.value.menu, t.sell.value.menu)
      else t.sell.value.id < t.serial && t.sell.value.menu.None?
  }

  predicate PhaseKept(before: Phase, after: Phase) {
    before.SellPhase? ==> after.SellPhase?
  }

  /** A foreground task is the one there was, or is started by a command that saw no reset. */
  predicate ForegroundKept(s: State, t: State) {
    t.foreground.Some? ==>
      if t.foreground.value.id < s.serial
      then && Reading(s, t.foreground.value.id)
           && MenuKept(s.foreground.value.menu, t.foreground.value.menu)
           && PhaseKept(s.foreground.value.phase, t.foreground.value.phase)
      else && t.foreground.value.id < t.serial && t.foreground.value.menu.None?
           && Captured(s.pc) == Some(s.generation) && t.generation == s.generation
  }

  predicate ClickOwned(s: State, t: State) {
    var click := ClickAt(t.pc);
    click.Some? ==>
      && Live(s, click.value.task)
      && MenuKept(Task(s, click.value.task).value, Some(click.value.menu))
      && Task(t, click.value.task) == Some(Some(click.value.menu))
  }

  /** A step takes no task back, rebinds none, and starts a foreground task only from a command. */
  predicate Kept(s: State, t: State) {
    && Inv(t) && s.serial <= t.serial && SellKept(s, t) && ForegroundKept(s, t)
  }

  /** A command's generation is captured when its suspension is over, and then carried. */
  predicate CaptureKept(s: State, t: State) {
    Captured(t.pc).Some? ==>
      Captured(t.pc) == if s.pc.Suspending? then Some(s.generation) else Captured(s.pc)
  }

  predicate Sound(s: State, t: State) {
    Kept(s, t) && ClickOwned(s, t) && CaptureKept(s, t) && t.generation == s.generation
  }

  predicate IsReset(e: Event) {
    e.OnJoining? || e.OnSpawned? || e.OnTransition? || (e.OnMessage? && e.message.locked)
  }

  /** A step that only lets tasks go, and clicks nothing, is sound. */
  predicate LetsGo(s: State, t: State) {
    && (t.sell == s.sell || t.sell.None?) && (t.foreground == s.foreground || t.foreground.None?)
    && t.serial == s.serial && t.generation == s.generation && ClickAt(t.pc).None?
    && (Captured(t.pc).None? || (Captured(t.pc) == Captured(s.pc) && !s.pc.Suspending?))
  }

  lemma LettingGoIsSound(s: State, t: State)
    requires Inv(s) && LetsGo(s, t)
    ensures Sound(s, t)
  {
  }

  predicate SameTasks(s: State, t: State) {
    && t.sell == s.sell && t.foreground == s.foreground && t.serial == s.serial && t.generation == s.generation
    && (t.pc == s.pc || (s.pc.Idle? && Captured(t.pc).None?))
  }

  lemma SameTasksKeep(s: State, t: State)
    requires Inv(s) && SameTasks(s, t)
    ensures Kept(s, t) && CaptureKept(s, t)
  {
  }

  lemma ResetKeeps(s: State, t: State)
    requires Inv(s) && t.sell.None? && t.foreground.None? && t.serial == s.serial && t.pc == s.pc
    ensures Kept(s, t) && CaptureKept(s, t)
  {
  }

  lemma ConfirmKeeps(s: State)
    requires Inv(s)
    ensures Kept(s, Confirm(s)) && CaptureKept(s, Confirm(s)) && Confirm(s).generation == s.generation
  {
  }

  lemma MessageKeeps(s: State, m: Message, now: nat)
    requires Inv(s)
    ensures Kept(s, OnChat(s, m, now)) && CaptureKept(s, OnChat(s, m, now))
    ensures OnChat(s, m, now).generation == s.generation + if m.locked then 1 else 0
  {
    hide Confirm, Kept, CaptureKept, Inv;
    var s1 := if m.arrived then s.(home := s.home.(returning := false), times := s.times.(readyAt := now + 2000))
              else s;
    assert Inv(s1) by { SameInv(s, s1); }
    ConfirmKeeps(s1);
    var s2 := if m.payout then Confirm(s1) else s1;
    if m.locked {
      ConfirmSameSerial(s1);
      ResetKeeps(s, Locked(s2, now));
    } else if m.payout {
      KeptFrom(s, s1, s2);
    } else {
      SameTasksKeep(s, s2);
    }
  }

  lemma SameInv(s: State, t: State)
    requires Inv(s) && SameTasks(s, t)
    ensures Inv(t)
  {
  }

  lemma ConfirmSameSerial(s: State)
    ensures Confirm(s).serial == s.serial && Confirm(s).pc == s.pc && Confirm(s).generation == s.generation
  {
  }

  lemma KeptFrom(s: State, s1: State, t: State)
    requires SameTasks(s, s1) && s.pc == s1.pc && Kept(s1, t) && CaptureKept(s1, t)
    ensures Kept(s, t) && CaptureKept(s, t)
  {
  }

  lemma OutsideKeeps(s: State, e: Event)
    requires Inv(s) && !e.OnResume?
    ensures Kept(s, Step(s, e))
    ensures CaptureKept(s, Step(s, e))
    ensures Step(s, e).generation == s.generation + if IsReset(e) then 1 else 0
  {
    hide Kept, CaptureKept, Inv, OnChat, Resume;
    if e.OnMessage? {
      MessageKeeps(s, e.message, e.now);
    } else if IsReset(e) {
      ResetKeeps(s, Step(s, e));
    } else {
      SameTasksKeep(s, Step(s, e));
    }
  }

  lemma DecideSound(s: State, now: nat)
    requires Inv(s) && Captured(s.pc).None?
    ensures Sound(s, Decide(s, now))
  {
    hide Sound, Inv, CreditReady;
    LettingGoIsSound(s, Decide(s, now));
  }

  lemma RunCommandSound(s: State, command: Command, generation: nat, menu: string, at: nat, now: nat)
    requires Inv(s) && Captured(s.pc) == Some(generation)
    ensures Sound(s, RunCommand(s, command, generation, menu, at, now))
  {
    hide Sound, Inv;
    LettingGoIsSound(s, RunCommand(s, command, generation, menu, at, now));
  }

  lemma StartForegroundSound(s: State, s1: State, kind: Kind, menu: string, now: nat)
    requires Inv(s) && SameTasks(s, s1) && s1.pc == s.pc && Captured(s.pc) == Some(s.generation)
    ensures Sound(s, StartForeground(s1, kind, menu, now))
  {
  }

  lemma SaleTurnKeeps(g: Gateway, sale: Sell, inv: Inventory, now: nat)
    ensures SaleMoveKeeps(sale, SaleTurn(g, sale, inv, now), inv.menu)
  {
    hide Populated, Occupied, AllUnmoved;
  }

  predicate SaleMoveKeeps(sale: Sell, move: SaleMove, menu: string) {
    match move
    case GiveUp => true
    case MenuClosed => true
    case Wait(sale1) => sale1.id == sale.id && MenuKept(sale.menu, sale1.menu)
    case Fail(sale1) => sale1.id == sale.id && MenuKept(sale.menu, sale1.menu)
    case Cancel(sale1) => sale1.id == sale.id && MenuKept(sale.menu, sale1.menu)
    case Click(sale1, _) => sale1.id == sale.id && sale1.menu == Some(menu) && MenuKept(sale.menu, sale1.menu)
    case ClickAll(sale1) => sale1.id == sale.id && sale1.menu == Some(menu) && MenuKept(sale.menu, sale1.menu)
  }

  lemma SaleMovedSound(s: State, move: SaleMove, menu: string, now: nat)
    requires Inv(s) && s.sell.Some? && SaleMoveKeeps(s.sell.value, move, menu)
    ensures Sound(s, SaleMoved(s, move, menu, now))
  {
    hide Sound, Inv;
    var t := SaleMoved(s, move, menu, now);
    if move.GiveUp? || move.MenuClosed? || move.Fail? || move.Cancel? {
      LettingGoIsSound(s, t);
    } else {
      SaleContinuesSound(s, move.sale, t);
    }
  }

  lemma SaleContinuesSound(s: State, sale: Sell, t: State)
    requires Inv(s) && s.sell.Some? && sale.id == s.sell.value.id && MenuKept(s.sell.value.menu, sale.menu)
    requires t == s.(sell := Some(sale), times := t.times, pc := t.pc) && Captured(t.pc).None?
    requires t.pc.SellClick? || t.pc.SellClickAll? ==> t.pc.id == sale.id && sale.menu == Some(t.pc.menu)
    requires !t.pc.SpawnerClick?
    ensures Sound(s, t)
  {
  }

  lemma SellReadSound(s: State, generation: nat, inv: Inventory, now: nat)
    requires Inv(s)
    ensures Sound(s, SellRead(s, generation, inv, now))
  {
    hide SaleTurn, SaleMoved, SaleMoveKeeps;
    if s.sell.Some? {
      SaleTurnKeeps(s.gateway, s.sell.value, inv, now);
      SaleMovedSound(s, SaleTurn(s.gateway, s.sell.value, inv, now), inv.menu, now);
    }
  }

  lemma SaleAskedSound(s: State, id: nat, generation: nat, fetched: nat, o: Outcome, now: nat)
    requires Inv(s)
    ensures Sound(s, SaleAsked(s, id, generation, fetched, o, now))
  {
    hide Sound, Inv;
    var t := SaleAsked(s, id, generation, fetched, o, now);
    if t.sell == s.sell || t.sell.None? {
      LettingGoIsSound(s, t);
    } else {
      SaleContinuesSound(s, t.sell.value, t);
    }
  }

  lemma SaleClickedSound(s: State, id: nat, o: Outcome, now: nat)
    requires Inv(s)
    ensures Sound(s, SaleClicked(s, id, o, now))
  {
    hide Sound, Inv;
    var t := SaleClicked(s, id, o, now);
    if t.sell == s.sell || t.sell.None? {
      LettingGoIsSound(s, t);
    } else {
      SaleContinuesSound(s, t.sell.value, t);
    }
  }

  predicate SpawnerMoveKeeps(task: Foreground, move: SpawnerMove) {
    var task1 := move.task;
    && task1.id == task.id && task1.menu == task.menu && PhaseKept(task.phase, task1.phase)
  }

  lemma SpawnerTurnKeeps(cfg: Config, task: Foreground, inv: Inventory, now: nat)
    ensures SpawnerMoveKeeps(task, SpawnerTurn(cfg, task, inv, now))
  {
    hide Occupied, Matching, Unchanged, Spare, SellButton, Fingerprint, Find;
  }

  lemma ForegroundContinuesSound(s: State, task: Foreground, t: State)
    requires Inv(s) && s.foreground.Some? && task.id == s.foreground.value.id
    requires MenuKept(s.foreground.value.menu, task.menu) && PhaseKept(s.foreground.value.phase, task.phase)
    requires t == s.(foreground := Some(task), pc := t.pc) && Captured(t.pc).None?
    requires t.pc.SpawnerClick? ==> t.pc.id == task.id && task.menu == Some(t.pc.menu)
    requires !t.pc.SellClick? && !t.pc.SellClickAll?
    ensures Sound(s, t)
  {
  }

  lemma SpawnerMovedSound(s: State, bound: Foreground, move: SpawnerMove, menu: string)
    requires Inv(s) && s.foreground.Some? && bound.id == s.foreground.value.id
    requires bound.phase == s.foreground.value.phase
    requires MenuKept(s.foreground.value.menu, bound.menu) && bound.menu == Some(menu)
    requires SpawnerMoveKeeps(bound, move)
    ensures Sound(s, SpawnerMoved(s, move, menu))
  {
    hide Sound, Inv;
    ForegroundContinuesSound(s, move.task, SpawnerMoved(s, move, menu));
  }

  lemma ForegroundReadSound(s: State, id: nat, inv: Inventory, now: nat)
    requires Inv(s)
    ensures Sound(s, ForegroundRead(s, id, inv, now))
  {
    hide SpawnerTurn, SpawnerMoved, SpawnerMoveKeeps, NineMultipliers, Sound, Inv;
    var t := ForegroundRead(s, id, inv, now);
    if LetsGo(s, t) {
      LettingGoIsSound(s, t);
    } else {
      var task := s.foreground.value;
      var bound := Bind(task, inv, now);
      if task.kind.Spawner? {
        SpawnerTurnKeeps(s.cfg, bound, inv, now);
        SpawnerMovedSound(s, bound, SpawnerTurn(s.cfg, bound, inv, now), inv.menu);
      } else {
        ForegroundContinuesSound(s, bound, t);
      }
    }
  }

  lemma SpawnerClickedSound(s: State, id: nat, o: Outcome, now: nat)
    requires Inv(s)
    ensures Sound(s, SpawnerClicked(s, id, o, now))
  {
    hide Sound, Inv;
    var t := SpawnerClicked(s, id, o, now);
    if !o.Done? || !Reading(s, id) {
      LettingGoIsSound(s, t);
    } else {
      ForegroundContinuesSound(s, t.foreground.value, t);
    }
  }

  lemma CommandReadSound(s: State, command: Command, generation: nat, at: nat, o: Outcome, now: nat)
    requires Inv(s) && Captured(s.pc) == Some(generation)
    ensures Sound(s, CommandRead(s, command, generation, at, o, now))
  {
    hide Sound, Inv, RunCommand;
    RunCommandSound(s, command, generation, if o.Read? then o.inventory.menu else "", at, now);
    if LetsGo(s, CommandRead(s, command, generation, at, o, now)) {
      LettingGoIsSound(s, CommandRead(s, command, generation, at, o, now));
    }
  }

  lemma CommandResumeSound(s: State, o: Outcome, now: nat)
    requires Inv(s) && CommandPc(s.pc)
    ensures Sound(s, ResumeCommand(s, o, now))
  {
    hide RunCommand, CommandRead, StartForeground, Sound, Inv;
    match s.pc
    case CommandFetch(command, generation, at) => CommandReadSound(s, command, generation, at, o, now);
    case CommandClose(command, generation, menu, at) =>
      if o.Done? {
        RunCommandSound(s, command, generation, menu, at, now);
      } else {
        LettingGoIsSound(s, ResumeCommand(s, o, now));
      }
    case MultiplierChat(generation, menu, _) =>
      if o.Done? && generation == s.generation {
        StartForegroundSound(s, Spend(s), Multipliers, menu, now);
      } else {
        LettingGoIsSound(s, ResumeCommand(s, o, now));
      }
    case SpawnerOpen(generation, menu, _) =>
      if o == Opened(true) && generation == s.generation {
        StartForegroundSound(s, s, Spawner, menu, now);
      } else {
        LettingGoIsSound(s, ResumeCommand(s, o, now));
      }
    case Suspending(_, _) => SuspendedSound(s, ResumeCommand(s, o, now));
  }

  lemma SuspendedSound(s: State, t: State)
    requires Inv(s) && s.pc.Suspending? && t.serial == s.serial && t.generation == s.generation
    requires t.sell.None? || t.sell == s.sell
    requires t.foreground.None? || t.foreground == s.foreground
    requires ClickAt(t.pc).None? && (Captured(t.pc).Some? ==> Captured(t.pc) == Some(s.generation))
    ensures Sound(s, t)
  {
  }

  lemma TurnResumeSound(s: State, o: Outcome, now: nat)
    requires Inv(s) && TurnPc(s.pc)
    ensures Sound(s, ResumeTurn(s, o, now))
  {
    hide Decide, SellRead, SaleAsked, SaleClicked, ForegroundRead, SpawnerClicked, Sound, Inv;
    if (s.pc.SellFetch? || s.pc.ForegroundFetch?) && !o.Read? {
      LettingGoIsSound(s, ResumeTurn(s, o, now));
    } else {
      match s.pc
      case Sneaking(at) => DecideSound(s, at);
      case SellFetch(generation) => SellReadSound(s, generation, o.inventory, now);
      case SellChat(id, generation, fetched) => SaleAskedSound(s, id, generation, fetched, o, now);
      case SellClick(id, _, _) => SaleClickedSound(s, id, o, now);
      case SellClickAll(id, _) => SaleClickedSound(s, id, o, now);
      case ForegroundFetch(id) => ForegroundReadSound(s, id, o.inventory, now);
      case SpawnerClick(id, _, _) => SpawnerClickedSound(s, id, o, now);
    }
  }

  lemma ResumeSound(s: State, o: Outcome, now: nat)
    requires Inv(s)
    ensures Sound(s, Resume(s, o, now))
  {
    hide ResumeCommand, ResumeTurn, Sound, Inv;
    if CommandPc(s.pc) {
      CommandResumeSound(s, o, now);
    } else if TurnPc(s.pc) {
      TurnResumeSound(s, o, now);
    } else {
      LettingGoIsSound(s, Resume(s, o, now));
    }
  }

  lemma StepKeeps(s: State, e: Event)
    requires Inv(s)
    ensures Kept(s, Step(s, e)) && CaptureKept(s, Step(s, e))
    ensures Step(s, e).generation == s.generation + if IsReset(e) then 1 else 0
    ensures Issued(s, e).Some? ==> ClickOwned(s, Step(s, e))
  {
    hide Kept, CaptureKept, ClickOwned, Inv, Resume;
    if e.OnResume? {
      ResumeSound(s, e.outcome, e.now);
    } else {
      OutsideKeeps(s, e);
    }
  }

  // ----- whole runs -----

  /** The state after the first `n` events of a run. */
  function At(g: Gateway, cfg: Config, events: seq<Event>, n: nat): State
    requires n <= |events|
  {
    if n == 0 then Initial(g, cfg) else Step(At(g, cfg, events, n - 1), events[n - 1])
  }

  lemma AtOneMore(g: Gateway, cfg: Config, events: seq<Event>, e: Event)
    ensures At(g, cfg, events + [e], |events| + 1) == Step(At(g, cfg, events, |events|), e)
  {
    hide Step;
    AtSamePrefix(g, cfg, events, e, |events|);
  }

  lemma {:induction false} AtSamePrefix(g: Gateway, cfg: Config, events: seq<Event>, e: Event, n: nat)
    requires n <= |events|
    ensures At(g, cfg, events + [e], n) == At(g, cfg, events, n)
  {
    hide Step;
    if n > 0 {
      AtSamePrefix(g, cfg, events, e, n - 1);
    }
  }

  lemma {:induction false} RunKeepsInv(g: Gateway, cfg: Config, events: seq<Event>, n: nat)
    requires n <= |events|
    ensures Inv(At(g, cfg, events, n))
  {
    hide Step;
    if n > 0 {
      RunKeepsInv(g, cfg, events, n - 1);
      StepKeeps(At(g, cfg, events, n - 1), events[n - 1]);
    }
  }

  lemma RunKeeps(g: Gateway, cfg: Config, events: seq<Event>, n: nat)
    requires n < |events|
    ensures (
      var s, t := At(g, cfg, events, n), At(g, cfg, events, n + 1);
      && Kept(s, t) && CaptureKept(s, t)
      && t.generation == s.generation + (if IsReset(events[n]) then 1 else 0)
      && (Issued(s, events[n]).Some? ==> ClickOwned(s, t))
    )
  {
    hide Step, Kept, CaptureKept, ClickOwned, Issued, IsReset, Inv;
    RunKeepsInv(g, cfg, events, n);
    StepKeeps(At(g, cfg, events, n), events[n]);
  }

  predicate SameTask(s: State, t: State, id: nat) {
    Live(t, id) ==> Live(s, id) && MenuKept(Task(s, id).value, Task(t, id).value)
  }

  lemma KeptIsSameTask(s: State, t: State, id: nat)
    requires Inv(s) && Kept(s, t) && id < s.serial
    ensures SameTask(s, t, id)
  {
  }

  /** A task that is live now has been live ever since it was made, and keeps its menu. */
  lemma {:induction false} LiveSinceMade(g: Gateway, cfg: Config, events: seq<Event>, j: nat, i: nat, id: nat)
    requires j <= i <= |events| && id < At(g, cfg, events, j).serial
    ensures SameTask(At(g, cfg, events, j), At(g, cfg, events, i), id)
    ensures id < At(g, cfg, events, i).serial
    decreases i
  {
    hide At, Inv, Kept, CaptureKept, ClickOwned, Issued, IsReset;
    if j < i {
      LiveSinceMade(g, cfg, events, j, i - 1, id);
      RunKeepsInv(g, cfg, events, i - 1);
      RunKeeps(g, cfg, events, i - 1);
      KeptIsSameTask(At(g, cfg, events, i - 1), At(g, cfg, events, i), id);
      SerialGrows(At(g, cfg, events, i - 1), At(g, cfg, events, i));
    }
  }

  lemma SerialGrows(s: State, t: State)
    requires Kept(s, t)
    ensures s.serial <= t.serial
  {
  }

  predicate BoundTo(s: State, id: nat, menu: string) {
    Task(s, id) == Some(Some(menu))
  }

  /** Every click is for a task that is live and has been since it was made, in the menu
      it was bound to then, or in the one it is bound to with this click. */
  lemma ClicksAreOwned(g: Gateway, cfg: Config, events: seq<Event>, j: nat, i: nat)
    requires j <= i < |events|
    ensures Issued(At(g, cfg, events, i), events[i]).Some? ==>
              var click := Issued(At(g, cfg, events, i), events[i]).value;
              && Live(At(g, cfg, events, i), click.task)
              && BoundTo(At(g, cfg, events, i + 1), click.task, click.menu)
              && (click.task < At(g, cfg, events, j).serial ==>
                    && Live(At(g, cfg, events, j), click.task)
                    && MenuKept(Task(At(g, cfg, events, j), click.task).value, Some(click.menu)))
  {
    hide At, Kept, CaptureKept, IsReset, MenuKept, Task, Issued;
    var s, t := At(g, cfg, events, i), At(g, cfg, events, i + 1);
    if Issued(s, events[i]).Some? {
      var click := Issued(s, events[i]).value;
      IssuedIsWaiting(g, cfg, events, i);
      RunKeeps(g, cfg, events, i);
      if click.task < At(g, cfg, events, j).serial {
        LiveSinceMade(g, cfg, events, j, i, click.task);
        MenuKeptTwice(Task(At(g, cfg, events, j), click.task).value, Task(s, click.task).value, Some(click.menu));
      }
    }
  }

  lemma IssuedIsWaiting(g: Gateway, cfg: Config, events: seq<Event>, i: nat)
    requires i < |events|
    ensures Issued(At(g, cfg, events, i), events[i]).Some? ==>
              Issued(At(g, cfg, events, i), events[i]) == ClickAt(At(g, cfg, events, i + 1).pc)
  {
    hide Step;
  }

  lemma MenuKeptTwice(a: Option<string>, b: Option<string>, c: Option<string>)
    requires MenuKept(a, b) && MenuKept(b, c)
    ensures MenuKept(a, c)
  {
  }

  /** No task gets back what it lost: once gone, gone for the rest of the run. */
  lemma GoneForGood(g: Gateway, cfg: Config, events: seq<Event>, j: nat, i: nat, id: nat)
    requires j <= i < |events| && id < At(g, cfg, events, j).serial && !Live(At(g, cfg, events, j), id)
    ensures !Live(At(g, cfg, events, i), id)
    ensures Issued(At(g, cfg, events, i), events[i]).Some? ==> Issued(At(g, cfg, events, i), events[i]).value.task != id
  {
    hide At, Kept, CaptureKept, IsReset, MenuKept, Task, Issued;
    LiveSinceMade(g, cfg, events, j, i, id);
    if Issued(At(g, cfg, events, i), events[i]).Some? {
      ClicksAreOwned(g, cfg, events, j, i);
    }
  }

  // ----- where foreground tasks come from -----

  /** From event `j` up to event `i` the generation a command captured at `j` is carried, unreset. */
  ghost predicate CapturedAt(g: Gateway, cfg: Config, events: seq<Event>, j: nat, i: nat)
    requires j <= i <= |events|
  {
    && j < i && At(g, cfg, events, j).pc.Suspending?
    && Captured(At(g, cfg, events, i).pc) == Some(At(g, cfg, events, j).generation)
  }

  lemma {:induction false} GenerationCountsResets(g: Gateway, cfg: Config, events: seq<Event>, j: nat, i: nat)
    requires j <= i <= |events|
    ensures At(g, cfg, events, j).generation <= At(g, cfg, events, i).generation
    ensures At(g, cfg, events, j).generation == At(g, cfg, events, i).generation <==>
              forall k :: j <= k < i ==> !IsReset(events[k])
    decreases i
  {
    hide At, Kept, CaptureKept, ClickOwned, Issued, IsReset;
    if j < i {
      GenerationCountsResets(g, cfg, events, j, i - 1);
      RunKeeps(g, cfg, events, i - 1);
    }
  }

  lemma {:induction false} CaptureHasStart(g: Gateway, cfg: Config, events: seq<Event>, i: nat) returns (j: nat)
    requires i <= |events| && Captured(At(g, cfg, events, i).pc).Some?
    ensures j < i && CapturedAt(g, cfg, events, j, i)
  {
    hide At, Kept, ClickOwned, Issued, IsReset, Captured;
    assert i > 0 by { NothingAtFirst(g, cfg, events); }
    RunKeeps(g, cfg, events, i - 1);
    if At(g, cfg, events, i - 1).pc.Suspending? {
      j := i - 1;
    } else {
      j := CaptureHasStart(g, cfg, events, i - 1);
    }
  }

  lemma NothingAtFirst(g: Gateway, cfg: Config, events: seq<Event>)
    ensures Captured(At(g, cfg, events, 0).pc).None?
  {
  }

  /** A foreground task is made only when nothing was reset since its command captured the
      generation, which it did right after its suspension. */
  lemma ForegroundIsFresh(g: Gateway, cfg: Config, events: seq<Event>, i: nat) returns (j: nat)
    requires i < |events| && At(g, cfg, events, i + 1).foreground.Some?
    requires At(g, cfg, events, i + 1).foreground.value.id >= At(g, cfg, events, i).serial
    ensures j < i && CapturedAt(g, cfg, events, j, i)
    ensures forall k :: j <= k <= i ==> !IsReset(events[k])
  {
    hide At, ClickOwned, Issued, IsReset, Captured, CaptureKept, Inv, SellKept;
    RunKeeps(g, cfg, events, i);
    j := CaptureHasStart(g, cfg, events, i);
    GenerationCountsResets(g, cfg, events, j, i + 1);
  }

  /** A foreground task only ever moves from dropping to selling. */
  lemma {:induction false} PhasesAdvance(g: Gateway, cfg: Config, events: seq<Event>, j: nat, i: nat)
    requires j <= i <= |events| && At(g, cfg, events, i).foreground.Some?
    requires At(g, cfg, events, i).foreground.value.id < At(g, cfg, events, j).serial
    ensures Reading(At(g, cfg, events, j), At(g, cfg, events, i).foreground.value.id)
    ensures PhaseKept(At(g, cfg, events, j).foreground.value.phase, At(g, cfg, events, i).foreground.value.phase)
    decreases i
  {
    hide At, ClickOwned, Issued, IsReset, CaptureKept, Kept;
    if j < i {
      SerialsGrow(g, cfg, events, j, i - 1);
      RunKeeps(g, cfg, events, i - 1);
      OnePhaseOn(At(g, cfg, events, i - 1), At(g, cfg, events, i));
      PhasesAdvance(g, cfg, events, j, i - 1);
    }
  }

  lemma OnePhaseOn(s: State, t: State)
    requires Kept(s, t) && t.foreground.Some? && t.foreground.value.id < s.serial
    ensures Reading(s, t.foreground.value.id)
    ensures PhaseKept(s.foreground.value.phase, t.foreground.value.phase)
  {
  }

  lemma {:induction false} SerialsGrow(g: Gateway, cfg: Config, events: seq<Event>, j: nat, i: nat)
    requires j <= i <= |events|
    ensures At(g, cfg, events, j).serial <= At(g, cfg, events, i).serial
    decreases i
  {
    hide At, ClickOwned, Issued, IsReset, CaptureKept, SellKept, ForegroundKept, Inv;
    if j < i {
      SerialsGrow(g, cfg, events, j, i - 1);
      RunKeeps(g, cfg, events, i - 1);
    }
  }

  // ----- the menu first bound -----

  /** In every run, a click for a task once bound to `menu` names `menu`. */
  ghost predicate NamesFirstBound(menu: string) {
    forall g, cfg, events: seq<Event>, j: nat, i: nat |
      && j <= i < |events| && Issued(At(g, cfg, events, i), events[i]).Some?
      && BoundTo(At(g, cfg, events, j), Issued(At(g, cfg, events, i), events[i]).value.task, menu)
      :: Issued(At(g, cfg, events, i), events[i]).value.menu == menu
  }

  /** The empty menu id is the one that does not stick: it is falsy, so the task binds again. */
  lemma FirstBoundMenuSticks(menu: string)
    ensures NamesFirstBound(menu) <==> menu != ""
  {
    hide At, Issued, Inv;
    if menu == "" {
      EmptyMenuRebinds();
    } else {
      forall g, cfg, events: seq<Event>, j: nat, i: nat |
        && j <= i < |events| && Issued(At(g, cfg, events, i), events[i]).Some?
        && BoundTo(At(g, cfg, events, j), Issued(At(g, cfg, events, i), events[i]).value.task, menu)
        ensures Issued(At(g, cfg, events, i), events[i]).value.menu == menu
      {
        RunKeepsInv(g, cfg, events, j);
        LiveIsMade(At(g, cfg, events, j), Issued(At(g, cfg, events, i), events[i]).value.task);
        ClicksAreOwned(g, cfg, events, j, i);
      }
    }
  }

  lemma LiveIsMade(s: State, id: nat)
    requires Inv(s) && Live(s, id)
    ensures id < s.serial
  {
  }

  const MENU_GATEWAY := Gateway(false, false)
  const MENU_CONFIG := Config(true, None, Text("/sell", false, false), true, "", [], [])

  /** A sale menu seen first without an id, and then with one. */
  function RebindingRun(): seq<Event> {
    var tick := [OnTick(2000), OnResume(Done, 2000), OnResume(Done, 2000)];
    var closed := Inventory("", false, false, [], [], []);
    var empty := Inventory("", true, false, [0], [36], []);
    var filled := Inventory("7", true, false, [0], [36], [Slot(36, "stone", 1, false, false)]);
    [OnSpawned(0)] + tick + [OnResume(Read(closed), 2000), OnResume(Done, 2000)]
    + tick + [OnResume(Read(empty), 2000)] + tick + [OnResume(Read(filled), 2000)]
  }

  function Asking(times: Times, sell: Option<Sell>, serial: nat, pc: Pc): State {
    State(MENU_GATEWAY, MENU_CONFIG, true, times, [], None, Home(false, 0, 0), sell, None, Credit(CREDITS, 0), 1,
          serial, pc)
  }

  /** A tick that gets as far as reading the inventory for a sale. */
  lemma TickReads(g: Gateway, cfg: Config, events: seq<Event>, n: nat, times: Times, sell: Option<Sell>, serial: nat)
    requires n + 3 <= |events| && times.pauseEnd == 0 && times.readyAt == 2000 && times.manualUntil == 0
    requires times.blockedUntil == 0
    requires sell.None? ==> times.nextSell <= 2000
    requires events[n] == OnTick(2000) && events[n + 1] == events[n + 2] == OnResume(Done, 2000)
    requires At(g, cfg, events, n) == Asking(times, sell, serial, Idle)
    ensures At(g, cfg, events, n + 3) == Asking(times, sell, serial, SellFetch(1))
  {
    OneStep(g, cfg, events, n);
    OneStep(g, cfg, events, n + 1);
    OneStep(g, cfg, events, n + 2);
    hide At, RunCommand, SellRead, SaleAsked, SaleClicked, ForegroundRead, SpawnerClicked, ResumeCommand, ResumeSay;
    assert At(g, cfg, events, n + 1) == Asking(times, sell, serial, Entering(2000));
    assert At(g, cfg, events, n + 2) == Asking(times, sell, serial, Sneaking(2000));
  }

  lemma OneStep(g: Gateway, cfg: Config, events: seq<Event>, n: nat)
    requires n < |events|
    ensures At(g, cfg, events, n + 1) == Step(At(g, cfg, events, n), events[n])
  {
    hide Step;
  }

  lemma FirstTurn(events: seq<Event>)
    requires events == RebindingRun()
    ensures At(MENU_GATEWAY, MENU_CONFIG, events, 6) ==
              Asking(Times(2000, 62000, 0, 0, 0, 0), Some(Sell(0, 2000, None, None, None, None)), 1, Idle)
  {
    hide At, Decide, RunCommand, SaleTurn, SaleMoved, ForegroundRead, SpawnerClicked, TickStart;
    FirstEvent(events);
    TickReads(MENU_GATEWAY, MENU_CONFIG, events, 1, Times(2000, 2000, 0, 0, 0, 0), None, 0);
    OneStep(MENU_GATEWAY, MENU_CONFIG, events, 4);
    assert At(MENU_GATEWAY, MENU_CONFIG, events, 5) ==
           Asking(Times(2000, 2000, 0, 0, 0, 0), Some(Sell(0, 2000, None, None, None, None)), 1, SellChat(0, 1, 2000));
    OneStep(MENU_GATEWAY, MENU_CONFIG, events, 5);
  }

  lemma FirstEvent(events: seq<Event>)
    requires events == RebindingRun()
    ensures At(MENU_GATEWAY, MENU_CONFIG, events, 1) == Asking(Times(2000, 2000, 0, 0, 0, 0), None, 0, Idle)
  {
    hide Resume;
    assert At(MENU_GATEWAY, MENU_CONFIG, events, 0) == Initial(MENU_GATEWAY, MENU_CONFIG);
  }

  lemma BindsNothing(events: seq<Event>)
    requires events == RebindingRun()
    requires At(MENU_GATEWAY, MENU_CONFIG, events, 9) ==
               Asking(Times(2000, 62000, 0, 0, 0, 0), Some(Sell(0, 2000, None, None, None, None)), 1, SellFetch(1))
    ensures At(MENU_GATEWAY, MENU_CONFIG, events, 10) ==
              Asking(Times(2000, 62000, 0, 0, 0, 0), Some(Sell(0, 2000, Some(2000), Some(""), None, None)), 1, Idle)
    ensures BoundTo(At(MENU_GATEWAY, MENU_CONFIG, events, 10), 0, "")
  {
    hide At, Decide, RunCommand, ForegroundRead, SpawnerClicked, SaleClicked, SaleAsked, TickStart, SaleNext;
    OneStep(MENU_GATEWAY, MENU_CONFIG, events, 9);
  }

  lemma BindsSeven(events: seq<Event>)
    requires events == RebindingRun()
    requires At(MENU_GATEWAY, MENU_CONFIG, events, 13) ==
               Asking(Times(2000, 62000, 0, 0, 0, 0), Some(Sell(0, 2000, Some(2000), Some(""), None, None)), 1,
                      SellFetch(1))
    ensures Issued(At(MENU_GATEWAY, MENU_CONFIG, events, 13), events[13]) == Some(SlotClick(0, "7"))
  {
    hide At, Decide, RunCommand, ForegroundRead, SpawnerClicked, SaleClicked, SaleAsked, TickStart, SaleTurn;
    OneStep(MENU_GATEWAY, MENU_CONFIG, events, 13);
    ClicksInSeven(events[13].outcome.inventory);
  }

  lemma ClicksInSeven(inv: Inventory)
    requires inv == Inventory("7", true, false, [0], [36], [Slot(36, "stone", 1, false, false)])
    ensures SaleTurn(MENU_GATEWAY, Sell(0, 2000, Some(2000), Some(""), None, None), inv, 2000) ==
              SaleMove.Click(Sell(0, 2000, Some(2000), Some("7"), Some([]), Some(SalePending(inv.slots, 2000, false))),
                             36)
  {
    assert Occupied(inv.slots, [36]) == inv.slots by {
      assert Occupied(inv.slots[1..], [36]) == [];
    }
    assert SlotNumbers(inv.slots) == [36] by {
      assert SlotNumbers(inv.slots[1..]) == [];
    }
  }

  lemma EmptyMenuRebinds()
    ensures !NamesFirstBound("")
  {
    hide At, Step, Issued, Asking;
    var g, cfg, events := MENU_GATEWAY, MENU_CONFIG, RebindingRun();
    FirstTurn(events);
    TickReads(g, cfg, events, 6, Times(2000, 62000, 0, 0, 0, 0), Some(Sell(0, 2000, None, None, None, None)), 1);
    BindsNothing(events);
    TickReads(g, cfg, events, 10, Times(2000, 62000, 0, 0, 0, 0), Some(Sell(0, 2000, Some(2000), Some(""), None, None)),
              1);
    BindsSeven(events);
    assert Issued(At(g, cfg, events, 13), events[13]) == Some(SlotClick(0, "7"));
  }
}
