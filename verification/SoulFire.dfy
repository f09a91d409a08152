/** The serialized scheduler `SoulFireBehaviors`.

    One tick runs at a time, but it gives way at every `await`: `Pc` is where it waits and
    which local variables it still holds. Chat, world changes, joins and queued commands
    may arrive at each of those points, and the awaited call may end in any way. */
module SoulFire {
  import opened Wrappers

  // ----- what the game tells and is told -----

  /** A chat line, with what its patterns say of it. */
  datatype Text = Text(raw: string, blocked: bool, travels: bool)

  datatype Command = ReadMultipliers | CleanSpawner | Chat(text: Text)

  datatype Config = Config(autosell: bool, interval: Option<nat>, command: Text, autoReturn: bool,
                           spawnerType: string, dropItems: seq<string>, sellItems: seq<string>)

  datatype Gateway = Gateway(nativeAutosell: bool, transferAll: bool)

  datatype Slot = Slot(slot: nat, item: string, count: nat, sells: bool, multiplier: bool)

  datatype Inventory = Inventory(menu: string, saleTitle: bool, multiplierTitle: bool,
                                 container: seq<nat>, player: seq<nat>, slots: seq<Slot>)

  /** What a server line makes the scheduler do. */
  datatype Message = Message(arrived: bool, payout: bool, locked: bool)

  /** How an awaited call ends. */
  datatype Outcome = Done | Failed | Read(inventory: Inventory) | Opened(open: bool)

  // ----- the scheduler's state -----

  datatype SalePending = SalePending(batch: seq<Slot>, at: nat, confirmed: bool)

  datatype Sell = Sell(id: nat, requested: nat, openedAt: Option<nat>, menu: Option<string>,
                       targets: Option<seq<nat>>, pending: Option<SalePending>)

  datatype Kind = Multipliers | Spawner

  datatype Phase = DropPhase | SellPhase

  datatype Pending = Pending(fingerprint: seq<(nat, string, nat)>, slot: Option<Slot>, at: nat, confirmed: bool)

  datatype Foreground = Foreground(id: nat, kind: Kind, deadline: nat, openedAt: Option<nat>, menu: Option<string>,
                                   previousMenu: string, phase: Phase, next: nat, pending: Option<Pending>)

  datatype Times = Times(readyAt: nat, nextSell: nat, pauseStart: nat, pauseEnd: nat, manualUntil: nat,
                         blockedUntil: nat)

  datatype Credit = Credit(left: int, at: nat)

  datatype Home = Home(returning: bool, due: nat, attempts: nat)

  /** What follows once an owned menu has been closed. */
  datatype After = EndTick | SaleFailed | ForegroundOver | Configured(changed: bool)

  datatype Pc =
    | Idle
    | Holding(changed: bool)
    | Entering(now: nat)
    | Sneaking(now: nat)
    | Suspending(command: Command, now: nat)
    | CommandFetch(command: Command, generation: nat, now: nat)
    | CommandClose(command: Command, generation: nat, menu: string, now: nat)
    | HomeOff(text: Text, now: nat)
    | CommandChat(now: nat)
    | MultiplierChat(generation: nat, previousMenu: string, now: nat)
    | SpawnerOpen(generation: nat, previousMenu: string, now: nat)
    | HomeChat(now: nat)
    | OwnedFetch(menu: string, after: After)
    | OwnedClose(after: After)
    | Returning(after: After)
    | SellFetch(generation: nat)
    | LateClose(fetched: nat)
    | SellChat(id: nat, generation: nat, fetched: nat)
    | SellClick(id: nat, menu: string, slot: nat)
    | SellClickAll(id: nat, menu: string)
    | ForegroundFetch(id: nat)
    | ForegroundClose
    | SpawnerClick(id: nat, menu: string, slot: nat)

  /** `id`s stand for object identity: `serial` is the next one. */
  datatype State = State(gateway: Gateway, cfg: Config, online: bool, times: Times,
                         commands: seq<Command>, lastChat: Option<(Text, nat)>, home: Home,
                         sell: Option<Sell>, foreground: Option<Foreground>,
                         credit: Credit, generation: nat, serial: nat, pc: Pc)

  const CREDITS := 3
  const CREDIT_MS := 1500
  const QUEUE_CAP := 32

  function Initial(gateway: Gateway, cfg: Config): State {
    State(gateway, cfg, false, Times(0, 0, 0, 0, 0, 0), [], None, Home(false, 0, 0), None, None, Credit(CREDITS, 0), 0,
          0, Idle)
  }

  function Max(a: nat, b: nat): nat {
    if a < b then b else a
  }

  function Min(a: int, b: int): int {
    if a < b then a else b
  }

  /** Both `null` and the empty string are falsy: the source tells menus apart by truth. */
  predicate Truthy(menu: Option<string>) {
    menu.Some? && menu.value != ""
  }

  /** `null` counts as 0 in a subtraction. */
  function Since(t: Option<nat>): nat {
    if t.Some? then t.value else 0
  }

  // ----- what arrives from outside -----

  function ResetTasks(s: State): State {
    s.(generation := s.generation + 1, sell := None, foreground := None)
  }

  function Transition(s: State, now: nat): State {
    ResetTasks(s).(times := s.times.(readyAt := now + 2000, nextSell := now + 2000))
  }

  function Joining(s: State): State {
    ResetTasks(s).(online := false)
  }

  function Spawned(s: State, now: nat): State {
    Transition(s, now).(online := true)
  }

  /** The rest of `spawned`, once the held items are known. */
  function SpawnedHeld(s: State, now: nat, home: bool): State {
    s.(home := Home(s.cfg.autoReturn && home, now + 5000, 0))
  }

  function Confirm(s: State): State {
    var sell := if s.sell.Some? && s.sell.value.pending.Some?
                then Some(s.sell.value.(pending := Some(s.sell.value.pending.value.(confirmed := true)))) else s.sell;
    var foreground := if s.foreground.Some? && s.foreground.value.kind.Spawner? && s.foreground.value.phase.SellPhase?
                         && s.foreground.value.pending.Some?
                      then
                        var pending := s.foreground.value.pending.value;
                        Some(s.foreground.value.(pending := Some(pending.(confirmed := true))))
                      else s.foreground;
    s.(sell := sell, foreground := foreground)
  }

  function Locked(s: State, now: nat): State {
    ResetTasks(s).(times := s.times.(blockedUntil := now + 2000, readyAt := now + 2000, nextSell := now + 2000))
  }

  function OnChat(s: State, m: Message, now: nat): State {
    var s1 := if m.arrived then s.(home := s.home.(returning := false), times := s.times.(readyAt := now + 2000))
              else s;
    var s2 := if m.payout then Confirm(s1) else s1;
    if m.locked then Locked(s2, now) else s2
  }

  function Enqueue(s: State, c: Command, now: nat): State {
    var said := c.Chat? && c.text.raw != "";
    if c in s.commands then s
    else if said && s.lastChat.Some? && s.lastChat.value.0.raw == c.text.raw && now - s.lastChat.value.1 < 2000 then s
    else if |s.commands| >= QUEUE_CAP then s
    else s.(commands := s.commands + [c], lastChat := if said then Some((c.text, now)) else s.lastChat)
  }

  function Pause(s: State, after: nat, resume: nat, now: nat): State {
    s.(times := if resume == 0 then s.times.(pauseStart := 0, pauseEnd := 0)
                else s.times.(pauseStart := now + after, pauseEnd := now + resume))
  }

  // ----- the tick, from await to await -----

  function Configure(s: State, cfg: Config): State {
    var changed := cfg.autosell != s.cfg.autosell || cfg.interval != s.cfg.interval || cfg.command != s.cfg.command;
    s.(cfg := cfg, home := if cfg.autoReturn then s.home else s.home.(returning := false), pc := Holding(changed))
  }

  function TickStart(s: State, now: nat): State {
    if s.online then s.(pc := Entering(now)) else s
  }

  function CreditReady(c: Credit, now: nat): Credit {
    var at := if c.at == 0 then now else c.at;
    var earned := (now - at) / CREDIT_MS;
    if earned > 0 then Credit(Min(CREDITS, c.left + earned), at + earned * CREDIT_MS) else Credit(c.left, at)
  }

  function Spend(s: State): State {
    s.(credit := s.credit.(left := s.credit.left - 1))
  }

  function CancelSell(s: State, after: After): State {
    var s1 := s.(sell := None);
    if s.sell.Some? && Truthy(s.sell.value.menu) then s1.(pc := OwnedFetch(s.sell.value.menu.value, after))
    else s1.(pc := Returning(after))
  }

  /** 15 s, doubled at most three times. */
  function Backoff(attempts: nat): nat {
    if attempts <= 1 then 15000 else if attempts == 2 then 30000 else if attempts == 3 then 60000 else 120000
  }

  function TakeCommand(s: State, now: nat): State
    requires s.commands != []
  {
    var credit := CreditReady(s.credit, now);
    if credit.left < 1 then s.(credit := credit, pc := Idle)
    else s.(credit := credit, commands := s.commands[1..], pc := Suspending(s.commands[0], now))
  }

  function Decide(s: State, now: nat): State {
    if s.commands != [] then TakeCommand(s, now)
    else if s.times.pauseStart <= now < s.times.pauseEnd then CancelSell(s, EndTick)
    else if now < s.times.readyAt then s.(pc := Idle)
    else if s.foreground.Some? then
      s.(pc := if now < s.foreground.value.next then Idle else ForegroundFetch(s.foreground.value.id))
    else if s.home.returning then GoHome(s, now)
    else if !s.cfg.autosell || now < s.times.manualUntil || s.gateway.nativeAutosell then s.(pc := Idle)
    else s.(pc := if s.sell.None? && now < s.times.nextSell then Idle else SellFetch(s.generation))
  }

  function GoHome(s: State, now: nat): State {
    if now < s.home.due then s.(pc := Idle)
    else
      var credit := CreditReady(s.credit, now);
      if credit.left < 1 then s.(credit := credit, pc := Idle)
      else
        var attempts := s.home.attempts + 1;
        s.(credit := credit, home := s.home.(attempts := attempts, due := now + Backoff(attempts)), pc := HomeChat(now))
  }

  function Finish(s: State, after: After, now: nat): State {
    match after
    case EndTick => s.(pc := Idle)
    case SaleFailed => s.(times := s.times.(nextSell := now), pc := Idle)
    case ForegroundOver => s.(foreground := None, pc := Idle)
    case Configured(changed) => s.(times := if changed then s.times.(nextSell := now) else s.times, pc := Idle)
  }

  // ----- commands -----

  function RunCommand(s: State, command: Command, generation: nat, menu: string, at: nat, now: nat): State {
    var s1 := s.(times := s.times.(manualUntil := now + 5000));
    match command
    case ReadMultipliers => s1.(pc := MultiplierChat(generation, menu, at))
    case CleanSpawner => s1.(pc := SpawnerOpen(generation, menu, at))
    case Chat(text) =>
      if text.raw == "" then s1.(pc := Idle)
      else if text.travels then s1.(home := s1.home.(returning := false), pc := HomeOff(text, at))
      else Say(s1, text, at)
  }

  function Say(s: State, text: Text, at: nat): State {
    s.(pc := if text.blocked then Idle else CommandChat(at))
  }

  function CommandRead(s: State, command: Command, generation: nat, at: nat, o: Outcome, now: nat): State {
    if o.Read? then
      if o.inventory.container != [] then s.(pc := CommandClose(command, generation, o.inventory.menu, at))
      else RunCommand(s, command, generation, o.inventory.menu, at, now)
    else if s.gateway.nativeAutosell && command.Chat? then RunCommand(s, command, generation, "", at, now)
    else s.(pc := Idle)
  }

  function StartForeground(s: State, kind: Kind, previousMenu: string, now: nat): State {
    var task := if kind.Multipliers?
                then Foreground(s.serial, kind, now + 10000, None, None, previousMenu, DropPhase, now, None)
                else Foreground(s.serial, kind, now + 60000, None, None, previousMenu, DropPhase, now + 400, None);
    s.(foreground := Some(task), serial := s.serial + 1, pc := Idle)
  }

  function MultipliersAsked(s: State, generation: nat, menu: string, o: Outcome, now: nat): State {
    if !o.Done? then s.(pc := Idle)
    else if generation != s.generation then Spend(s).(pc := Idle)
    else StartForeground(Spend(s), Multipliers, menu, now)
  }

  // ----- selling -----

  function Populated(inv: Inventory): seq<nat> {
    SlotNumbers(Occupied(inv.slots, inv.player))
  }

  /** The stacks lying in one of `places`, in order. */
  function Occupied(slots: seq<Slot>, places: seq<nat>): (r: seq<Slot>)
    ensures forall x <- r :: x in slots && x.slot in places && x.count > 0
    ensures forall x <- slots :: x.slot in places && x.count > 0 ==> x in r
  {
    if slots == [] then []
    else if slots[0].slot in places && slots[0].count > 0 then [slots[0]] + Occupied(slots[1..], places)
    else Occupied(slots[1..], places)
  }

  function SlotNumbers(slots: seq<Slot>): (r: seq<nat>)
    ensures |r| == |slots| && forall i :: 0 <= i < |r| ==> r[i] == slots[i].slot
  {
    if slots == [] then [] else [slots[0].slot] + SlotNumbers(slots[1..])
  }

  function Find(slots: seq<Slot>, n: nat): (r: Option<Slot>)
    ensures r.Some? ==> r.value in slots && r.value.slot == n
    ensures r.None? ==> forall x <- slots :: x.slot != n
  {
    if slots == [] then None else if slots[0].slot == n then Some(slots[0]) else Find(slots[1..], n)
  }

  /** `s` still lies where it lay, no smaller. */
  predicate Unmoved(slots: seq<Slot>, s: Slot) {
    var now := Find(slots, s.slot);
    now.Some? && now.value.item == s.item && now.value.count >= s.count
  }

  predicate AllUnmoved(slots: seq<Slot>, batch: seq<Slot>) {
    forall x <- batch :: Unmoved(slots, x)
  }

  /** What a running sale does on a look at the inventory. */
  datatype SaleMove = Wait(sale: Sell) | Fail(sale: Sell) | Cancel(sale: Sell) | GiveUp | MenuClosed
                    | Click(sale: Sell, slot: nat) | ClickAll(sale: Sell)

  function SaleTurn(g: Gateway, sale: Sell, inv: Inventory, now: nat): SaleMove {
    if sale.openedAt.None? && now - sale.requested >= 10000 then Fail(sale)
    else if sale.openedAt.Some? && now - sale.openedAt.value >= 120000 then Fail(sale)
    else if inv.container == [] then (if Truthy(sale.menu) then MenuClosed else Wait(sale))
    else if !inv.saleTitle || (Truthy(sale.menu) && sale.menu.value != inv.menu) then GiveUp
    else SaleOpen(g, if Truthy(sale.menu) then sale else sale.(menu := Some(inv.menu), openedAt := Some(now)), inv, now)
  }

  function SaleOpen(g: Gateway, sale: Sell, inv: Inventory, now: nat): SaleMove {
    var populated := Populated(inv);
    if sale.targets.None? && populated == [] && now - Since(sale.openedAt) < 500 then Wait(sale)
    else
      var sale1 := if sale.targets.None? then sale.(targets := Some(populated)) else sale;
      if sale.pending.Some? && !sale.pending.value.confirmed && AllUnmoved(inv.slots, sale.pending.value.batch) then
        (if now - sale.pending.value.at >= 5000 then Fail(sale1) else Wait(sale1))
      else SaleNext(g, sale1.(pending := None), inv, now)
  }

  function SaleNext(g: Gateway, sale: Sell, inv: Inventory, now: nat): SaleMove
    requires sale.targets.Some?
  {
    var targets := sale.targets.value;
    if targets == [] then Cancel(sale)
    else if g.transferAll then
      var items := Occupied(inv.slots, targets);
      var sale1 := sale.(targets := Some([]));
      if items == [] then Cancel(sale1) else ClickAll(sale1.(pending := Some(SalePending(items, now, false))))
    else
      var sale1 := sale.(targets := Some(targets[1..]));
      var items := Occupied(inv.slots, [targets[0]]);
      if items == [] then Wait(sale1) else Click(sale1.(pending := Some(SalePending([items[0]], now, false))),
                                                 items[0].slot)
  }

  function SellRead(s: State, generation: nat, inv: Inventory, now: nat): State {
    if generation != s.generation then s.(pc := Idle)
    else if s.sell.None? then
      if inv.container != [] then s.(pc := if inv.saleTitle then LateClose(now) else Idle)
      else if now < s.times.nextSell then s.(pc := Idle)
      else s.(sell := Some(Sell(s.serial, now, None, None, None, None)), serial := s.serial + 1,
              pc := SellChat(s.serial, s.generation, now))
    else SaleMoved(s, SaleTurn(s.gateway, s.sell.value, inv, now), inv.menu, now)
  }

  function SaleMoved(s: State, move: SaleMove, menu: string, now: nat): State {
    match move
    case Wait(sale) => s.(sell := Some(sale), pc := Idle)
    case Fail(sale) => CancelSell(s.(sell := Some(sale)), SaleFailed)
    case Cancel(sale) => CancelSell(s.(sell := Some(sale)), EndTick)
    case GiveUp => s.(sell := None, pc := Idle)
    case MenuClosed => s.(sell := None, times := s.times.(nextSell := Max(s.times.nextSell, now)), pc := Idle)
    case Click(sale, slot) => s.(sell := Some(sale), pc := SellClick(sale.id, menu, slot))
    case ClickAll(sale) => s.(sell := Some(sale), pc := SellClickAll(sale.id, menu))
  }

  predicate Selling(s: State, id: nat) {
    s.sell.Some? && s.sell.value.id == id
  }

  function SaleAsked(s: State, id: nat, generation: nat, fetched: nat, o: Outcome, now: nat): State {
    if o.Done? && !s.cfg.command.blocked then
      if !Selling(s, id) || generation != s.generation then s.(pc := Idle)
      else
        var interval := if s.cfg.interval.Some? then s.cfg.interval.value else 60;
        s.(sell := Some(s.sell.value.(requested := now)),
           times := s.times.(nextSell := fetched + Max(250, interval * 1000)), pc := Idle)
    else if Selling(s, id) then s.(sell := None, times := s.times.(nextSell := now + 5000), pc := Idle)
    else s.(pc := Idle)
  }

  function SaleClicked(s: State, id: nat, o: Outcome, now: nat): State {
    if !Selling(s, id) || s.sell.value.pending.None? then s.(pc := Idle)
    else if o.Done? then
      s.(sell := Some(s.sell.value.(pending := Some(s.sell.value.pending.value.(at := now)))), pc := Idle)
    else if s.sell.value.pending.value.confirmed then s.(pc := Idle)
    else CancelSell(s, SaleFailed)
  }

  // ----- foreground tasks -----

  function SortDown(slots: seq<Slot>): seq<Slot> {
    if slots == [] then [] else Insert(slots[0], SortDown(slots[1..]))
  }

  function Insert(x: Slot, slots: seq<Slot>): seq<Slot> {
    if slots == [] || slots[0].slot <= x.slot then [x] + slots else [slots[0]] + Insert(x, slots[1..])
  }

  function Named(slots: seq<Slot>, names: seq<string>): (r: seq<Slot>)
    ensures forall x <- r :: x in slots && x.item in names
  {
    if slots == [] then []
    else if slots[0].item in names then [slots[0]] + Named(slots[1..], names)
    else Named(slots[1..], names)
  }

  function Count(slots: seq<Slot>, item: string): nat {
    if slots == [] then 0 else (if slots[0].item == item then 1 else 0) + Count(slots[1..], item)
  }

  /** The stacks of `slots` whose item fills more than one stack of `among`. */
  function Spare(slots: seq<Slot>, among: seq<Slot>): (r: seq<Slot>)
    ensures forall x <- r :: x in slots && Count(among, x.item) > 1
  {
    if slots == [] then []
    else if Count(among, slots[0].item) > 1 then [slots[0]] + Spare(slots[1..], among)
    else Spare(slots[1..], among)
  }

  function Fingerprint(slots: seq<Slot>): seq<(nat, string, nat)> {
    if slots == [] then [] else [(slots[0].slot, slots[0].item, slots[0].count)] + Fingerprint(slots[1..])
  }

  function SellButton(stock: seq<Slot>, configured: seq<string>): (r: Option<Slot>)
    ensures r.Some? ==> r.value in stock && r.value.item !in configured && r.value.sells
  {
    if stock == [] then None
    else if stock[0].item !in configured && stock[0].sells then Some(stock[0])
    else SellButton(stock[1..], configured)
  }

  datatype SpawnerMove = Rest(task: Foreground) | Abandon(task: Foreground) | Close(task: Foreground)
                       | DropStack(task: Foreground, slot: nat) | Press(task: Foreground, slot: nat)

  function Matching(cfg: Config, phase: Phase, stock: seq<Slot>): seq<Slot> {
    if cfg.spawnerType != "" then Named(stock, if phase.DropPhase? then cfg.dropItems else cfg.sellItems)
    else SortDown(stock)
  }

  predicate Unchanged(stock: seq<Slot>, matching: seq<Slot>, p: Pending) {
    if p.slot.Some? then Unmoved(stock, p.slot.value) else Fingerprint(matching) == p.fingerprint
  }

  function SpawnerTurn(cfg: Config, task: Foreground, inv: Inventory, now: nat): SpawnerMove {
    var stock := Occupied(inv.slots, inv.container);
    if stock == [] && now - Since(task.openedAt) < 1000 then Rest(task)
    else
      var matching := Matching(cfg, task.phase, stock);
      if task.pending.Some? && !task.pending.value.confirmed && Unchanged(stock, matching, task.pending.value) then
        (if now - task.pending.value.at >= 5000 then Abandon(task) else Rest(task))
      else SpawnerNext(cfg, task.(pending := None), inv, stock, matching, now)
  }

  function SpawnerNext(cfg: Config, task: Foreground, inv: Inventory, stock: seq<Slot>, matching: seq<Slot>,
                       now: nat): SpawnerMove {
    var typed := cfg.spawnerType != "";
    var eligible := if typed then Spare(matching, matching) else matching;
    var legacyDone := !typed && (|inv.container| < 3 || Find(stock, inv.container[2]).None?);
    if eligible == [] || legacyDone then
      (if task.phase.DropPhase? && typed then Rest(task.(phase := SellPhase)) else Close(task))
    else if task.phase.DropPhase? then
      DropStack(task.(pending := Some(Pending(Fingerprint(matching), Some(eligible[0]), now, false))), eligible[0].slot)
    else
      var button := SellButton(stock, cfg.dropItems + cfg.sellItems);
      if button.Some? then Press(task.(pending := Some(Pending(Fingerprint(matching), None, now, false))),
                                 button.value.slot)
      else Rest(task.(next := now + 400))
  }

  predicate Reading(s: State, id: nat) {
    s.foreground.Some? && s.foreground.value.id == id
  }

  predicate NineMultipliers(inv: Inventory) {
    && |inv.container| >= 9
    && forall i :: 0 <= i < 9 ==> var slot := Find(inv.slots, inv.container[i]); slot.Some? && slot.value.multiplier
  }

  function Bind(task: Foreground, inv: Inventory, now: nat): Foreground {
    if Truthy(task.menu) then task else task.(menu := Some(inv.menu), openedAt := Some(now))
  }

  function ForegroundRead(s: State, id: nat, inv: Inventory, now: nat): State {
    if !Reading(s, id) then s.(pc := Idle)
    else
      var task := s.foreground.value;
      if now >= task.deadline then
        (if Truthy(task.menu) then s.(pc := OwnedFetch(task.menu.value, ForegroundOver))
         else s.(foreground := None, pc := Idle))
      else if inv.container == [] then s.(foreground := if Truthy(task.menu) then None else Some(task), pc := Idle)
      else if inv.menu == task.previousMenu then s.(pc := Idle)
      else if Truthy(task.menu) && task.menu.value != inv.menu then s.(foreground := None, pc := Idle)
      else
        var bound := Bind(task, inv, now);
        if task.kind.Multipliers? then
          s.(foreground := Some(bound), pc := if inv.multiplierTitle && NineMultipliers(inv) then ForegroundClose
                                              else Idle)
        else SpawnerMoved(s, SpawnerTurn(s.cfg, bound, inv, now), inv.menu)
  }

  function SpawnerMoved(s: State, move: SpawnerMove, menu: string): State {
    match move
    case Rest(task) => s.(foreground := Some(task), pc := Idle)
    case Abandon(task) => s.(foreground := Some(task), pc := OwnedFetch(menu, ForegroundOver))
    case Close(task) => s.(foreground := Some(task), pc := ForegroundClose)
    case DropStack(task, slot) => s.(foreground := Some(task), pc := SpawnerClick(task.id, menu, slot))
    case Press(task, slot) => s.(foreground := Some(task), pc := SpawnerClick(task.id, menu, slot))
  }

  function SpawnerClicked(s: State, id: nat, o: Outcome, now: nat): State {
    if !o.Done? || !Reading(s, id) then s.(pc := Idle)
    else
      var task := s.foreground.value;
      var pending := if task.pending.Some? then Some(task.pending.value.(at := now)) else None;
      s.(foreground := Some(task.(pending := pending, next := now + 400)), pc := Idle)
  }

  // ----- one step -----

  /** Running a command. */
  predicate CommandPc(pc: Pc) {
    pc.Suspending? || pc.CommandFetch? || pc.CommandClose? || pc.MultiplierChat? || pc.SpawnerOpen?
  }

  /** Reading or clicking for a task. */
  predicate TurnPc(pc: Pc) {
    pc.Sneaking? || pc.SellFetch? || pc.SellChat? || pc.SellClick? || pc.SellClickAll? || pc.ForegroundFetch?
    || pc.SpawnerClick?
  }

  /** Sending a line, which costs a credit. */
  predicate SayPc(pc: Pc) {
    pc.HomeOff? || pc.CommandChat? || pc.HomeChat?
  }

  function ResumeCommand(s: State, o: Outcome, now: nat): State
    requires CommandPc(s.pc)
  {
    match s.pc
    case Suspending(command, at) =>
      if o.Done? then s.(sell := None, foreground := None, pc := CommandFetch(command, s.generation, at))
      else s.(pc := Idle)
    case CommandFetch(command, generation, at) => CommandRead(s, command, generation, at, o, now)
    case CommandClose(command, generation, menu, at) =>
      if o.Done? then RunCommand(s, command, generation, menu, at, now) else s.(pc := Idle)
    case MultiplierChat(generation, menu, _) => MultipliersAsked(s, generation, menu, o, now)
    case SpawnerOpen(generation, menu, _) =>
      if o == Opened(true) && generation == s.generation then StartForeground(s, Spawner, menu, now) else s.(pc := Idle)
  }

  function ResumeTurn(s: State, o: Outcome, now: nat): State
    requires TurnPc(s.pc)
  {
    match s.pc
    case Sneaking(at) => Decide(s, at)
    case SellFetch(generation) => if o.Read? then SellRead(s, generation, o.inventory, now) else s.(pc := Idle)
    case SellChat(id, generation, fetched) => SaleAsked(s, id, generation, fetched, o, now)
    case SellClick(id, _, _) => SaleClicked(s, id, o, now)
    case SellClickAll(id, _) => SaleClicked(s, id, o, now)
    case ForegroundFetch(id) => if o.Read? then ForegroundRead(s, id, o.inventory, now) else s.(pc := Idle)
    case SpawnerClick(id, _, _) => SpawnerClicked(s, id, o, now)
  }

  function ResumeSay(s: State, o: Outcome, now: nat): State
    requires SayPc(s.pc)
  {
    if !o.Done? then s.(pc := Idle)
    else
      match s.pc
      case HomeOff(text, at) => Say(s, text, at)
      case CommandChat(_) => Spend(s).(times := s.times.(manualUntil := now + 5000), pc := Idle)
      case HomeChat(_) => Spend(s).(pc := Idle)
  }

  function ResumeMenu(s: State, o: Outcome, now: nat): State
    requires !CommandPc(s.pc) && !TurnPc(s.pc) && !SayPc(s.pc)
  {
    match s.pc
    case Idle => s
    case Holding(changed) =>
      if !o.Done? then s.(pc := Idle)
      else if s.cfg.autosell then Finish(s, Configured(changed), now)
      else CancelSell(s, Configured(changed))
    case Entering(at) => s.(pc := if !o.Done? || at < s.times.blockedUntil then Idle else Sneaking(at))
    case OwnedFetch(menu, after) =>
      if !o.Read? then s.(pc := Idle)
      else s.(pc := if o.inventory.menu == menu && o.inventory.container != [] then OwnedClose(after)
                    else Returning(after))
    case OwnedClose(after) => s.(pc := if o.Done? then Returning(after) else Idle)
    case Returning(after) => Finish(s, after, now)
    case LateClose(fetched) => s.(times := if o.Done? then s.times.(nextSell := fetched + 500) else s.times, pc := Idle)
    case ForegroundClose => if o.Done? then s.(foreground := None, pc := Idle) else s.(pc := Idle)
  }

  function Resume(s: State, o: Outcome, now: nat): State {
    if CommandPc(s.pc) then ResumeCommand(s, o, now)
    else if TurnPc(s.pc) then ResumeTurn(s, o, now)
    else if SayPc(s.pc) then ResumeSay(s, o, now)
    else ResumeMenu(s, o, now)
  }

  datatype Event =
    | OnJoining | OnSpawned(now: nat) | OnSpawnedHeld(now: nat, home: bool) | OnTransition(now: nat)
    | OnMessage(message: Message, now: nat) | OnEnqueue(command: Command, now: nat)
    | OnPause(after: nat, resume: nat, now: nat)
    | OnConfigure(cfg: Config) | OnTick(now: nat) | OnResume(outcome: Outcome, now: nat)

  /** The busy lock: configuring and ticking start only when nothing is awaited. */
  function Step(s: State, e: Event): State {
    match e
    case OnJoining => Joining(s)
    case OnSpawned(now) => Spawned(s, now)
    case OnSpawnedHeld(now, home) => SpawnedHeld(s, now, home)
    case OnTransition(now) => Transition(s, now)
    case OnMessage(message, now) => OnChat(s, message, now)
    case OnEnqueue(command, now) => Enqueue(s, command, now)
    case OnPause(after, resume, now) => Pause(s, after, resume, now)
    case OnConfigure(cfg) => if s.pc.Idle? then Configure(s, cfg) else s
    case OnTick(now) => if s.pc.Idle? then TickStart(s, now) else s
    case OnResume(outcome, now) => Resume(s, outcome, now)
  }
}
