/** The native scheduler `BehaviorState`: manual commands, foreground tasks and the auto-sell
    cycle, driven by game ticks and packets in any order.

    A `Look` is what the game shows of the bot at one moment: any look may follow any other. */
module NativeScheduler {
  import opened Wrappers

  // ----- what the game shows -----

  datatype Title = Title(text: string, sale: bool)

  /** `sells` tells that name or lore has one of the words of a sell button. */
  datatype Stack = Stack(item: string, present: bool, sells: bool)

  /** The open inventory; id 0 is the player's own. `multipliers` tells that its top row is readable. */
  datatype Inventory = Inventory(id: int, title: Option<Title>, slots: Option<seq<Stack>>, multipliers: bool)

  datatype Look = Look(inGame: bool, loaded: bool, inventory: Option<Inventory>, session: nat, items: nat,
                       spawnerInReach: bool, sends: bool)

  // ----- the scheduler's state -----

  datatype Config = Config(autosell: bool, interval: nat, command: string, spawnerType: string,
                           dropItems: seq<string>, sellItems: seq<string>)

  datatype Manual = Chat(text: string, teleports: bool) | SellMultipliers

  /** Tokens for chat lines: a real number of them, as of `at`. */
  datatype Budget = Budget(tokens: real, at: nat)

  datatype Phase =
    | Idle
    | WaitingForMenu(since: nat, startedEmpty: bool, content: Option<(int, nat)>)
    | Selling(menu: int, session: nat, next: nat, end: nat, episode: nat)
    | Closing(closeAt: nat, menu: int, session: nat)

  datatype Stage = WaitMenu | DropStage | SellStage

  datatype Spawner = Spawner(menuDeadline: nat, runDeadline: nat, steps: nat, stage: Stage, nextAt: nat,
                             lastCount: Option<nat>, stalls: nat, misses: nat, dropped: nat, sold: nat)

  datatype Active = Cleaning(spawner: Spawner) | Scanning(deadline: nat, menu: Option<int>, nextCheck: nat)

  datatype Clock = Clock(nextSellAt: nat, nextClickAt: nat, pause: Option<(nat, nat)>)

  datatype World = World(spawned: bool, awaiting: bool, recoveryAt: Option<nat>, readyAt: nat)

  datatype Guard = Guard(menuUntil: Option<nat>, menuId: Option<int>, priorityUntil: Option<nat>,
                         cancelledUntil: Option<nat>,
                         requestedAt: Option<nat>, sellMenu: Option<(int, Title)>)

  /** An automatic click, the look it was made on, and whether the menu was the sale's own there. */
  datatype Click = Click(at: nat, slot: nat, menu: int, session: nat, episode: nat, look: Look, owned: bool)

  /** What was asked of the scheduler and what it did. */
  datatype Record = Record(enqueued: seq<Manual>, dispatched: seq<Manual>, sent: seq<nat>, clicks: seq<Click>)

  datatype State = State(cfg: Config, clock: Clock, queue: seq<Manual>, budget: Budget, phase: Phase, world: World,
                         guard: Guard,
                         tasks: nat, active: Option<Active>, episode: nat, record: Record)

  const BURST := 3.0
  const TOKEN_MS := 1500
  const CLICK_MS := 100
  const CLOSE_MS := 50
  const ORPHAN_MS := 100
  const MENU_TIMEOUT_MS := 500
  const LATE_MENU_MS := 10000
  const MANUAL_GUARD_MS := 5000
  const SPAWN_MS := 2000
  const RECOVERY_MS := 5000
  const MAX_STEPS := 200
  const MAX_STALLS := 4
  const STEP_MS := 400
  const SPAWNER_MENU_MS := 2000
  const SPAWNER_RUN_MS := 90000
  const PLAYER_SLOTS := 36

  function Initial(cfg: Config, pause: Option<(nat, nat)>, now: nat): State {
    State(cfg, Clock(now, now, pause), [], Budget(BURST, now), Idle, World(false, false, None, now),
          Guard(None, None, None, None, None, None), 0, None, 0, Record([], [], [], []))
  }

  function Max(a: nat, b: nat): nat {
    if a < b then b else a
  }

  // ----- the budget -----

  function Refilled(b: Budget, now: nat): Budget {
    var elapsed := if now > b.at then now - b.at else 0;
    var tokens := b.tokens + elapsed as real / TOKEN_MS as real;
    Budget(if tokens < BURST then tokens else BURST, now)
  }

  function Spent(s: State, now: nat): State {
    s.(budget := s.budget.(tokens := s.budget.tokens - 1.0), record := s.record.(sent := s.record.sent + [now]))
  }

  // ----- helpers -----

  predicate Before(now: nat, until: Option<nat>) {
    until.Some? && now < until.value
  }

  predicate Paused(s: State, now: nat) {
    s.clock.pause.Some? && s.clock.pause.value.0 <= now < s.clock.pause.value.1
  }

  predicate OwnsSale(g: Guard, b: Look) {
    && b.inventory.Some? && b.inventory.value.id != 0 && b.inventory.value.title.Some?
    && (|| b.inventory.value.title.value.sale
        || g.sellMenu == Some((b.inventory.value.id, b.inventory.value.title.value)))
  }

  predicate ManualMenuPending(g: Guard, b: Look, now: nat) {
    || Before(now, g.priorityUntil) || Before(now, g.menuUntil)
    || (&& g.menuId.Some? && b.inventory.Some? && b.inventory.value.id == g.menuId.value
        && !(b.inventory.value.title.Some? && b.inventory.value.title.value.sale))
  }

  function Postponed(s: State, at: nat): State {
    s.(world := s.world.(readyAt := Max(s.world.readyAt, at)),
       clock := s.clock.(nextSellAt := Max(s.clock.nextSellAt, at)))
  }

  function Reset(s: State): State {
    s.(phase := Idle, active := None,
       guard := s.guard.(menuUntil := None, menuId := None, requestedAt := None, sellMenu := None))
  }

  // ----- the world -----

  function Login(s: State, now: nat): State {
    Reset(s).(world := World(false, true, Some(now + RECOVERY_MS), s.world.readyAt))
  }

  function PositionSync(s: State, b: Look, now: nat): State {
    if s.world.awaiting && !b.loaded then s
    else
      var s1 := if s.world.awaiting
                then Postponed(s.(world := World(true, false, None, s.world.readyAt)), now + SPAWN_MS) else s;
      if !s1.world.spawned then s1
      else
        var s2 := Postponed(Reset(s1), now + 100);
        s2.(clock := s2.clock.(nextSellAt := s2.world.readyAt))
  }

  function SpawnedIn(s: State, now: nat): State {
    Reset(s).(world := World(true, false, None, now + SPAWN_MS), clock := s.clock.(nextSellAt := now + SPAWN_MS))
  }

  function Recovered(s: State, b: Look, now: nat): State {
    if !s.world.spawned && s.world.recoveryAt.Some? && now >= s.world.recoveryAt.value && b.inGame && b.loaded
       && b.inventory.Some?
    then SpawnedIn(s, now) else s
  }

  // ----- manual commands -----

  /** The text of a command, without the white space around it. */
  function Line(m: Manual): string {
    if m.Chat? then m.text else "/sellmulti"
  }

  function IsSpace(c: char): bool {
    c == ' ' || c == '\t' || c == '\n' || c == '\r'
  }

  function Trim(s: string): string {
    if s == "" then s
    else if IsSpace(s[0]) then Trim(s[1..])
    else if IsSpace(s[|s| - 1]) then Trim(s[..|s| - 1])
    else s
  }

  function Cancelling(s: State, m: Manual, b: Look, now: nat): Option<nat> {
    if Line(m) == Trim(s.cfg.command) then None
    else if s.guard.requestedAt.Some? || !s.phase.Idle? || OwnsSale(s.guard, b) then Some(now + LATE_MENU_MS)
    else s.guard.cancelledUntil
  }

  function Interrupting(s: State, m: Manual, b: Look, now: nat): State {
    Reset(s.(guard := s.guard.(cancelledUntil := Cancelling(s, m, b, now),
                               priorityUntil := Some(now + MANUAL_GUARD_MS))))
  }

  function AfterCommand(s: State, m: Manual, now: nat): State {
    var s1 := Postponed(s, now + if m.Chat? && m.teleports then 750 else 100);
    if m.SellMultipliers? then
      s1.(guard := s1.guard.(priorityUntil := None, menuUntil := None),
          active := Some(Scanning(now + 10000, None, now)))
    else
      s1.(guard := s1.guard.(menuUntil := if m.text != "" && m.text[0] == '/' then Some(now + MANUAL_GUARD_MS)
                                          else None))
  }

  function ManualChat(s: State, b: Look, now: nat): (State, bool) {
    if !b.inGame then (s, false)
    else
      var s1 := s.(budget := Refilled(s.budget, now));
      if s1.budget.tokens < 1.0 || s1.queue == [] then (s1, false)
      else
        var task := s1.queue[0];
        var s2 := Interrupting(s1, task, b, now);
        if !b.sends then (s2, false)
        else
          var s3 := Spent(s2, now).(queue := s2.queue[1..]);
          (AfterCommand(s3.(record := s3.record.(dispatched := s3.record.dispatched + [task])), task, now), true)
  }

  // ----- foreground tasks -----

  function Scanned(s: State, b: Look, now: nat, p: Active): State
    requires p.Scanning?
  {
    if now < p.nextCheck && now < p.deadline then s
    else
      var s1 := s.(active := Some(p.(nextCheck := now + 50)));
      var readable := b.inventory.Some? && b.inventory.value.id != 0 && Some(b.inventory.value.id) == p.menu
                      && b.inventory.value.multipliers;
      if readable then s.(active := None, clock := s.clock.(nextSellAt := Max(s.clock.nextSellAt, now + ORPHAN_MS)))
      else if now >= p.deadline then s.(active := None)
      else s1
  }

  /** An item id without its namespace. */
  function Bare(id: string): string {
    if ':' in id then Bare(id[1..]) else id
  }

  predicate Lists(names: seq<string>, item: string) {
    exists n <- names :: Bare(n) == Bare(item)
  }

  /** The first `n` slots that hold one of `names`. */
  function Matching(slots: seq<Stack>, n: nat, names: seq<string>): (r: seq<nat>)
    requires n <= |slots|
    ensures forall x :: x in r <==> 0 <= x < n && slots[x].present && Lists(names, slots[x].item)
    ensures forall i, j :: 0 <= i < j < |r| ==> r[i] < r[j]
  {
    if n == 0 then []
    else
      var rest := Matching(slots, n - 1, names);
      assert forall i :: 0 <= i < |rest| ==> rest[i] in rest;
      rest + if slots[n - 1].present && Lists(names, slots[n - 1].item) then [n - 1] else []
  }

  function Present(slots: seq<Stack>, n: nat): (r: seq<nat>)
    requires n <= |slots|
    ensures forall x :: x in r <==> 0 <= x < n && slots[x].present
  {
    if n == 0 then [] else Present(slots, n - 1) + if slots[n - 1].present then [n - 1] else []
  }

  function SellSlot(slots: seq<Stack>, from: nat, n: nat, stock: seq<string>): (r: Option<nat>)
    requires from <= n <= |slots|
    ensures r.Some? ==>
              from <= r.value < n && slots[r.value].present && slots[r.value].sells
              && !Lists(stock, slots[r.value].item)
    ensures r.None? ==> forall x :: from <= x < n ==> !(slots[x].present && slots[x].sells
                                                        && !Lists(stock, slots[x].item))
    decreases n - from
  {
    if from == n then None
    else if slots[from].present && !Lists(stock, slots[from].item) && slots[from].sells then Some(from)
    else SellSlot(slots, from + 1, n, stock)
  }

  /** What a turn of the spawner task does: nothing, go on later, end, or click and go on. */
  datatype Move = Nothing | Later(p: Spawner) | End | Throw(p: Spawner, slots: seq<nat>) | Press(p: Spawner, slot: nat)

  function ContainerLength(slots: seq<Stack>): nat {
    if |slots| >= PLAYER_SLOTS then |slots| - PLAYER_SLOTS else 0
  }

  function SpawnerTurn(cfg: Config, p: Spawner, b: Look, now: nat): Move {
    if b.inventory.None? then Nothing
    else if b.inventory.value.id == 0 then (if now >= p.menuDeadline then End else Nothing)
    else if now >= p.runDeadline || p.steps >= MAX_STEPS then End
    else if b.inventory.value.slots.None? || ContainerLength(b.inventory.value.slots.value) == 0 then Nothing
    else if Trim(cfg.spawnerType) == "" then LegacyTurn(p, b.inventory.value.slots.value, now)
    else TypedTurn(cfg, Started(cfg, p), b.inventory.value.slots.value, now)
  }

  function Started(cfg: Config, p: Spawner): Spawner {
    if !p.stage.WaitMenu? then p
    else p.(stage := if cfg.dropItems == [] then SellStage else DropStage, lastCount := None, stalls := 0)
  }

  /** A click has been made. */
  function Stepped(p: Spawner, now: nat): Spawner {
    p.(stalls := p.stalls + 1, steps := p.steps + 1, nextAt := now + STEP_MS)
  }

  function Progressed(p: Spawner, count: nat): Spawner {
    p.(stalls := if p.lastCount.None? || count < p.lastCount.value then 0 else p.stalls, lastCount := Some(count))
  }

  function TypedTurn(cfg: Config, p0: Spawner, slots: seq<Stack>, now: nat): Move {
    if now < p0.nextAt then Later(p0)
    else
      var n := ContainerLength(slots);
      var matching := Matching(slots, n, if p0.stage.DropStage? then cfg.dropItems else cfg.sellItems);
      var p := Progressed(p0, |matching|);
      if |matching| <= 1 || p.stalls >= MAX_STALLS then
        (if p.stage.DropStage?
         then Later(p.(stage := SellStage, nextAt := now + STEP_MS, lastCount := None, stalls := 0,
                       misses := 0)) else End)
      else if p.stage.DropStage? then
        Throw(Stepped(p.(dropped := p.dropped + |matching| - 1), now), matching[..|matching| - 1])
      else SellTurn(cfg, p, slots, now)
  }

  function SellTurn(cfg: Config, p: Spawner, slots: seq<Stack>, now: nat): Move {
    var button := SellSlot(slots, 0, ContainerLength(slots), cfg.dropItems + cfg.sellItems);
    if button.Some? then Press(Stepped(p.(misses := 0, sold := p.sold + 1), now), button.value)
    else
      var p1 := p.(misses := p.misses + 1, steps := p.steps + 1);
      if p1.misses >= MAX_STALLS then End else Later(p1.(nextAt := now + STEP_MS))
  }

  function LegacyTurn(p0: Spawner, slots: seq<Stack>, now: nat): Move {
    var n := ContainerLength(slots);
    if n > 2 && !slots[2].present then End
    else if now < p0.nextAt then Later(p0)
    else
      var remaining := Present(slots, n);
      if !(p0.lastCount.None? || |remaining| < p0.lastCount.value) && p0.stalls >= MAX_STALLS then End
      else
        var p := Progressed(p0, |remaining|);
        Throw(Stepped(p.(stage := DropStage, dropped := p.dropped + |remaining|), now), remaining)
  }

  function Cleaned(s: State, move: Move): State {
    match move
    case Nothing => s
    case Later(p) => s.(active := Some(Cleaning(p)))
    case End => s.(active := None)
    case Throw(p, _) => s.(active := Some(Cleaning(p)))
    case Press(p, _) => s.(active := Some(Cleaning(p)))
  }

  function Advanced(s: State, b: Look, now: nat): State {
    if s.active.None? then s
    else
      match s.active.value
      case Cleaning(p) => Cleaned(s, SpawnerTurn(s.cfg, p, b, now))
      case Scanning(_, _, _) => Scanned(s, b, now, s.active.value)
  }

  function StartTask(s: State, b: Look, now: nat): State {
    if Paused(s, now) || b.inventory.None? || b.inventory.value.id != 0 || s.tasks == 0 then s
    else
      var s1 := s.(tasks := s.tasks - 1);
      if !b.spawnerInReach then s1
      else s1.(active := Some(Cleaning(Spawner(now + SPAWNER_MENU_MS, now + SPAWNER_RUN_MS, 0, WaitMenu, now, None, 0,
                                               0, 0, 0))))
  }

  function Foreground(s: State, b: Look, now: nat): (State, bool) {
    if ManualMenuPending(s.guard, b, now) then (s, false)
    else
      var s1 := Advanced(s, b, now);
      if s1.active.None? && s1.phase.Idle? && s1.tasks > 0 then (StartTask(s1, b, now), true)
      else (s1, s.active.Some?)
  }

  // ----- auto-sell -----

  function Interval(cfg: Config): nat {
    Max(Max(cfg.interval, 50), TOKEN_MS)
  }

  function PlayerStart(slots: seq<Stack>): nat {
    ContainerLength(slots)
  }

  function PlayerEnd(slots: seq<Stack>): nat {
    PlayerStart(slots) + PLAYER_SLOTS - 1
  }

  predicate Occupied(slots: seq<Stack>, i: nat) {
    i < |slots| && slots[i].present
  }

  /** The first occupied slot from `from` to `end`. */
  function FirstOccupied(slots: seq<Stack>, from: nat, end: nat): (r: Option<nat>)
    ensures r.Some? ==> from <= r.value <= end && Occupied(slots, r.value)
    ensures forall i :: from <= i <= end && (r.Some? ==> i < r.value) ==> !Occupied(slots, i)
    decreases end + 1 - from
  {
    if from > end then None else if Occupied(slots, from) then Some(from) else FirstOccupied(slots, from + 1, end)
  }

  function Requested(s: State, b: Look, now: nat): State {
    var s1 := Spent(s, now);
    s1.(clock := s1.clock.(nextSellAt := now + Interval(s.cfg)),
        guard := s1.guard.(requestedAt := Some(now), cancelledUntil := None),
        phase := WaitingForMenu(now, b.items == 0, None))
  }

  function SellIdle(s: State, b: Look, now: nat): State {
    if s.active.Some? || s.tasks > 0 || ManualMenuPending(s.guard, b, now) || now < s.clock.nextSellAt then s
    else
      var s1 := s.(budget := Refilled(s.budget, now));
      if s1.budget.tokens < 1.0 || (b.inventory.Some? && b.inventory.value.id != 0) then s1 else Requested(s1, b, now)
  }

  /** The sale's menu is open, with its container and enough of its contents. */
  predicate MenuUsable(s: State, b: Look)
    requires s.phase.WaitingForMenu?
  {
    && OwnsSale(s.guard, b) && b.inventory.value.slots.Some?
    && var slots := b.inventory.value.slots.value;
       && PlayerStart(slots) > 0
       && (|| (&& s.phase.content.Some? && s.phase.content.value.0 == b.inventory.value.id
               && s.phase.content.value.1 >= |slots|)
           || FirstOccupied(slots, PlayerStart(slots), PlayerEnd(slots)).Some?)
  }

  function SellWaiting(s: State, b: Look, now: nat): State
    requires s.phase.WaitingForMenu?
  {
    if MenuUsable(s, b) then
      var slots := b.inventory.value.slots.value;
      AdvanceClick(s.(phase := Selling(b.inventory.value.id, b.session, PlayerStart(slots), PlayerEnd(slots),
                                       s.episode),
                      episode := s.episode + 1), b, now)
    else if now - s.phase.since >= MENU_TIMEOUT_MS then
      var retryAt := Max(now + ORPHAN_MS, s.phase.since + Interval(s.cfg));
      s.(phase := Idle,
         clock := s.clock.(nextSellAt := if s.phase.startedEmpty && b.items > 0 then retryAt
                                         else Max(s.clock.nextSellAt, retryAt)))
    else s
  }

  function AdvanceClick(s: State, b: Look, now: nat): State {
    if !s.phase.Selling? then s
    else if b.session != s.phase.session || !OwnsSale(s.guard, b) then s.(phase := Idle)
    else if b.inventory.value.slots.None? then s
    else
      var p, slots := s.phase, b.inventory.value.slots.value;
      if b.inventory.value.id != p.menu || PlayerEnd(slots) != p.end then s.(phase := Idle)
      else
        var slot := FirstOccupied(slots, p.next, p.end);
        if slot.None? then s.(phase := Closing(now + CLOSE_MS, p.menu, p.session))
        else if now < s.clock.nextClickAt then s
        else Clicked(s, b, now, slot.value, FirstOccupied(slots, slot.value + 1, p.end).Some?)
  }

  function Clicked(s: State, b: Look, now: nat, slot: nat, more: bool): State
    requires s.phase.Selling?
  {
    var p := s.phase;
    var click := Click(now, slot, p.menu, p.session, p.episode, b, OwnsSale(s.guard, b));
    s.(record := s.record.(clicks := s.record.clicks + [click]), clock := s.clock.(nextClickAt := now + CLICK_MS),
       phase := if more then p.(next := slot + 1) else Closing(now + CLOSE_MS, p.menu, p.session))
  }

  function Autosell(s: State, b: Look, now: nat): State {
    if !s.cfg.autosell || Paused(s, now) then s.(phase := Idle)
    else
      match s.phase
      case Idle => SellIdle(s, b, now)
      case WaitingForMenu(_, _, _) => SellWaiting(s, b, now)
      case Selling(_, _, _, _, _) => AdvanceClick(s, b, now)
      case Closing(closeAt, _, _) =>
        if now < closeAt then s else s.(phase := Idle, guard := s.guard.(requestedAt := None))
  }

  function RecoverOrphan(s: State, b: Look, now: nat): (State, bool) {
    if !s.cfg.autosell || !s.phase.Idle? || s.active.Some? then (s, false)
    else if ManualMenuPending(s.guard, b, now) || !OwnsSale(s.guard, b) then (s, false)
    else if b.items > 0 && !Paused(s, now) then
      (Autosell(s.(phase := WaitingForMenu(now, false, None), clock := s.clock.(nextSellAt := now + Interval(s.cfg))),
                b, now), true)
    else (s.(clock := s.clock.(nextSellAt := Max(s.clock.nextSellAt, now + ORPHAN_MS))), true)
  }

  // ----- events -----

  /** The looks of one tick: closing a menu on the way changes what is seen next. */
  datatype Looks = Looks(recovery: Look, manual: Look, orphan: Look, foreground: Look, sell: Look)

  function Automated(s: State, looks: Looks, now: nat): State {
    var (s1, recovered) := RecoverOrphan(s, looks.orphan, now);
    if recovered then s1
    else
      var (s2, ran) := Foreground(s1, looks.foreground, now);
      if ran then s2 else Autosell(s2, looks.sell, now)
  }

  function PauseBoundary(s: State, now: nat): State {
    if Paused(s, now) && (!s.phase.Idle? || s.active.Some?) then Reset(s) else s
  }

  function OnTick(s: State, looks: Looks, now: nat): State {
    var s1 := PauseBoundary(Recovered(s, looks.recovery, now), now);
    var (s2, ran) := ManualChat(s1, looks.manual, now);
    if s2.world.spawned && now >= s2.world.readyAt && looks.orphan.inGame && !ran then Automated(s2, looks, now) else s2
  }

  function OnControl(s: State, b: Look, now: nat): State {
    var s1 := ManualChat(s, b, now).0;
    if s1.active.Some? && s1.active.value.Scanning? then Scanned(s1, b, now, s1.active.value) else s1
  }

  function MenuOpened(s: State, id: int, title: Title, now: nat): State {
    var s1 := if s.phase.Selling? || s.phase.Closing?
              then s.(phase := Idle, guard := s.guard.(requestedAt := None, sellMenu := None)) else s;
    var s2 := s1.(guard := s1.guard.(menuId := None));
    if s2.active.Some? && s2.active.value.Scanning?
    then s2.(active := Some(s2.active.value.(menu := Some(id), nextCheck := now)))
    else if Before(now, s2.guard.menuUntil) then s2.(guard := s2.guard.(menuId := Some(id)))
    else if s2.active.None? && (title.sale || (s2.guard.requestedAt.Some?
                                               && now - s2.guard.requestedAt.value <= LATE_MENU_MS)) then
      s2.(guard := s2.guard.(sellMenu := Some((id, title))))
    else s2
  }

  function ContentReceived(s: State, b: Look, id: int, count: nat, now: nat): State {
    if b.inventory.None? || b.inventory.value.id != id || id == 0 then s
    else
      var s1 := MultiplierSlot(s, id, now);
      if s1.phase.WaitingForMenu? then s1.(phase := s1.phase.(content := Some((id, count)))) else s1
  }

  function MultiplierSlot(s: State, id: int, now: nat): State {
    if s.active.Some? && s.active.value.Scanning? && s.active.value.menu == Some(id)
    then s.(active := Some(s.active.value.(nextCheck := now))) else s
  }

  /** The server says that the inventory is being saved or loaded. */
  function InventoryBusy(s: State, now: nat): State {
    Postponed(s.(phase := Idle, guard := s.guard.(requestedAt := None)), now + 1000)
  }

  function Configured(s: State, cfg: Config, now: nat): State {
    var changed := s.cfg.autosell != cfg.autosell || s.cfg.interval != cfg.interval || s.cfg.command != cfg.command;
    s.(cfg := cfg, clock := if changed && cfg.autosell then s.clock.(nextSellAt := Max(s.world.readyAt, now))
                            else s.clock)
  }

  function Enqueued(s: State, m: Manual): State {
    s.(queue := s.queue + [m], record := s.record.(enqueued := s.record.enqueued + [m]))
  }

  function ChatEnqueued(s: State, text: string, teleports: bool): State {
    if Trim(text) == "" then s else Enqueued(s, Chat(Trim(text), teleports))
  }

  function SpawnerEnqueued(s: State): State {
    if (s.active.Some? && s.active.value.Cleaning?) || s.tasks > 0 then s else s.(tasks := s.tasks + 1)
  }

  datatype Event =
    | Tick(looks: Looks, now: nat)
    | Control(look: Look, now: nat)
    | LoggedIn(now: nat)
    | Respawned(now: nat)
    | Positioned(look: Look, now: nat)
    | Spawns(now: nat)
    | MenuOpens(id: int, title: Title, now: nat)
    | Content(look: Look, id: int, count: nat, now: nat)
    | ItemShown(id: int, now: nat)
    | Busy(now: nat)
    | Configure(cfg: Config, now: nat)
    | PauseSelling(after: nat, resume: nat, now: nat)
    | EnqueueChat(text: string, teleports: bool, now: nat)
    | EnqueueMultipliers(now: nat)
    | EnqueueSpawner(now: nat)

  function Step(s: State, e: Event): State {
    match e
    case Tick(looks, now) => OnTick(s, looks, now)
    case Control(look, now) => OnControl(s, look, now)
    case LoggedIn(now) => Login(s, now)
    case Respawned(now) => Login(s, now)
    case Positioned(look, now) => PositionSync(s, look, now)
    case Spawns(now) => SpawnedIn(s, now)
    case MenuOpens(id, title, now) => MenuOpened(s, id, title, now)
    case Content(look, id, count, now) => ContentReceived(s, look, id, count, now)
    case ItemShown(id, now) => MultiplierSlot(s, id, now)
    case Busy(now) => InventoryBusy(s, now)
    case Configure(cfg, now) => Configured(s, cfg, now)
    case PauseSelling(after, resume, now) =>
      s.(clock := s.clock.(pause := if resume > 0 then Some((now + after, now + resume)) else None))
    case EnqueueChat(text, teleports, _) => ChatEnqueued(s, text, teleports)
    case EnqueueMultipliers(_) => Enqueued(s, SellMultipliers)
    case EnqueueSpawner(_) => SpawnerEnqueued(s)
  }

  /** The state after the first `n` events. */
  function At(init: State, events: seq<Event>, n: nat): State
    requires n <= |events|
  {
    if n == 0 then init else Step(At(init, events, n - 1), events[n - 1])
  }
}
