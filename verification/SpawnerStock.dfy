/** Cleaning a spawner with a configured type keeps a stack of every item it drops.

    The scheduler and its server make one system: whatever reaches the scheduler, in every
    run, while the server opens and closes menus, lets stacks come and grow, and carries out
    the drops and sales it is asked for. Snapshots may be old but arrive in order; every menu
    opens once; a click counts only while its menu is open; and nobody but the bot takes
    stacks out of a menu it has open. */
module SpawnerStock {
  import opened Wrappers
  import opened SoulFire
  import opened SoulFireOwnership

  datatype Stack = Stack(item: string, count: nat)

  type Stock = map<nat, Stack>

  /** From one state of a container to the next stacks may come and grow. */
  predicate Grows(before: Stock, after: Stock) {
    forall n :: n in before ==> n in after && after[n].item == before[n].item && after[n].count >= before[n].count
  }

  /** A drop takes a stack, or some of it, and touches nothing else. */
  predicate Taken(before: Stock, after: Stock, slot: nat) {
    && after.Keys <= before.Keys
    && (slot in after ==> after[slot].item == before[slot].item)
    && forall n :: n in before && n != slot ==> n in after && after[n] == before[n]
  }

  predicate Distinct(slots: seq<Slot>) {
    forall i, j :: 0 <= i < j < |slots| ==> slots[i].slot != slots[j].slot
  }

  /** A look at the inventory that shows this state of the container. */
  predicate Shows(inv: Inventory, stock: Stock) {
    var shown := Occupied(inv.slots, inv.container);
    && Distinct(shown)
    && (forall x :: x in shown ==> x.slot in stock && stock[x.slot] == Stack(x.item, x.count))
    && forall n :: n in stock ==> Find(shown, n).Some?
  }

  // ----- the system -----

  /** What the server has open, and what lies in it. */
  datatype Moment = Moment(menu: Option<string>, stock: Stock)

  /** The last drop in a menu: `base` is the moment in which the bot chose the stack. */
  datatype Drop = Sent(stack: Slot, base: nat, typed: bool) | Landed(stack: Slot, base: nat, at: nat)

  /** All moments of the server, the last one the bot has seen, and where it dropped or pressed. */
  datatype World = World(bot: State, hist: seq<Moment>, seen: nat, drops: map<string, Drop>, pressed: map<string, nat>)

  datatype Action =
    | Grow(stock: Stock)
    | OpenMenu(menu: string, stock: Stock)
    | CloseMenu
    | Land(stock: Stock)
    | Sale(stock: Stock)
    | Bot(event: Event, index: nat)

  function Last(w: World): Moment
    requires w.hist != []
  {
    w.hist[|w.hist| - 1]
  }

  /** The bot reads the inventory. */
  predicate Reads(s: State, e: Event) {
    && e.OnResume? && e.outcome.Read?
    && (s.pc.CommandFetch? || s.pc.OwnedFetch? || s.pc.SellFetch? || s.pc.ForegroundFetch?)
  }

  predicate Pictures(inv: Inventory, moment: Moment) {
    if moment.menu.None? then inv.container == []
    else inv.menu == moment.menu.value && inv.container != [] && Shows(inv, moment.stock)
  }

  predicate Enabled(w: World, a: Action) {
    && w.hist != []
    && match a
       case Grow(stock) => Last(w).menu.Some? && Grows(Last(w).stock, stock)
       case OpenMenu(menu, _) => forall k :: 0 <= k < |w.hist| ==> w.hist[k].menu != Some(menu)
       case CloseMenu => true
       case Land(stock) => Landable(w) && Taken(Last(w).stock, stock, w.drops[Last(w).menu.value].stack.slot)
       case Sale(_) => Last(w).menu.Some? && Last(w).menu.value in w.pressed
       case Bot(e, index) =>
         Reads(w.bot, e) ==> w.seen <= index < |w.hist| && Pictures(e.outcome.inventory, w.hist[index])
  }

  /** A drop in the open menu is on its way. */
  predicate Landable(w: World)
    requires w.hist != []
  {
    Last(w).menu.Some? && Last(w).menu.value in w.drops && w.drops[Last(w).menu.value].Sent?
  }

  /** The click on the spawner that a step of the bot issues, if it does. */
  predicate Clicks(s: State, e: Event, t: State) {
    e.OnResume? && s.pc.ForegroundFetch? && t.pc.SpawnerClick? && t.foreground.Some? && t.foreground.value.pending.Some?
  }

  function BotMoved(w: World, e: Event, index: nat): World {
    var t := Step(w.bot, e);
    if Clicks(w.bot, e, t) then BotClicked(w, t, index)
    else w.(bot := t, seen := if Reads(w.bot, e) then index else w.seen)
  }

  function BotClicked(w: World, t: State, index: nat): World
    requires t.pc.SpawnerClick? && t.foreground.Some? && t.foreground.value.pending.Some?
  {
    var stack, menu := t.foreground.value.pending.value.slot, t.pc.menu;
    if stack.Some?
    then w.(bot := t, seen := index, drops := w.drops[menu := Sent(stack.value, index, t.cfg.spawnerType != "")])
    else w.(bot := t, seen := index, pressed := w.pressed[menu := index])
  }

  function LandedIn(w: World, menu: string): Drop
    requires menu in w.drops
  {
    Landed(w.drops[menu].stack, w.drops[menu].base, |w.hist|)
  }

  function Next(w: World, a: Action): World
    requires Enabled(w, a)
  {
    match a
    case Grow(stock) => w.(hist := w.hist + [Moment(Last(w).menu, stock)])
    case OpenMenu(menu, stock) => w.(hist := w.hist + [Moment(Some(menu), stock)])
    case CloseMenu => w.(hist := w.hist + [Moment(None, map[])])
    case Land(stock) =>
      var menu := Last(w).menu.value;
      w.(hist := w.hist + [Moment(Some(menu), stock)], drops := w.drops[menu := LandedIn(w, menu)])
    case Sale(stock) => w.(hist := w.hist + [Moment(Last(w).menu, stock)])
    case Bot(e, index) => BotMoved(w, e, index)
  }

  // ----- menus open once -----

  /** A menu that is open at two moments is open at all moments between. */
  predicate Contiguous(hist: seq<Moment>) {
    forall i, j, k :: 0 <= i <= j <= k < |hist| && hist[i].menu.Some? && hist[k].menu == hist[i].menu ==>
      hist[j].menu == hist[i].menu
  }

  /** The menu is not open at any moment that can still be seen. */
  predicate Gone(hist: seq<Moment>, seen: nat, menu: string) {
    forall k :: seen <= k < |hist| ==> hist[k].menu != Some(menu)
  }

  lemma ClosedForGood(hist: seq<Moment>, menu: string, before: nat, now: nat)
    requires Contiguous(hist) && before <= now < |hist| && hist[before].menu == Some(menu)
    requires hist[now].menu != Some(menu)
    ensures Gone(hist, now, menu)
  {
  }

  /** The next moment shows the same menu, none, or a new one. */
  predicate NewMoment(hist: seq<Moment>, moment: Moment) {
    && hist != []
    && (moment.menu.Some? && moment.menu != hist[|hist| - 1].menu ==>
          forall k :: 0 <= k < |hist| ==> hist[k].menu != moment.menu)
  }

  lemma StillContiguous(hist: seq<Moment>, moment: Moment)
    requires Contiguous(hist) && NewMoment(hist, moment)
    ensures Contiguous(hist + [moment])
  {
  }

  lemma StillGone(hist: seq<Moment>, moment: Moment, seen: nat, menu: string, used: nat)
    requires NewMoment(hist, moment) && Gone(hist, seen, menu) && seen < |hist|
    requires used < |hist| && hist[used].menu == Some(menu)
    ensures Gone(hist + [moment], seen, menu)
  {
  }

  // ----- stacks stay -----

  /** From moment `from` until `to` stacks in the menu only come and grow. */
  predicate Calm(hist: seq<Moment>, menu: string, from: nat, to: nat) {
    forall k :: from <= k < to && k + 1 < |hist| && hist[k].menu == hist[k + 1].menu == Some(menu) ==>
      Grows(hist[k].stock, hist[k + 1].stock)
  }

  predicate GrowsAtEnd(hist: seq<Moment>, moment: Moment, menu: string) {
    hist != [] && (hist[|hist| - 1].menu == moment.menu == Some(menu) ==> Grows(hist[|hist| - 1].stock, moment.stock))
  }

  lemma CalmLonger(hist: seq<Moment>, moment: Moment, menu: string, from: nat)
    requires Calm(hist, menu, from, |hist|) && GrowsAtEnd(hist, moment, menu)
    ensures Calm(hist + [moment], menu, from, |hist| + 1)
  {
    var longer := hist + [moment];
    forall k | from <= k < |longer| && k + 1 < |longer| && longer[k].menu == longer[k + 1].menu == Some(menu)
      ensures Grows(longer[k].stock, longer[k + 1].stock) {
      if k + 1 < |hist| {
        assert hist[k] == longer[k] && hist[k + 1] == longer[k + 1];
      }
    }
  }

  lemma CalmInside(hist: seq<Moment>, moment: Moment, menu: string, from: nat, to: nat)
    requires Calm(hist, menu, from, to) && to < |hist|
    ensures Calm(hist + [moment], menu, from, to)
  {
    var longer := hist + [moment];
    forall k | from <= k < to && k + 1 < |longer| && longer[k].menu == longer[k + 1].menu == Some(menu)
      ensures Grows(longer[k].stock, longer[k + 1].stock) {
      assert hist[k] == longer[k] && hist[k + 1] == longer[k + 1];
    }
  }

  lemma CalmLess(hist: seq<Moment>, menu: string, from: nat, to: nat, from1: nat, to1: nat)
    requires Calm(hist, menu, from, to) && from <= from1 && to1 <= to
    ensures Calm(hist, menu, from1, to1)
  {
  }

  lemma GrowsTwice(a: Stock, b: Stock, c: Stock)
    requires Grows(a, b) && Grows(b, c)
    ensures Grows(a, c)
  {
  }

  lemma OpenBetween(hist: seq<Moment>, menu: string, i: nat, j: nat, k: nat)
    requires Contiguous(hist) && i <= j <= k < |hist| && hist[i].menu == hist[k].menu == Some(menu)
    ensures hist[j].menu == Some(menu)
  {
  }

  lemma {:induction false} CalmKeeps(hist: seq<Moment>, menu: string, from: nat, i: nat)
    requires from <= i < |hist| && Calm(hist, menu, from, i) && Contiguous(hist)
    requires hist[from].menu == hist[i].menu == Some(menu)
    ensures Grows(hist[from].stock, hist[i].stock)
    decreases i
  {
    hide Contiguous, Grows;
    if from < i {
      OpenBetween(hist, menu, from, i - 1, i);
      CalmLess(hist, menu, from, i, from, i - 1);
      CalmKeeps(hist, menu, from, i - 1);
      assert Grows(hist[i - 1].stock, hist[i - 1 + 1].stock);
      GrowsTwice(hist[from].stock, hist[i - 1].stock, hist[i].stock);
    } else {
      GrowsItself(hist[from].stock);
    }
  }

  lemma GrowsItself(stock: Stock)
    ensures Grows(stock, stock)
  {
  }

  predicate Holds(stock: Stock, x: Slot) {
    x.slot in stock && stock[x.slot] == Stack(x.item, x.count)
  }

  /** Another stack of the same item lies beside it. */
  predicate Spared(stock: Stock, x: Slot) {
    exists n :: n != x.slot && n in stock && stock[n].item == x.item
  }

  /** What is held and only grows is still unmoved when it is shown. */
  lemma StillThere(inv: Inventory, before: Stock, stock: Stock, x: Slot)
    ensures Holds(before, x) && Grows(before, stock) && Shows(inv, stock) ==>
              Unmoved(Occupied(inv.slots, inv.container), x)
  {
    var shown := Occupied(inv.slots, inv.container);
    if Holds(before, x) && Grows(before, stock) && Shows(inv, stock) {
      assert Find(shown, x.slot).Some?;
    }
  }

  // ----- a chosen stack has another beside it -----

  lemma {:induction false} TwoOfAKind(slots: seq<Slot>, item: string, i: nat) returns (j: nat)
    requires i < |slots| && slots[i].item == item && Count(slots, item) > 1
    ensures j < |slots| && j != i && slots[j].item == item
  {
    if i == 0 {
      j := OneMore(slots[1..], item);
      j := j + 1;
    } else if slots[0].item == item {
      j := 0;
    } else {
      j := TwoOfAKind(slots[1..], item, i - 1);
      j := j + 1;
    }
  }

  lemma {:induction false} OneMore(slots: seq<Slot>, item: string) returns (j: nat)
    requires Count(slots, item) > 0
    ensures j < |slots| && slots[j].item == item
  {
    if slots[0].item == item {
      j := 0;
    } else {
      j := OneMore(slots[1..], item);
      j := j + 1;
    }
  }

  lemma {:induction false} NamedDistinct(slots: seq<Slot>, names: seq<string>)
    requires Distinct(slots)
    ensures Distinct(Named(slots, names))
  {
    if slots != [] {
      NamedDistinct(slots[1..], names);
      assert forall x <- Named(slots[1..], names) :: x in slots[1..];
    }
  }

  lemma AnotherBeside(inv: Inventory, stock: Stock, names: seq<string>, x: Slot)
    ensures var matching := Named(Occupied(inv.slots, inv.container), names);
            Shows(inv, stock) && x in matching && Count(matching, x.item) > 1 ==> Spared(stock, x)
  {
    var shown := Occupied(inv.slots, inv.container);
    var matching := Named(shown, names);
    if Shows(inv, stock) && x in matching && Count(matching, x.item) > 1 {
      NamedDistinct(shown, names);
      var i :| 0 <= i < |matching| && matching[i] == x;
      var j := TwoOfAKind(matching, x.item, i);
      assert matching[j] in shown && matching[j].slot != x.slot;
    }
  }

  /** The stack waited for, if any, is seen to have gone. */
  predicate SeenGone(task: Foreground, inv: Inventory) {
    task.pending.Some? && task.pending.value.slot.Some? ==> !Unmoved(Occupied(inv.slots, inv.container),
                                                                     task.pending.value.slot.value)
  }

  /** What a turn of the dropping bot can be: it goes on waiting, or the stack it waited for has gone. */
  predicate DropTurn(cfg: Config, task: Foreground, inv: Inventory, move: SpawnerMove) {
    var task1 := move.task;
    && task1.menu == task.menu && task1.previousMenu == task.previousMenu
    && match move
       case Rest(_) => (task1.phase.DropPhase? && task1.pending == task.pending)
       || (task1.phase.SellPhase? && SeenGone(task, inv))
       case Abandon(_) => task1.phase.DropPhase? && task1.pending == task.pending
       case Close(_) => task1.phase.DropPhase? && task1.pending.None? && SeenGone(task, inv)
       case DropStack(_, slot) =>
         && SeenGone(task, inv) && task1.phase.DropPhase?
         && task1.pending.Some? && !task1.pending.value.confirmed && task1.pending.value.slot.Some?
         && slot == task1.pending.value.slot.value.slot
         && Chosen(cfg, Occupied(inv.slots, inv.container), task1.pending.value.slot.value)
       case Press(_, _) => false
  }

  predicate Chosen(cfg: Config, shown: seq<Slot>, x: Slot) {
    && x in shown
    && (cfg.spawnerType != "" ==>
          var matching := Named(shown, cfg.dropItems); x in matching && Count(matching, x.item) > 1)
  }

  lemma {:induction false} SortedIsSame(slots: seq<Slot>)
    ensures forall x <- SortDown(slots) :: x in slots
  {
    if slots != [] {
      SortedIsSame(slots[1..]);
      InsertedIsIn(slots[0], SortDown(slots[1..]));
    }
  }

  lemma {:induction false} InsertedIsIn(x: Slot, slots: seq<Slot>)
    ensures forall y <- Insert(x, slots) :: y == x || y in slots
  {
    if slots != [] && slots[0].slot > x.slot {
      InsertedIsIn(x, slots[1..]);
    }
  }

  /** A turn drops, closes or begins to sell only when the stack it waited for is seen to have gone. */
  lemma TurnDrops(cfg: Config, task: Foreground, inv: Inventory, now: nat)
    requires task.phase.DropPhase?
    requires task.pending.Some? ==> !task.pending.value.confirmed && task.pending.value.slot.Some?
    ensures DropTurn(cfg, task, inv, SpawnerTurn(cfg, task, inv, now))
  {
    hide Occupied, Named, SortDown, Spare, Fingerprint, Count, Unmoved, Find;
    SortedIsSame(Occupied(inv.slots, inv.container));
  }

  /** A selling turn presses the button or waits; it never drops and never turns back. */
  predicate SellTurn(task: Foreground, move: SpawnerMove) {
    var task1 := move.task;
    && task1.menu == task.menu && task1.previousMenu == task.previousMenu && task1.phase.SellPhase? && !move.DropStack?
    && (move.Press? ==> task1.pending.Some? && task1.pending.value.slot.None?)
  }

  lemma TurnSells(cfg: Config, task: Foreground, inv: Inventory, now: nat)
    requires task.phase.SellPhase?
    ensures SellTurn(task, SpawnerTurn(cfg, task, inv, now))
  {
    hide Occupied, Matching, Spare, Fingerprint, Count, Unmoved, Find, SellButton, Unchanged;
  }

  // ----- the invariant -----

  predicate DropOk(hist: seq<Moment>, menu: string, d: Drop, seen: nat, sold: bool) {
    && d.base <= seen && d.base < |hist| && hist[d.base].menu == Some(menu) && Holds(hist[d.base].stock, d.stack)
    && match d
       case Sent(x, base, typed) => !sold && Calm(hist, menu, base, |hist|) && (typed ==> Spared(hist[base].stock, x))
       case Landed(_, base, at) =>
         && base < at < |hist| && hist[at].menu == Some(menu) && Calm(hist, menu, base, at - 1)
         && (!sold ==> Calm(hist, menu, at, |hist|))
  }

  predicate DropsOk(w: World) {
    && (forall m :: m in w.drops ==> DropOk(w.hist, m, w.drops[m], w.seen, m in w.pressed))
    && forall m :: m in w.pressed ==>
         w.pressed[m] <= w.seen && w.pressed[m] < |w.hist| && w.hist[w.pressed[m]].menu == Some(m)
  }

  predicate Fresh(menu: Option<string>, drops: set<string>, pressed: set<string>) {
    menu.Some? && menu.value !in drops && menu.value !in pressed
  }

  /** In a menu where the bot neither dropped nor pressed, stacks only come and grow. */
  predicate Untouched(hist: seq<Moment>, drops: set<string>, pressed: set<string>) {
    forall k :: 0 <= k && k + 1 < |hist| && hist[k].menu == hist[k + 1].menu && Fresh(hist[k].menu, drops, pressed) ==>
      Grows(hist[k].stock, hist[k + 1].stock)
  }

  /** What a task in a menu may know of the drops there. */
  predicate TaskOk(task: Foreground, drops: map<string, Drop>, pressed: set<string>, seen: nat) {
    && (task.phase.DropPhase? && task.pending.Some? ==> !task.pending.value.confirmed && task.pending.value.slot.Some?)
    && (task.menu.Some? ==>
          var m := task.menu.value;
          if task.phase.SellPhase? then m in drops ==> drops[m].Landed?
          else
            && m !in pressed
            && (m in drops ==>
                  if task.pending.None? then drops[m].Landed? && drops[m].at <= seen
                  else task.pending.value.slot == Some(drops[m].stack)))
  }

  /** Menus in which the bot dropped or pressed are gone, but for those a task keeps apart. */
  predicate Apart(touched: set<string>, hist: seq<Moment>, seen: nat, previous: string, menu: Option<string>) {
    forall m :: m in touched ==> m == previous || menu == Some(m) || Gone(hist, seen, m)
  }

  /** The menu a command in progress has seen before it opens its own. */
  function Previous(pc: Pc): Option<string> {
    match pc
    case CommandClose(_, _, menu, _) => Some(menu)
    case MultiplierChat(_, menu, _) => Some(menu)
    case SpawnerOpen(_, menu, _) => Some(menu)
    case _ => None
  }

  predicate BotOk(w: World) {
    var touched := w.drops.Keys + w.pressed.Keys;
    && (w.bot.foreground.Some? ==>
          var task := w.bot.foreground.value;
          TaskOk(task, w.drops, w.pressed.Keys, w.seen) && Apart(touched, w.hist, w.seen, task.previousMenu, task.menu))
    && (Previous(w.bot.pc).Some? ==> Apart(touched, w.hist, w.seen, Previous(w.bot.pc).value, None))
  }

  predicate Good(w: World) {
    && w.seen < |w.hist| && Contiguous(w.hist) && DropsOk(w) && Untouched(w.hist, w.drops.Keys, w.pressed.Keys)
    && BotOk(w)
  }

  // ----- what the server does keeps the invariant -----

  /** The menu was open at a moment the bot has seen, or before. */
  predicate Met(hist: seq<Moment>, seen: nat, menu: string) {
    exists k :: 0 <= k <= seen && k < |hist| && hist[k].menu == Some(menu)
  }

  predicate AllMet(hist: seq<Moment>, seen: nat, touched: set<string>) {
    forall m :: m in touched ==> Met(hist, seen, m)
  }

  lemma TouchedAreMet(w: World)
    requires DropsOk(w)
    ensures AllMet(w.hist, w.seen, w.drops.Keys + w.pressed.Keys)
  {
    hide Calm, Holds, Spared;
  }

  lemma DropStays(hist: seq<Moment>, moment: Moment, menu: string, d: Drop, seen: nat, sold: bool)
    requires DropOk(hist, menu, d, seen, sold) && (sold || GrowsAtEnd(hist, moment, menu))
    ensures DropOk(hist + [moment], menu, d, seen, sold)
  {
    hide Calm, Holds, Spared, GrowsAtEnd;
    if d.Sent? {
      CalmLonger(hist, moment, menu, d.base);
    } else {
      CalmInside(hist, moment, menu, d.base, d.at - 1);
      if !sold {
        CalmLonger(hist, moment, menu, d.at);
      }
    }
  }

  lemma DropLands(hist: seq<Moment>, moment: Moment, menu: string, d: Drop, seen: nat, sold: bool)
    requires DropOk(hist, menu, d, seen, sold) && d.Sent? && moment.menu == Some(menu)
    ensures DropOk(hist + [moment], menu, Landed(d.stack, d.base, |hist|), seen, sold)
  {
    hide Holds, Spared;
    CalmLess(hist, menu, d.base, |hist|, d.base, |hist| - 1);
    CalmInside(hist, moment, menu, d.base, |hist| - 1);
  }

  lemma ApartStays(hist: seq<Moment>, moment: Moment, touched: set<string>, seen: nat, previous: string,
                   menu: Option<string>)
    requires NewMoment(hist, moment) && seen < |hist| && AllMet(hist, seen, touched)
    requires Apart(touched, hist, seen, previous, menu)
    ensures Apart(touched, hist + [moment], seen, previous, menu)
  {
    hide NewMoment, Gone;
    forall m | m in touched && m != previous && menu != Some(m) ensures Gone(hist + [moment], seen, m) {
      assert Met(hist, seen, m);
      var used :| 0 <= used <= seen && used < |hist| && hist[used].menu == Some(m);
      StillGone(hist, moment, seen, m, used);
    }
  }

  /** A moment in which the touched menus change as their drops and sales allow. */
  ghost predicate Follows(w: World, moment: Moment) {
    && NewMoment(w.hist, moment)
    && forall m :: m in w.pressed || GrowsAtEnd(w.hist, moment, m)
  }

  lemma UntouchedStays(hist: seq<Moment>, moment: Moment, drops: set<string>, pressed: set<string>)
    requires Untouched(hist, drops, pressed) && hist != []
    requires Fresh(moment.menu, drops, pressed) ==> GrowsAtEnd(hist, moment, moment.menu.value)
    ensures Untouched(hist + [moment], drops, pressed)
  {
    var longer := hist + [moment];
    forall k |
      && 0 <= k && k + 1 < |longer| && longer[k].menu == longer[k + 1].menu
      && Fresh(longer[k].menu, drops, pressed)
      ensures Grows(longer[k].stock, longer[k + 1].stock) {
      if k + 1 < |hist| {
        assert hist[k] == longer[k] && hist[k + 1] == longer[k + 1];
      }
    }
  }

  lemma BotStays(w: World, moment: Moment)
    requires BotOk(w) && NewMoment(w.hist, moment) && w.seen < |w.hist|
    requires AllMet(w.hist, w.seen, w.drops.Keys + w.pressed.Keys)
    ensures BotOk(w.(hist := w.hist + [moment]))
  {
    hide TaskOk, Apart, NewMoment, AllMet;
    var touched := w.drops.Keys + w.pressed.Keys;
    if w.bot.foreground.Some? {
      ApartStays(w.hist, moment, touched, w.seen, w.bot.foreground.value.previousMenu, w.bot.foreground.value.menu);
    }
    if Previous(w.bot.pc).Some? {
      ApartStays(w.hist, moment, touched, w.seen, Previous(w.bot.pc).value, None);
    }
  }

  lemma DropsStay(w: World, moment: Moment)
    requires DropsOk(w) && Follows(w, moment)
    ensures DropsOk(w.(hist := w.hist + [moment]))
  {
    hide DropOk, GrowsAtEnd, NewMoment;
    forall m | m in w.drops ensures DropOk(w.hist + [moment], m, w.drops[m], w.seen, m in w.pressed) {
      DropStays(w.hist, moment, m, w.drops[m], w.seen, m in w.pressed);
    }
  }

  lemma MomentKeeps(w: World, moment: Moment)
    requires Good(w) && Follows(w, moment)
    ensures Good(w.(hist := w.hist + [moment]))
  {
    hide Contiguous, DropsOk, Untouched, BotOk, NewMoment, GrowsAtEnd, AllMet;
    TouchedAreMet(w);
    StillContiguous(w.hist, moment);
    DropsStay(w, moment);
    HistoryGoesOn(w, moment);
    UntouchedStays(w.hist, moment, w.drops.Keys, w.pressed.Keys);
    BotStays(w, moment);
  }

  lemma HistoryGoesOn(w: World, moment: Moment)
    requires NewMoment(w.hist, moment)
    ensures w.hist != []
  {
  }

  lemma DropsLand(w: World, stock: Stock)
    requires DropsOk(w) && Enabled(w, Land(stock))
    ensures DropsOk(Next(w, Land(stock)))
  {
    hide DropOk, Taken;
    var menu := Last(w).menu.value;
    var moment := Moment(Some(menu), stock);
    var drops := Next(w, Land(stock)).drops;
    forall m | m in w.drops ensures DropOk(w.hist + [moment], m, drops[m], w.seen, m in w.pressed) {
      if m == menu {
        DropLands(w.hist, moment, m, w.drops[m], w.seen, m in w.pressed);
      } else {
        DropStays(w.hist, moment, m, w.drops[m], w.seen, m in w.pressed);
      }
    }
  }

  lemma TaskLands(task: Foreground, drops: map<string, Drop>, pressed: set<string>, seen: nat, menu: string, d: Drop)
    requires TaskOk(task, drops, pressed, seen)
    requires menu in drops && drops[menu].Sent? && d.Landed? && d.stack == drops[menu].stack
    ensures TaskOk(task, drops[menu := d], pressed, seen)
  {
  }

  lemma BotLands(w: World, menu: string, d: Drop)
    requires BotOk(w) && menu in w.drops && w.drops[menu].Sent? && d.Landed? && d.stack == w.drops[menu].stack
    ensures BotOk(w.(drops := w.drops[menu := d]))
  {
    hide TaskOk, Apart;
    assert w.drops[menu := d].Keys == w.drops.Keys;
    if w.bot.foreground.Some? {
      TaskLands(w.bot.foreground.value, w.drops, w.pressed.Keys, w.seen, menu, d);
    }
  }

  lemma LandKeeps(w: World, stock: Stock)
    requires Good(w) && Enabled(w, Land(stock))
    ensures Good(Next(w, Land(stock)))
  {
    hide Contiguous, DropsOk, Untouched, BotOk, AllMet, Taken;
    var menu := Last(w).menu.value;
    var moment := Moment(Some(menu), stock);
    TouchedAreMet(w);
    StillContiguous(w.hist, moment);
    DropsLand(w, stock);
    UntouchedStays(w.hist, moment, w.drops.Keys, w.pressed.Keys);
    BotStays(w, moment);
    BotLands(w.(hist := w.hist + [moment]), menu, LandedIn(w, menu));
    assert w.drops[menu := LandedIn(w, menu)].Keys == w.drops.Keys;
  }

  lemma ServerKeeps(w: World, a: Action)
    requires Good(w) && Enabled(w, a) && !a.Bot?
    ensures Good(Next(w, a))
  {
    hide Good, Taken;
    if a.Land? {
      LandKeeps(w, a.stock);
    } else {
      MomentKeeps(w, Next(w, a).hist[|w.hist|]);
    }
  }

  // ----- steps in which the bot chooses nothing -----

  /** The same task, waiting for the same drop. */
  predicate SameWork(a: Foreground, b: Foreground) {
    && b.menu == a.menu && b.previousMenu == a.previousMenu && b.phase == a.phase
    && (a.phase.DropPhase? ==>
          if a.pending.None? then b.pending.None?
          else
            && b.pending.Some? && b.pending.value.slot == a.pending.value.slot
            && b.pending.value.confirmed == a.pending.value.confirmed)
  }

  /** A task as a command that saw `previous` starts it. */
  predicate Started(task: Foreground, previous: Option<string>) {
    task.menu.None? && task.pending.None? && task.phase.DropPhase? && previous == Some(task.previousMenu)
  }

  predicate WorkSteady(s: State, t: State) {
    t.foreground.Some? ==>
      || (s.foreground.Some? && SameWork(s.foreground.value, t.foreground.value))
      || Started(t.foreground.value, Previous(s.pc))
  }

  /** A command remembers the menu it saw before, or the one it sees now. */
  predicate MemorySteady(s: State, e: Event, t: State) {
    Previous(t.pc).Some? ==>
      || Previous(t.pc) == Previous(s.pc)
      || (e.OnResume? && s.pc.CommandFetch? && e.outcome.Read? && Previous(t.pc).value == e.outcome.inventory.menu)
  }

  predicate Steady(s: State, e: Event, t: State) {
    WorkSteady(s, t) && MemorySteady(s, e, t)
  }

  lemma OutsideSteady(s: State, e: Event)
    requires !e.OnResume?
    ensures Steady(s, e, Step(s, e))
  {
    hide Resume;
  }

  lemma RunCommandSteady(s: State, command: Command, generation: nat, menu: string, at: nat, now: nat)
    ensures var t := RunCommand(s, command, generation, menu, at, now);
            t.foreground == s.foreground && (Previous(t.pc).None? || (Previous(t.pc) == Some(menu) && !command.Chat?))
  {
  }

  lemma CommandSteady(s: State, o: Outcome, now: nat)
    requires CommandPc(s.pc)
    ensures Steady(s, OnResume(o, now), ResumeCommand(s, o, now))
  {
    hide RunCommand;
    match s.pc
    case CommandFetch(command, generation, at) =>
      RunCommandSteady(s, command, generation, if o.Read? then o.inventory.menu else "", at, now);
    case CommandClose(command, generation, menu, at) => RunCommandSteady(s, command, generation, menu, at, now);
    case Suspending(_, _) =>
    case MultiplierChat(_, _, _) =>
    case SpawnerOpen(_, _, _) =>
  }

  lemma DecideSteady(s: State, now: nat)
    ensures Decide(s, now).foreground == s.foreground && Previous(Decide(s, now).pc).None?
  {
    hide CreditReady;
  }

  lemma SellReadSteady(s: State, generation: nat, inv: Inventory, now: nat)
    ensures var t := SellRead(s, generation, inv, now); t.foreground == s.foreground && Previous(t.pc).None?
  {
    hide SaleTurn;
  }

  lemma TurnSteady(s: State, o: Outcome, now: nat)
    requires TurnPc(s.pc) && (s.pc.ForegroundFetch? ==> !o.Read?)
    ensures Steady(s, OnResume(o, now), ResumeTurn(s, o, now))
  {
    hide Decide, SellRead, ForegroundRead;
    if s.pc.Sneaking? {
      DecideSteady(s, s.pc.now);
    } else if s.pc.SellFetch? && o.Read? {
      SellReadSteady(s, s.pc.generation, o.inventory, now);
    }
  }

  lemma MenuSteady(s: State, o: Outcome, now: nat)
    requires !CommandPc(s.pc) && !TurnPc(s.pc)
    ensures Steady(s, OnResume(o, now), Resume(s, o, now))
  {
  }

  lemma StepSteady(s: State, e: Event)
    requires !(e.OnResume? && s.pc.ForegroundFetch? && e.outcome.Read?)
    ensures Steady(s, e, Step(s, e))
  {
    hide ResumeCommand, ResumeTurn, ResumeMenu, ResumeSay, Steady;
    if !e.OnResume? {
      OutsideSteady(s, e);
    } else if CommandPc(s.pc) {
      CommandSteady(s, e.outcome, e.now);
    } else if TurnPc(s.pc) {
      TurnSteady(s, e.outcome, e.now);
    } else {
      MenuSteady(s, e.outcome, e.now);
    }
  }

  lemma SameWorkOk(a: Foreground, b: Foreground, drops: map<string, Drop>, pressed: set<string>, seen: nat, seen1: nat)
    requires TaskOk(a, drops, pressed, seen) && SameWork(a, b) && seen <= seen1
    ensures TaskOk(b, drops, pressed, seen1)
  {
  }

  lemma StartedOk(task: Foreground, previous: Option<string>, drops: map<string, Drop>, pressed: set<string>, seen: nat)
    requires Started(task, previous)
    ensures TaskOk(task, drops, pressed, seen)
  {
  }

  lemma ApartLater(touched: set<string>, hist: seq<Moment>, seen: nat, seen1: nat, previous: string,
                   menu: Option<string>)
    requires Apart(touched, hist, seen, previous, menu) && seen <= seen1
    ensures Apart(touched, hist, seen1, previous, menu)
  {
  }

  /** Whatever is open in a look, every touched menu but this one is gone from then on. */
  lemma LookSeparates(touched: set<string>, hist: seq<Moment>, seen: nat, index: nat, inv: Inventory)
    requires Contiguous(hist) && AllMet(hist, seen, touched) && seen <= index < |hist| && Pictures(inv, hist[index])
    ensures Apart(touched, hist, index, inv.menu, None)
  {
    hide Shows, Contiguous, Gone;
    forall m | m in touched && m != inv.menu ensures Gone(hist, index, m) {
      assert Met(hist, seen, m);
      var used :| 0 <= used <= seen && used < |hist| && hist[used].menu == Some(m);
      ClosedForGood(hist, m, used, index);
    }
  }

  lemma SteadyBot(w: World, e: Event, t: State, seen: nat)
    requires BotOk(w) && Contiguous(w.hist) && AllMet(w.hist, w.seen, w.drops.Keys + w.pressed.Keys)
    requires Steady(w.bot, e, t) && w.seen <= seen < |w.hist|
    requires Reads(w.bot, e) ==> Pictures(e.outcome.inventory, w.hist[seen])
    ensures BotOk(w.(bot := t, seen := seen))
  {
    hide TaskOk, Apart, SameWork, Started, Contiguous, AllMet, Pictures;
    var touched := w.drops.Keys + w.pressed.Keys;
    if t.foreground.Some? {
      SteadyWork(w, e, t, seen);
    }
    if Previous(t.pc).Some? {
      if Previous(t.pc) == Previous(w.bot.pc) {
        ApartLater(touched, w.hist, w.seen, seen, Previous(t.pc).value, None);
      } else {
        LookSeparates(touched, w.hist, w.seen, seen, e.outcome.inventory);
      }
    }
  }

  lemma SteadyWork(w: World, e: Event, t: State, seen: nat)
    requires BotOk(w) && WorkSteady(w.bot, t) && w.seen <= seen && t.foreground.Some?
    ensures TaskOk(t.foreground.value, w.drops, w.pressed.Keys, seen)
    ensures Apart(w.drops.Keys + w.pressed.Keys, w.hist, seen, t.foreground.value.previousMenu, t.foreground.value.menu)
  {
    hide TaskOk, Apart;
    var touched := w.drops.Keys + w.pressed.Keys;
    var task := t.foreground.value;
    if w.bot.foreground.Some? && SameWork(w.bot.foreground.value, task) {
      SameWorkOk(w.bot.foreground.value, task, w.drops, w.pressed.Keys, w.seen, seen);
    } else {
      StartedOk(task, Previous(w.bot.pc), w.drops, w.pressed.Keys, seen);
    }
    ApartLater(touched, w.hist, w.seen, seen, task.previousMenu, task.menu);
  }

  lemma LaterDrops(w: World, t: State, seen: nat)
    requires DropsOk(w) && w.seen <= seen
    ensures DropsOk(w.(bot := t, seen := seen))
  {
    hide Calm, Holds, Spared;
  }

  lemma SteadyKeeps(w: World, e: Event, t: State, seen: nat)
    requires Good(w) && Steady(w.bot, e, t) && w.seen <= seen < |w.hist|
    requires Reads(w.bot, e) ==> Pictures(e.outcome.inventory, w.hist[seen])
    ensures Good(w.(bot := t, seen := seen))
  {
    hide DropsOk, BotOk, Untouched, Contiguous, Steady, Pictures, AllMet;
    TouchedAreMet(w);
    SteadyBot(w, e, t, seen);
    LaterDrops(w, t, seen);
  }

  // ----- a look of the cleaning task -----

  /** The pending stack is seen to have gone only once its drop has landed, in what is seen. */
  lemma GoneMeansLanded(hist: seq<Moment>, menu: string, d: Drop, seen: nat, sold: bool, index: nat, inv: Inventory)
    requires Contiguous(hist) && DropOk(hist, menu, d, seen, sold) && seen <= index < |hist|
    requires hist[index].menu == Some(menu) && Pictures(inv, hist[index])
    requires !Unmoved(Occupied(inv.slots, inv.container), d.stack)
    ensures d.Landed? && d.at <= index
  {
    hide Contiguous, Calm, Grows, Spared, Shows, Unmoved, Holds;
    if d.Sent? || index < d.at {
      var to := if d.Sent? then |hist| else d.at - 1;
      CalmLess(hist, menu, d.base, to, d.base, index);
      CalmKeeps(hist, menu, d.base, index);
      StillThere(inv, hist[d.base].stock, hist[index].stock, d.stack);
    }
  }

  lemma ChosenIsSpared(cfg: Config, inv: Inventory, stock: Stock, x: Slot)
    requires Shows(inv, stock) && Chosen(cfg, Occupied(inv.slots, inv.container), x)
    ensures Holds(stock, x) && (cfg.spawnerType != "" ==> Spared(stock, x))
  {
    hide Spared, Count, Named;
    if cfg.spawnerType != "" {
      AnotherBeside(inv, stock, cfg.dropItems, x);
    }
  }

  /** A look that shows the menu the task has, or binds it to one nobody has touched. */
  predicate Bound(w: World, index: nat, task: Foreground, inv: Inventory) {
    && w.seen <= index < |w.hist| && Pictures(inv, w.hist[index]) && w.hist[index].menu == task.menu == Some(inv.menu)
    && TaskOk(task, w.drops, w.pressed.Keys, index)
    && Apart(w.drops.Keys + w.pressed.Keys, w.hist, index, task.previousMenu, task.menu)
  }

  lemma Binds(w: World, index: nat, inv: Inventory, now: nat)
    requires Good(w) && w.bot.foreground.Some? && w.seen <= index < |w.hist| && Pictures(inv, w.hist[index])
    requires var task := w.bot.foreground.value;
             inv.container != [] && inv.menu != task.previousMenu && (Truthy(task.menu) ==> task.menu.value == inv.menu)
    ensures Bound(w, index, Bind(w.bot.foreground.value, inv, now), inv)
  {
    hide Untouched, Calm, Holds, Spared, Shows, Contiguous, DropOk, AllMet;
    var task := w.bot.foreground.value;
    var touched := w.drops.Keys + w.pressed.Keys;
    TouchedAreMet(w);
    LookSeparates(touched, w.hist, w.seen, index, inv);
    ApartLater(touched, w.hist, w.seen, index, task.previousMenu, task.menu);
    if task.menu != Some(inv.menu) {
      assert !Gone(w.hist, w.seen, inv.menu);
      assert inv.menu !in touched;
    }
  }

  /** Once the stack waited for is seen to have gone, no drop in this menu is on its way, and
      from this look on stacks only come and grow. */
  lemma CaughtUp(w: World, index: nat, task: Foreground, inv: Inventory)
    requires Good(w) && Bound(w, index, task, inv) && task.phase.DropPhase? && SeenGone(task, inv)
    ensures inv.menu in w.drops ==> w.drops[inv.menu].Landed? && w.drops[inv.menu].at <= index
    ensures Calm(w.hist, inv.menu, index, |w.hist|)
  {
    hide Contiguous, Grows, Spared, Shows, Unmoved, Holds, Apart, BotOk, Untouched, Calm;
    var m := inv.menu;
    if m in w.drops {
      assert DropOk(w.hist, m, w.drops[m], w.seen, m in w.pressed);
      if task.pending.Some? {
        GoneMeansLanded(w.hist, m, w.drops[m], w.seen, m in w.pressed, index, inv);
      }
      CalmLess(w.hist, m, w.drops[m].at, |w.hist|, index, |w.hist|);
    } else {
      UntouchedIsCalm(w.hist, w.drops.Keys, w.pressed.Keys, m, index);
    }
  }

  lemma UntouchedIsCalm(hist: seq<Moment>, drops: set<string>, pressed: set<string>, menu: string, from: nat)
    requires Untouched(hist, drops, pressed) && menu !in drops && menu !in pressed
    ensures Calm(hist, menu, from, |hist|)
  {
    hide Grows;
  }

  /** What a look leaves: the task, bound, and where it clicked. */
  lemma LookDone(w: World, index: nat, task: Foreground, inv: Inventory, t: State)
    requires Good(w) && Bound(w, index, task, inv) && Previous(t.pc).None?
    requires t.foreground.Some? && TaskOk(t.foreground.value, w.drops, w.pressed.Keys, index)
    requires t.foreground.value.menu == task.menu && t.foreground.value.previousMenu == task.previousMenu
    ensures Good(w.(bot := t, seen := index))
  {
    hide DropsOk, Untouched, Contiguous, TaskOk, Apart, Pictures;
    LaterDrops(w, t, index);
  }

  lemma DropDone(w: World, index: nat, task: Foreground, inv: Inventory, t: State, x: Slot, typed: bool)
    requires Good(w) && Bound(w, index, task, inv) && Previous(t.pc).None? && task.phase.DropPhase?
    requires SeenGone(task, inv)
    requires t.foreground.Some? && t.foreground.value.phase.DropPhase?
    requires t.foreground.value.menu == task.menu && t.foreground.value.previousMenu == task.previousMenu
    requires t.foreground.value.pending.Some? && !t.foreground.value.pending.value.confirmed
    requires t.foreground.value.pending.value.slot == Some(x)
    requires Holds(w.hist[index].stock, x) && (typed ==> Spared(w.hist[index].stock, x))
    ensures Good(w.(bot := t, seen := index, drops := w.drops[inv.menu := Sent(x, index, typed)]))
  {
    hide Untouched, Contiguous, Apart, Pictures, Spared, Holds, Calm, Unmoved, DropOk;
    CaughtUp(w, index, task, inv);
    SentIsOk(w.hist, inv.menu, x, index, typed);
    var w1 := w.(bot := t, seen := index, drops := w.drops[inv.menu := Sent(x, index, typed)]);
    DropsAfter(w, index, inv.menu, Sent(x, index, typed), t);
    ApartAlso(w.drops.Keys + w.pressed.Keys, w.hist, index, task.previousMenu, inv.menu);
    assert w1.drops.Keys + w1.pressed.Keys == w.drops.Keys + w.pressed.Keys + {inv.menu};
    UntouchedLess(w.hist, w.drops.Keys, w.pressed.Keys, inv.menu);
    assert w1.drops.Keys == w.drops.Keys + {inv.menu};
  }

  lemma SentIsOk(hist: seq<Moment>, menu: string, x: Slot, index: nat, typed: bool)
    requires index < |hist| && hist[index].menu == Some(menu) && Calm(hist, menu, index, |hist|)
    requires Holds(hist[index].stock, x) && (typed ==> Spared(hist[index].stock, x))
    ensures DropOk(hist, menu, Sent(x, index, typed), index, false)
  {
  }

  lemma DropsAfter(w: World, index: nat, menu: string, d: Drop, t: State)
    requires DropsOk(w) && w.seen <= index && menu !in w.pressed && DropOk(w.hist, menu, d, index, false)
    ensures DropsOk(w.(bot := t, seen := index, drops := w.drops[menu := d]))
  {
    hide DropOk;
    LaterDrops(w, t, index);
  }

  lemma ApartAlso(touched: set<string>, hist: seq<Moment>, seen: nat, previous: string, menu: string)
    requires Apart(touched, hist, seen, previous, Some(menu))
    ensures Apart(touched + {menu}, hist, seen, previous, Some(menu))
  {
    hide Gone;
  }

  lemma UntouchedLess(hist: seq<Moment>, drops: set<string>, pressed: set<string>, menu: string)
    requires Untouched(hist, drops, pressed)
    ensures Untouched(hist, drops + {menu}, pressed) && Untouched(hist, drops, pressed + {menu})
  {
    hide Grows;
  }

  lemma PressDone(w: World, index: nat, task: Foreground, inv: Inventory, t: State)
    requires Good(w) && Bound(w, index, task, inv) && Previous(t.pc).None? && task.phase.SellPhase?
    requires t.foreground.Some? && t.foreground.value.phase.SellPhase?
    requires t.foreground.value.menu == task.menu && t.foreground.value.previousMenu == task.previousMenu
    ensures Good(w.(bot := t, seen := index, pressed := w.pressed[inv.menu := index]))
  {
    hide Untouched, Contiguous, Apart, Pictures, DropOk;
    var w1 := w.(bot := t, seen := index, pressed := w.pressed[inv.menu := index]);
    LaterDrops(w, t, index);
    ApartAlso(w.drops.Keys + w.pressed.Keys, w.hist, index, task.previousMenu, inv.menu);
    assert w1.drops.Keys + w1.pressed.Keys == w.drops.Keys + w.pressed.Keys + {inv.menu};
    UntouchedLess(w.hist, w.drops.Keys, w.pressed.Keys, inv.menu);
    assert w1.pressed.Keys == w.pressed.Keys + {inv.menu};
    SoldIsOk(w, t, index, inv.menu);
  }

  lemma SoldIsOk(w: World, t: State, index: nat, menu: string)
    requires DropsOk(w.(bot := t, seen := index)) && index < |w.hist| && w.hist[index].menu == Some(menu)
    requires menu in w.drops ==> w.drops[menu].Landed?
    ensures DropsOk(w.(bot := t, seen := index, pressed := w.pressed[menu := index]))
  {
    hide Calm, Holds, Spared;
  }

  /** Going on, closing or beginning to sell, a turn leaves what the task may know. */
  lemma TurnOk(w: World, index: nat, task: Foreground, inv: Inventory, cfg: Config, move: SpawnerMove)
    requires Good(w) && Bound(w, index, task, inv) && !move.DropStack? && !move.Press?
    requires if task.phase.DropPhase? then DropTurn(cfg, task, inv, move) else SellTurn(task, move)
    ensures TaskOk(move.task, w.drops, w.pressed.Keys, index)
  {
    hide Good, SeenGone, Calm, Apart, Pictures, Chosen;
    if task.phase.DropPhase? && SeenGone(task, inv) {
      CaughtUp(w, index, task, inv);
    }
  }

  lemma MoveKeeps(w: World, index: nat, task: Foreground, inv: Inventory, move: SpawnerMove, t: State)
    requires Good(w) && Bound(w, index, task, inv) && t == SpawnerMoved(w.bot, move, inv.menu)
    requires if task.phase.DropPhase? then DropTurn(w.bot.cfg, task, inv, move) else SellTurn(task, move)
    ensures if t.pc.SpawnerClick? && t.foreground.value.pending.Some? then Good(BotClicked(w, t, index))
            else Good(w.(bot := t, seen := index))
  {
    hide Good, SeenGone, TaskOk, Apart, Chosen, Spared, Holds, Shows;
    if move.DropStack? {
      var x := move.task.pending.value.slot.value;
      ChosenIsSpared(w.bot.cfg, inv, w.hist[index].stock, x);
      DropDone(w, index, task, inv, t, x, w.bot.cfg.spawnerType != "");
    } else if move.Press? {
      PressDone(w, index, task, inv, t);
    } else {
      TurnOk(w, index, task, inv, w.bot.cfg, move);
      LookDone(w, index, task, inv, t);
    }
  }

  /** A look in which the task does not come to its turn. */
  predicate NoTurn(s: State, id: nat, inv: Inventory, now: nat) {
    || !Reading(s, id)
    || now >= s.foreground.value.deadline
    || inv.container == []
    || inv.menu == s.foreground.value.previousMenu
    || (Truthy(s.foreground.value.menu) && s.foreground.value.menu.value != inv.menu)
  }

  lemma NoTurnSteady(s: State, e: Event)
    requires e.OnResume? && s.pc.ForegroundFetch? && e.outcome.Read? && NoTurn(s, s.pc.id, e.outcome.inventory, e.now)
    ensures Steady(s, e, Step(s, e)) && !Step(s, e).pc.SpawnerClick?
  {
    hide SpawnerTurn, SpawnerMoved, NineMultipliers;
  }

  lemma TurnIs(s: State, e: Event)
    requires e.OnResume? && s.pc.ForegroundFetch? && e.outcome.Read? && !NoTurn(s, s.pc.id, e.outcome.inventory, e.now)
    ensures var inv, bound := e.outcome.inventory, Bind(s.foreground.value, e.outcome.inventory, e.now);
            Step(s, e) ==
              if bound.kind.Multipliers?
              then s.(foreground := Some(bound), pc := if inv.multiplierTitle
                      && NineMultipliers(inv) then ForegroundClose else Idle)
              else SpawnerMoved(s, SpawnerTurn(s.cfg, bound, inv, e.now), inv.menu)
  {
    hide SpawnerTurn, SpawnerMoved, NineMultipliers;
  }

  lemma LookKeeps(w: World, e: Event, index: nat)
    requires Good(w) && Enabled(w, Bot(e, index)) && e.OnResume? && w.bot.pc.ForegroundFetch? && e.outcome.Read?
    ensures Good(BotMoved(w, e, index))
  {
    hide Good, SpawnerTurn, SpawnerMoved, NineMultipliers, TaskOk, Apart, Shows, DropTurn, SellTurn;
    var s, inv := w.bot, e.outcome.inventory;
    if NoTurn(s, s.pc.id, inv, e.now) {
      NoTurnSteady(s, e);
      SteadyKeeps(w, e, Step(s, e), index);
    } else {
      var bound := Bind(s.foreground.value, inv, e.now);
      TurnIs(s, e);
      Binds(w, index, inv, e.now);
      if bound.kind.Multipliers? {
        LookDone(w, index, bound, inv, Step(s, e));
      } else {
        var move := SpawnerTurn(s.cfg, bound, inv, e.now);
        TurnFits(w, index, bound, inv, s.cfg, e.now);
        MoveKeeps(w, index, bound, inv, move, Step(s, e));
        MoveShows(s, move, inv.menu);
      }
    }
  }

  lemma TurnFits(w: World, index: nat, task: Foreground, inv: Inventory, cfg: Config, now: nat)
    requires Bound(w, index, task, inv)
    ensures var move := SpawnerTurn(cfg, task, inv, now);
            if task.phase.DropPhase? then DropTurn(cfg, task, inv, move) else SellTurn(task, move)
  {
    hide SpawnerTurn, DropTurn, SellTurn, Apart, Pictures;
    if task.phase.DropPhase? {
      TurnDrops(cfg, task, inv, now);
    } else {
      TurnSells(cfg, task, inv, now);
    }
  }

  lemma MoveShows(s: State, move: SpawnerMove, menu: string)
    ensures SpawnerMoved(s, move, menu).foreground.Some?
  {
  }

  lemma NextKeeps(w: World, a: Action)
    requires Good(w) && Enabled(w, a)
    ensures Good(Next(w, a))
  {
    hide Good, Step, BotClicked;
    if !a.Bot? {
      ServerKeeps(w, a);
    } else if a.event.OnResume? && w.bot.pc.ForegroundFetch? && a.event.outcome.Read? {
      LookKeeps(w, a.event, a.index);
    } else {
      StepSteady(w.bot, a.event);
      ClicksOnLook(w.bot, a.event);
      SeenInHistory(w);
      SteadyKeeps(w, a.event, Step(w.bot, a.event), if Reads(w.bot, a.event) then a.index else w.seen);
    }
  }

  lemma SeenInHistory(w: World)
    requires Good(w)
    ensures w.seen < |w.hist|
  {
  }

  lemma ClicksOnLook(s: State, e: Event)
    ensures Clicks(s, e, Step(s, e)) ==> e.OnResume? && s.pc.ForegroundFetch? && e.outcome.Read?
  {
  }

  // ----- whole runs -----

  /** The scheduler is new, and so is the server: nothing was clicked in any menu. */
  predicate Beginning(w: World, g: Gateway, cfg: Config) {
    w.bot == Initial(g, cfg) && |w.hist| == 1 && w.seen == 0 && w.drops == map[] && w.pressed == map[]
  }

  ghost predicate Run(g: Gateway, cfg: Config, worlds: seq<World>, actions: seq<Action>) {
    && |worlds| == |actions| + 1 && Beginning(worlds[0], g, cfg)
    && forall k :: 0 <= k < |actions| ==> Enabled(worlds[k], actions[k]) && worlds[k + 1] == Next(worlds[k], actions[k])
  }

  lemma {:induction false} RunKeeps(g: Gateway, cfg: Config, worlds: seq<World>, actions: seq<Action>, n: nat)
    requires Run(g, cfg, worlds, actions) && n < |worlds|
    ensures Good(worlds[n])
  {
    hide Enabled, Next, Good;
    if n == 0 {
      BeginsWell(worlds[0], g, cfg);
    } else {
      RunKeeps(g, cfg, worlds, actions, n - 1);
      assert Enabled(worlds[n - 1], actions[n - 1]) && worlds[n - 1 + 1] == Next(worlds[n - 1], actions[n - 1]);
      NextKeeps(worlds[n - 1], actions[n - 1]);
    }
  }

  lemma BeginsWell(w: World, g: Gateway, cfg: Config)
    requires Beginning(w, g, cfg)
    ensures Good(w)
  {
  }

  /** The events that reach the bot in a run. */
  function BotEvents(actions: seq<Action>): seq<Event> {
    if actions == [] then []
    else BotEvents(actions[..|actions| - 1]) + if actions[|actions| - 1].Bot? then [actions[|actions| - 1].event]
                                               else []
  }

  /** The bot of such a system is the scheduler of `SoulFireOwnership`, after the events it was sent. */
  lemma {:induction false} BotFollows(g: Gateway, cfg: Config, worlds: seq<World>, actions: seq<Action>, n: nat)
    requires Run(g, cfg, worlds, actions) && n < |worlds|
    ensures var events := BotEvents(actions[..n]); worlds[n].bot == At(g, cfg, events, |events|)
  {
    hide Enabled, Step, At;
    if n == 0 {
      AtStart(g, cfg, BotEvents(actions[..0]));
    } else {
      BotFollows(g, cfg, worlds, actions, n - 1);
      assert Enabled(worlds[n - 1], actions[n - 1]) && worlds[n - 1 + 1] == Next(worlds[n - 1], actions[n - 1]);
      assert actions[..n][..n - 1] == actions[..n - 1];
      var before := BotEvents(actions[..n - 1]);
      if actions[n - 1].Bot? {
        assert BotEvents(actions[..n]) == before + [actions[n - 1].event];
        AtOneMore(g, cfg, before, actions[n - 1].event);
      } else {
        assert BotEvents(actions[..n]) == before;
      }
    }
  }

  lemma AtStart(g: Gateway, cfg: Config, events: seq<Event>)
    ensures At(g, cfg, events, 0) == Initial(g, cfg)
  {
  }

  /** Whenever a drop chosen with a type configured lands, another stack of its item stays;
      stacks in other slots are untouched. */
  lemma NeverTheLastStack(g: Gateway, cfg: Config, worlds: seq<World>, actions: seq<Action>, n: nat)
    requires Run(g, cfg, worlds, actions) && n < |actions| && actions[n].Land?
    ensures var drop := worlds[n].drops[Last(worlds[n]).menu.value];
            && Taken(Last(worlds[n]).stock, actions[n].stock, drop.stack.slot)
            && (drop.typed ==> Spared(actions[n].stock, drop.stack))
  {
    hide Next, Good, Taken, Spared;
    RunKeeps(g, cfg, worlds, actions, n);
    assert Enabled(worlds[n], actions[n]);
    SparedAtLanding(worlds[n], actions[n].stock);
  }

  lemma SparedAtLanding(w: World, stock: Stock)
    requires Good(w) && Enabled(w, Land(stock))
    ensures var drop := w.drops[Last(w).menu.value]; drop.typed ==> Spared(stock, drop.stack)
  {
    hide Contiguous, Untouched, BotOk, Holds, Calm, Spared;
    var menu := Last(w).menu.value;
    var drop := w.drops[menu];
    assert DropOk(w.hist, menu, drop, w.seen, menu in w.pressed);
    CalmLess(w.hist, menu, drop.base, |w.hist|, drop.base, |w.hist| - 1);
    CalmKeeps(w.hist, menu, drop.base, |w.hist| - 1);
    if drop.typed {
      SparedStays(w.hist[drop.base].stock, Last(w).stock, stock, drop.stack);
    }
  }

  lemma SparedStays(before: Stock, now: Stock, after: Stock, x: Slot)
    requires Spared(before, x) && Grows(before, now) && Taken(now, after, x.slot)
    ensures Spared(after, x)
  {
    var n :| n != x.slot && n in before && before[n].item == x.item;
    assert n in now && n in after;
  }

  /** Whenever the bot drops or sells in a menu, the drop it made there before has landed. */
  lemma OneDropAtATime(g: Gateway, cfg: Config, worlds: seq<World>, actions: seq<Action>, n: nat)
    requires Run(g, cfg, worlds, actions) && n < |actions| && actions[n].Bot?
    requires Clicks(worlds[n].bot, actions[n].event, worlds[n + 1].bot)
    ensures var menu := worlds[n + 1].bot.pc.menu; menu in worlds[n].drops ==> worlds[n].drops[menu].Landed?
  {
    hide Good, Step;
    RunKeeps(g, cfg, worlds, actions, n);
    assert Enabled(worlds[n], actions[n]) && worlds[n + 1] == Next(worlds[n], actions[n]);
    ClicksOnLook(worlds[n].bot, actions[n].event);
    ClickHasCaughtUp(worlds[n], actions[n].event, actions[n].index);
  }

  lemma ClickHasCaughtUp(w: World, e: Event, index: nat)
    requires Good(w) && Enabled(w, Bot(e, index)) && e.OnResume? && w.bot.pc.ForegroundFetch? && e.outcome.Read?
    requires Clicks(w.bot, e, Step(w.bot, e))
    ensures var menu := Step(w.bot, e).pc.menu; menu in w.drops ==> w.drops[menu].Landed?
  {
    hide Good, SpawnerTurn, NineMultipliers, Apart, Shows, SeenGone, Chosen;
    var s, inv := w.bot, e.outcome.inventory;
    if NoTurn(s, s.pc.id, inv, e.now) {
      NoTurnSteady(s, e);
    } else {
      var bound := Bind(s.foreground.value, inv, e.now);
      TurnIs(s, e);
      Binds(w, index, inv, e.now);
      TurnFits(w, index, bound, inv, s.cfg, e.now);
      if bound.phase.DropPhase? && SeenGone(bound, inv) {
        CaughtUp(w, index, bound, inv);
      }
    }
  }
}
