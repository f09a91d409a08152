/** `BedrockInventory`: which container is the bot's own, and the transfers into it. */
module BedrockInventory {
  import opened Wrappers

  datatype Item = Item(network: int, count: nat, stack: int)

  const EMPTY := Item(0, 0, 0)
  const PLAYER := 0
  const FULL := 36
  const SELL_MENU_TIMEOUT_MS := 500
  const CONTENT_TIMEOUT_MS := 10000
  const TRANSFER_TIMEOUT_MS := 2000

  predicate Present(item: Item) {
    item.network != 0 && item.count > 0
  }

  predicate PresentAt(items: seq<Item>, i: nat) {
    i < |items| && Present(items[i])
  }

  datatype Menu = Menu(id: int, chest: bool, items: Option<seq<Item>>, owned: bool, position: Option<string>,
                       manual: bool)

  datatype Pending = Pending(id: int, source: nat, destination: nat, item: Item, sentAt: nat)

  /** A transfer the server was asked for. */
  datatype Transfer = Transfer(id: int, source: nat, destination: nat, item: Item, count: nat)

  /** `authoritative` is how the server keeps inventories; `sent` everything asked for so far. */
  datatype State = State(authoritative: bool, player: Option<seq<Item>>, menu: Option<Menu>, requestedAt: Option<nat>,
                         targets: Option<seq<nat>>, pending: Option<Pending>, nextId: int, openedAt: nat,
                         manualUntil: nat, cancelledUntil: nat, needsFull: bool, hotbar: nat, sent: seq<Transfer>)

  /** Which array a slot of a response is in. */
  datatype Where = InPlayer | InMenu | Elsewhere

  datatype Change = Change(place: Where, slot: int, count: nat, stack: int)

  datatype Response = Response(id: int, ok: bool, changes: seq<Change>)

  /** `title` is the remembered title at the position of a menu: whether it is the sale's. */
  datatype Event =
    | Request(now: nat)
    | RequestMultipliers
    | Reset
    | Invalidate(now: nat)
    | Interrupt(closeForeign: bool, manualSell: bool, scanOwned: bool, now: nat)
    | Equipment(slot: int, item: Item)
    | Open(id: int, chest: bool, position: Option<string>, title: Option<bool>, now: nat)
    | BlockEntity(at: string, sell: bool, now: nat)
    | Close(id: int)
    | ScanCloses
    | Content(id: int, items: seq<Item>)
    | Slot(id: int, slot: int, item: Item)
    | Responses(responses: seq<Response>)
    | Tick(now: nat, works: bool)

  function Initial(authoritative: bool): State {
    State(authoritative, None, None, None, None, None, -1, 0, 0, 0, false, 0, [])
  }

  function Min(a: int, b: int): int {
    if a < b then a else b
  }

  function Idle(s: State): State {
    s.(requestedAt := None, targets := None, pending := None)
  }

  function Closed(s: State): State {
    Idle(s).(menu := None)
  }

  predicate Busy(s: State) {
    s.requestedAt.Some? || (s.menu.Some? && s.menu.value.owned)
  }

  function Interrupted(s: State, closeForeign: bool, manualSell: bool, scanOwned: bool, now: nat): State {
    var s1 := if closeForeign then
                s.(manualUntil := now + 5000,
                   cancelledUntil := if manualSell then 0 else if Busy(s) then now + 10000 else s.cancelledUntil)
              else s;
    if s.menu.Some? && (s.menu.value.owned || closeForeign || scanOwned) then Closed(s1) else Idle(s1)
  }

  function Invalidated(s: State, now: nat): State {
    var s1 := Interrupted(s.(needsFull := true, player := None), false, false, false, now);
    s1.(menu := if s1.menu.Some? then Some(s1.menu.value.(items := None)) else None, cancelledUntil := now + 10000)
  }

  function ResetAll(s: State): State {
    Closed(s).(manualUntil := 0, cancelledUntil := 0, player := None, hotbar := 0)
  }

  /** Slots past the end are holes until they are filled: nothing is present there. */
  function Padded(items: seq<Item>, n: nat): (r: seq<Item>)
    ensures |r| >= n && |r| >= |items| && r[..|items|] == items
    ensures forall i :: |items| <= i < |r| ==> r[i] == EMPTY
    ensures |items| >= n ==> r == items
    decreases n - |items|
  {
    if |items| >= n then items else Padded(items + [EMPTY], n)
  }

  function Put(items: seq<Item>, slot: nat, item: Item): seq<Item> {
    Padded(items, slot + 1)[slot := item]
  }

  function Equipped(s: State, slot: int, item: Item): State {
    if !(0 <= slot <= 8) then s
    else
      var player := if s.player.Some? && !s.needsFull then Some(Put(s.player.value, slot, item)) else s.player;
      s.(hotbar := slot, player := player)
  }

  predicate RecentRequest(s: State, now: nat) {
    s.requestedAt.Some? && now - s.requestedAt.value <= 5000
  }

  function Opened(s: State, id: int, chest: bool, position: Option<string>, title: Option<bool>, now: nat): State {
    var manual := now < s.manualUntil;
    var sell := position.Some? && title == Some(true);
    var owned := !manual && chest && (RecentRequest(s, now) || sell);
    var s1 := s.(menu := Some(Menu(id, chest, None, owned, position, manual)), openedAt := now, targets := None,
                 pending := None);
    if sell && now < s.cancelledUntil then Closed(s1) else s1
  }

  function Titled(s: State, position: string, sell: bool, now: nat): State {
    if s.menu.None? || s.menu.value.position != Some(position) then s
    else
      var menu := s.menu.value;
      var s1 := s.(menu := Some(menu.(owned := menu.chest && !menu.manual && (sell || RecentRequest(s, now)))));
      if sell && now < s.cancelledUntil then Closed(s1) else s1
  }

  function Confirmed(s: State): State {
    if s.pending.None? || s.authoritative then s
    else
      var p := s.pending.value;
      var gone := s.player.None? || !PresentAt(s.player.value, p.source);
      var there := s.menu.Some? && s.menu.value.items.Some? && PresentAt(s.menu.value.items.value, p.destination);
      if gone && there then s.(pending := None) else s
  }

  function WithContent(s: State, id: int, items: seq<Item>): State {
    if id == PLAYER then
      if s.needsFull && |items| < FULL then s else Confirmed(s.(player := Some(items), needsFull := false))
    else if s.menu.Some? && s.menu.value.id == id then Confirmed(s.(menu := Some(s.menu.value.(items := Some(items)))))
    else Confirmed(s)
  }

  function WithSlot(s: State, id: int, slot: int, item: Item): State {
    if !(0 <= slot < 256) then s
    else if id == PLAYER then
      if s.needsFull then s
      else Confirmed(s.(player := Some(Put(if s.player.Some? then s.player.value else Padded([], FULL), slot, item))))
    else if s.menu.Some? && s.menu.value.id == id && s.menu.value.items.Some? then
      Confirmed(s.(menu := Some(s.menu.value.(items := Some(Put(s.menu.value.items.value, slot, item))))))
    else Confirmed(s)
  }

  function Settled(items: seq<Item>, c: Change, moved: Item): (r: seq<Item>)
    ensures |r| == |items|
  {
    if !(0 <= c.slot < |items|) then items
    else items[c.slot := if c.count == 0 then EMPTY else moved.(count := c.count, stack := c.stack)]
  }

  function Changed(s: State, c: Change, moved: Item): State {
    match c.place
    case InPlayer => if s.player.Some? then s.(player := Some(Settled(s.player.value, c, moved))) else s
    case InMenu =>
      if s.menu.Some? && s.menu.value.items.Some? then
        s.(menu := Some(s.menu.value.(items := Some(Settled(s.menu.value.items.value, c, moved)))))
      else s
    case Elsewhere => s
  }

  function AllChanged(s: State, changes: seq<Change>, moved: Item): State
    decreases |changes|
  {
    if changes == [] then s else Changed(AllChanged(s, changes[..|changes| - 1], moved), changes[|changes| - 1], moved)
  }

  function Answered(s: State, r: Response): State {
    if s.pending.None? || s.pending.value.id != r.id then s
    else if !r.ok then s.(pending := None)
    else AllChanged(s, r.changes, s.pending.value.item).(pending := None)
  }

  function AllAnswered(s: State, responses: seq<Response>): State
    decreases |responses|
  {
    if responses == [] then s else Answered(AllAnswered(s, responses[..|responses| - 1]), responses[|responses| - 1])
  }

  /** The occupied ones of the first `n` slots. */
  function Targets(items: seq<Item>, n: nat): seq<nat>
    requires n <= |items|
  {
    if n == 0 then [] else Targets(items, n - 1) + if Present(items[n - 1]) then [n - 1] else []
  }

  /** Targets from the first that is still occupied. */
  function Next(targets: seq<nat>, player: seq<Item>): seq<nat> {
    if targets == [] || PresentAt(player, targets[0]) then targets else Next(targets[1..], player)
  }

  /** The first free slot, or the length when there is none. */
  function Free(items: seq<Item>, from: nat): (r: nat)
    requires from <= |items|
    ensures from <= r <= |items| && (r < |items| ==> !Present(items[r]))
    ensures forall i :: from <= i < r ==> Present(items[i])
    decreases |items| - from
  {
    if from == |items| || !Present(items[from]) then from else Free(items, from + 1)
  }

  function Failed(s: State, now: nat): State {
    Interrupted(s, false, false, false, now)
  }

  /** Ask for the transfer of the first target, the container having `destination` free. */
  function Asked(s: State, source: nat, destination: nat, item: Item, now: nat, works: bool): State {
    var s1 := s.(nextId := s.nextId - 1);
    if (s.authoritative && item.stack <= 0) || !works then Failed(s1, now)
    else
      s1.(pending := Some(Pending(s.nextId, source, destination, item, now)),
          sent := s.sent + [Transfer(s.nextId, source, destination, item,
                                     if s.authoritative then Min(255, item.count) else item.count)])
  }

  function Sold(s: State, items: seq<Item>, player: seq<Item>, now: nat, works: bool): State {
    var targets := Next(if s.targets.Some? then s.targets.value else Targets(player, Min(FULL, |player|)), player);
    var destination := Free(items, 0);
    if targets == [] || !PresentAt(player, targets[0]) || destination == |items| then Closed(s)
    else Asked(s.(targets := Some(targets[1..])), targets[0], destination, player[targets[0]], now, works)
  }

  function Ticked(s: State, now: nat, works: bool): State {
    if s.needsFull || !Busy(s) then s
    else if s.menu.None? || !s.menu.value.owned then
      if s.requestedAt.Some? && now - s.requestedAt.value >= SELL_MENU_TIMEOUT_MS then Failed(s, now) else s
    else if now - s.openedAt >= CONTENT_TIMEOUT_MS then Failed(s, now)
    else if s.pending.Some? then (if now - s.pending.value.sentAt >= TRANSFER_TIMEOUT_MS then Failed(s, now) else s)
    else if s.menu.value.items.None? || s.player.None? then s
    else Sold(s, s.menu.value.items.value, s.player.value, now, works)
  }

  function Step(s: State, e: Event): State {
    match e
    case Request(now) => s.(cancelledUntil := 0, requestedAt := Some(now), targets := None)
    case RequestMultipliers => s.(manualUntil := 0)
    case Reset => ResetAll(s)
    case Invalidate(now) => Invalidated(s, now)
    case Interrupt(closeForeign, manualSell, scanOwned, now) => Interrupted(s, closeForeign, manualSell, scanOwned, now)
    case Equipment(slot, item) => Equipped(s, slot, item)
    case Open(id, chest, position, title, now) => Opened(s, id, chest, position, title, now)
    case BlockEntity(at, sell, now) => Titled(s, at, sell, now)
    case Close(id) => if s.menu.Some? && s.menu.value.id == id then Closed(s) else s
    case ScanCloses => Closed(s)
    case Content(id, items) => WithContent(s, id, items)
    case Slot(id, slot, item) => WithSlot(s, id, slot, item)
    case Responses(responses) => AllAnswered(s, responses)
    case Tick(now, works) => Ticked(s, now, works)
  }

  // ----- the invariant -----

  predicate Descending(sent: seq<Transfer>, nextId: int) {
    && (forall i, j :: 0 <= i < j < |sent| ==> sent[i].id > sent[j].id)
    && forall i :: 0 <= i < |sent| ==> sent[i].id > nextId
  }

  predicate Inv(s: State) {
    && Descending(s.sent, s.nextId)
    && (s.pending.Some? ==> s.sent != [] && s.sent[|s.sent| - 1].id == s.pending.value.id)
    && (s.needsFull ==> s.player.None?)
  }

  /** Nothing is outstanding; the container is the bot's own and its contents are known; the
      source is occupied and the destination free. */
  predicate Safe(s: State, x: Transfer) {
    && s.pending.None? && !s.needsFull && x.id == s.nextId
    && s.menu.Some? && s.menu.value.owned && s.menu.value.items.Some? && s.player.Some?
    && PresentAt(s.player.value, x.source) && x.item == s.player.value[x.source] && 0 < x.count <= x.item.count
    && x.destination < |s.menu.value.items.value| && !PresentAt(s.menu.value.items.value, x.destination)
  }

  /** A step asks for one safe transfer, which is then outstanding. */
  predicate SendsOne(s: State, t: State) {
    && |t.sent| == |s.sent| + 1 && t.sent[..|s.sent|] == s.sent && Safe(s, t.sent[|s.sent|])
    && t.nextId == s.nextId - 1 && t.pending.Some? && t.pending.value.id == t.sent[|s.sent|].id
    && t.needsFull == s.needsFull && t.player == s.player
  }

  predicate Sends(s: State, t: State) {
    (t.sent == s.sent && t.nextId <= s.nextId) || SendsOne(s, t)
  }

  /** What every other step does: it may drop what is outstanding, never add to it. */
  predicate Quiet(s: State, t: State) {
    && t.sent == s.sent && t.nextId == s.nextId
    && (t.pending.None? || t.pending == s.pending) && (t.needsFull ==> t.player.None?)
  }

  lemma QuietKeeps(s: State, t: State)
    requires Inv(s) && Quiet(s, t)
    ensures Inv(t) && Sends(s, t)
  {
  }

  lemma {:induction false} ChangesAreQuiet(s: State, changes: seq<Change>, moved: Item)
    requires Inv(s)
    ensures var t := AllChanged(s, changes, moved); Quiet(s, t) && t.pending == s.pending && t.needsFull == s.needsFull
    decreases |changes|
  {
    hide Descending;
    if changes != [] {
      ChangesAreQuiet(s, changes[..|changes| - 1], moved);
    }
  }

  lemma {:induction false} AnswersAreQuiet(s: State, responses: seq<Response>)
    requires Inv(s)
    ensures Quiet(s, AllAnswered(s, responses)) && Inv(AllAnswered(s, responses))
    ensures AllAnswered(s, responses).needsFull == s.needsFull
    decreases |responses|
  {
    hide Descending, AllChanged, Quiet, Inv;
    if responses != [] {
      var before, last := AllAnswered(s, responses[..|responses| - 1]), responses[|responses| - 1];
      AnswersAreQuiet(s, responses[..|responses| - 1]);
      AnswerIsQuiet(before, last);
      QuietTwice(s, before, Answered(before, last));
      QuietKeeps(s, Answered(before, last));
    } else {
      QuietTwice(s, s, s);
    }
  }

  lemma AnswerIsQuiet(s: State, r: Response)
    requires Inv(s)
    ensures Quiet(s, Answered(s, r)) && Answered(s, r).needsFull == s.needsFull
  {
    hide Descending, AllChanged;
    if s.pending.Some? {
      ChangesAreQuiet(s, r.changes, s.pending.value.item);
    }
  }

  lemma QuietTwice(s: State, t: State, u: State)
    ensures Inv(s) ==> Quiet(s, s)
    ensures Quiet(s, t) && Quiet(t, u) ==> Quiet(s, u)
  {
    hide Descending;
  }

  lemma SoldSends(s: State, items: seq<Item>, player: seq<Item>, now: nat, works: bool)
    requires Inv(s) && s.pending.None? && !s.needsFull && s.player == Some(player)
    requires s.menu.Some? && s.menu.value.owned && s.menu.value.items == Some(items)
    ensures var t := Sold(s, items, player, now, works); Inv(t) && Sends(s, t)
  {
    hide Next, Targets, Free;
  }

  lemma TickSends(s: State, now: nat, works: bool)
    requires Inv(s)
    ensures Inv(Ticked(s, now, works)) && Sends(s, Ticked(s, now, works))
    ensures s.needsFull ==> Ticked(s, now, works) == s
  {
    hide Descending, Sold, Sends;
    if !s.needsFull && s.menu.Some? && s.menu.value.owned && s.menu.value.items.Some? && s.player.Some?
       && s.pending.None? {
      SoldSends(s, s.menu.value.items.value, s.player.value, now, works);
    }
    if Quiet(s, Ticked(s, now, works)) {
      QuietKeeps(s, Ticked(s, now, works));
    }
  }

  lemma StepKeeps(s: State, e: Event)
    requires Inv(s)
    ensures Inv(Step(s, e)) && Sends(s, Step(s, e))
  {
    hide Inv, Ticked, AllAnswered, Sends, Quiet, Step;
    if e.Tick? {
      TickSends(s, e.now, e.works);
      TickIsStep(s, e);
    } else {
      OthersAreQuiet(s, e);
      QuietKeeps(s, Step(s, e));
    }
  }

  lemma TickIsStep(s: State, e: Event)
    requires e.Tick?
    ensures Step(s, e) == Ticked(s, e.now, e.works)
  {
    hide Ticked;
  }

  lemma SlotIsQuiet(s: State, id: int, slot: int, item: Item)
    requires Inv(s)
    ensures Quiet(s, WithSlot(s, id, slot, item))
  {
    hide Descending, Put, Padded;
  }

  lemma ContentIsQuiet(s: State, id: int, items: seq<Item>)
    requires Inv(s)
    ensures Quiet(s, WithContent(s, id, items))
  {
    hide Descending, Put, Padded;
  }

  lemma OthersAreQuiet(s: State, e: Event)
    requires Inv(s) && !e.Tick?
    ensures Quiet(s, Step(s, e))
  {
    hide Descending, Ticked, AllAnswered, Put, Padded, WithSlot, WithContent;
    if e.Responses? {
      AnswersAreQuiet(s, e.responses);
    } else if e.Slot? {
      SlotIsQuiet(s, e.id, e.slot, e.item);
    } else if e.Content? {
      ContentIsQuiet(s, e.id, e.items);
    }
  }

  /** Only full contents of the player's own inventory make it usable again. */
  lemma OnlyFullContentRestores(s: State, e: Event)
    requires Inv(s) && s.needsFull && !(e.Content? && e.id == PLAYER && |e.items| >= FULL)
    ensures Step(s, e).needsFull && Step(s, e).sent == s.sent
  {
    hide Descending, Ticked, AllAnswered;
    match e
    case Tick(now, works) => TickSends(s, now, works);
    case Responses(responses) => AnswersAreQuiet(s, responses);
    case _ =>
  }

  // ----- whole runs -----

  function At(authoritative: bool, events: seq<Event>, n: nat): State
    requires n <= |events|
  {
    if n == 0 then Initial(authoritative) else Step(At(authoritative, events, n - 1), events[n - 1])
  }

  lemma {:induction false} RunKeeps(authoritative: bool, events: seq<Event>, n: nat)
    requires n <= |events|
    ensures Inv(At(authoritative, events, n))
  {
    hide Inv, Step, Sends;
    if n > 0 {
      RunKeeps(authoritative, events, n - 1);
      StepKeeps(At(authoritative, events, n - 1), events[n - 1]);
    } else {
      StartsWell(authoritative);
    }
  }

  lemma StartsWell(authoritative: bool)
    ensures Inv(Initial(authoritative))
  {
  }

  lemma RunStep(authoritative: bool, events: seq<Event>, n: nat)
    requires n < |events|
    ensures At(authoritative, events, n + 1) == Step(At(authoritative, events, n), events[n])
    ensures Sends(At(authoritative, events, n), At(authoritative, events, n + 1))
  {
    hide Step, Sends, Inv;
    RunKeeps(authoritative, events, n);
    StepKeeps(At(authoritative, events, n), events[n]);
  }

  /** Whatever the server and the player do, each transfer is asked for with none outstanding,
      from an occupied slot into a free one of a container that is the bot's own. */
  lemma TransfersAreSafe(authoritative: bool, events: seq<Event>, n: nat)
    requires n < |events| && At(authoritative, events, n + 1).sent != At(authoritative, events, n).sent
    ensures SendsOne(At(authoritative, events, n), At(authoritative, events, n + 1))
  {
    hide Step, SendsOne, At;
    RunStep(authoritative, events, n);
  }

  /** Request ids strictly decrease. */
  lemma IdsDescend(authoritative: bool, events: seq<Event>, n: nat)
    requires n <= |events|
    ensures var sent := At(authoritative, events, n).sent;
            forall i, j :: 0 <= i < j < |sent| ==> sent[i].id > sent[j].id
  {
    hide At;
    RunKeeps(authoritative, events, n);
  }

  /** So an acknowledgement of any transfer but the last, or of the last once it is no longer
      outstanding, changes nothing. */
  lemma LateAnswersAreIgnored(authoritative: bool, events: seq<Event>, n: nat, k: nat, r: Response)
    requires n <= |events| && k < |At(authoritative, events, n).sent| && r.id == At(authoritative, events, n).sent[k].id
    requires k < |At(authoritative, events, n).sent| - 1 || At(authoritative, events, n).pending.None?
    ensures Step(At(authoritative, events, n), Responses([r])) == At(authoritative, events, n)
  {
    hide At, AllChanged;
    RunKeeps(authoritative, events, n);
    var s := At(authoritative, events, n);
    assert [r][..|[r]| - 1] == [];
    assert AllAnswered(s, []) == s;
  }

  /** After a lost inventory packet nothing is transferred until full contents have come. */
  lemma {:induction false} NoTransferBeforeFullContent(authoritative: bool, events: seq<Event>, m: nat, n: nat)
    requires m < n <= |events| && events[m].Invalidate?
    requires forall k :: m < k < n ==> !(events[k].Content? && events[k].id == PLAYER && |events[k].items| >= FULL)
    ensures At(authoritative, events, n).needsFull
    ensures At(authoritative, events, n).sent == At(authoritative, events, m).sent
    decreases n
  {
    hide At, Step, Sends, Inv;
    RunStep(authoritative, events, n - 1);
    if m < n - 1 {
      NoTransferBeforeFullContent(authoritative, events, m, n - 1);
      RunKeeps(authoritative, events, n - 1);
      OnlyFullContentRestores(At(authoritative, events, n - 1), events[n - 1]);
    } else {
      InvalidateStops(At(authoritative, events, m), events[m]);
    }
  }

  lemma InvalidateStops(s: State, e: Event)
    requires e.Invalidate?
    ensures Step(s, e).needsFull && Step(s, e).sent == s.sent
  {
  }

  lemma OneMore(authoritative: bool, events: seq<Event>, e: Event)
    ensures At(authoritative, events + [e], |events| + 1) == Step(At(authoritative, events, |events|), e)
  {
    hide Step;
    SamePrefix(authoritative, events, e, |events|);
  }

  lemma {:induction false} SamePrefix(authoritative: bool, events: seq<Event>, e: Event, n: nat)
    requires n <= |events|
    ensures At(authoritative, events + [e], n) == At(authoritative, events, n)
  {
    hide Step;
    if n > 0 {
      SamePrefix(authoritative, events, e, n - 1);
    }
  }

  // ----- the inventory itself -----

  class Inventory {
    const authoritative: bool
    var player: Option<seq<Item>>
    var container: Option<Menu>
    var requestedAt: Option<nat>
    var targets: Option<seq<nat>>
    var pending: Option<Pending>
    var nextRequestId: int
    var openedAt: nat
    var manualGuardUntil: nat
    var cancelledSellUntil: nat
    var needsFullPlayerContent: bool
    var hotbarSlot: nat
    ghost var sent: seq<Transfer>
    ghost var events: seq<Event>

    ghost function View(): State
      reads this
    {
      State(authoritative, player, container, requestedAt, targets, pending, nextRequestId, openedAt, manualGuardUntil,
            cancelledSellUntil, needsFullPlayerContent, hotbarSlot, sent)
    }

    ghost predicate Valid()
      reads this
    {
      View() == At(authoritative, events, |events|)
    }

    constructor (authoritative: bool)
      ensures Valid() && events == [] && this.authoritative == authoritative
    {
      this.authoritative, player, container, requestedAt := authoritative, None, None, None;
      targets, pending := None, None;
      nextRequestId, openedAt, manualGuardUntil, cancelledSellUntil := -1, 0, 0, 0;
      needsFullPlayerContent, hotbarSlot, sent, events := false, 0, [], [];
    }

    method CloseMenu()
      modifies this`container, this`requestedAt, this`targets, this`pending
      ensures View() == Closed(old(View()))
    {
      container := None;
      requestedAt := None;
      targets := None;
      pending := None;
    }

    method Stop(closeForeign: bool, manualSell: bool, scanOwned: bool, now: nat)
      modifies this`container, this`requestedAt, this`targets, this`pending, this`manualGuardUntil,
        this`cancelledSellUntil
      ensures View() == Interrupted(old(View()), closeForeign, manualSell, scanOwned, now)
    {
      if closeForeign {
        manualGuardUntil := now + 5000;
        if manualSell {
          cancelledSellUntil := 0;
        } else if requestedAt.Some? || (container.Some? && container.value.owned) {
          cancelledSellUntil := now + 10000;
        }
      }
      if container.Some? && (container.value.owned || closeForeign || scanOwned) {
        CloseMenu();
      }
      requestedAt := None;
      targets := None;
      pending := None;
    }

    method InvalidateAfterDecodeFailure(now: nat)
      modifies this
      ensures View() == Invalidated(old(View()), now) && events == old(events)
    {
      needsFullPlayerContent := true;
      player := None;
      Stop(false, false, false, now);
      if container.Some? {
        container := Some(container.value.(items := None));
      }
      cancelledSellUntil := now + 10000;
    }

    method OnEquipment(slot: int, item: Item)
      modifies this`hotbarSlot, this`player
      ensures View() == Equipped(old(View()), slot, item)
    {
      if slot < 0 || slot > 8 {
        return;
      }
      hotbarSlot := slot;
      if player.Some? && !needsFullPlayerContent {
        player := Some(Put(player.value, slot, item));
      }
    }

    method OnOpen(id: int, chest: bool, position: Option<string>, title: Option<bool>, now: nat)
      modifies this
      ensures View() == Opened(old(View()), id, chest, position, title, now) && events == old(events)
    {
      var manual := now < manualGuardUntil;
      var sell := position.Some? && title == Some(true);
      var recentRequest := requestedAt.Some? && now - requestedAt.value <= 5000;
      var owned := !manual && chest && (recentRequest || sell);
      container := Some(Menu(id, chest, None, owned, position, manual));
      openedAt := now;
      targets := None;
      pending := None;
      if sell && now < cancelledSellUntil {
        CloseMenu();
      }
    }

    method OnBlockEntity(position: string, sell: bool, now: nat)
      modifies this`container, this`requestedAt, this`targets, this`pending
      ensures View() == Titled(old(View()), position, sell, now)
    {
      if container.None? || container.value.position != Some(position) {
        return;
      }
      var menu := container.value;
      var recentRequest := requestedAt.Some? && now - requestedAt.value <= 5000;
      container := Some(menu.(owned := menu.chest && !menu.manual && (sell || recentRequest)));
      if sell && now < cancelledSellUntil {
        CloseMenu();
      }
    }

    method ConfirmLegacyTransfer()
      modifies this`pending
      ensures View() == Confirmed(old(View()))
    {
      if pending.None? || authoritative {
        return;
      }
      var gone := player.None? || !PresentAt(player.value, pending.value.source);
      var there := container.Some? && container.value.items.Some?
                   && PresentAt(container.value.items.value, pending.value.destination);
      if gone && there {
        pending := None;
      }
    }

    method OnContent(id: int, items: seq<Item>)
      modifies this`player, this`needsFullPlayerContent, this`container, this`pending
      ensures View() == WithContent(old(View()), id, items)
    {
      hide Confirmed;
      if id == PLAYER {
        if needsFullPlayerContent && |items| < FULL {
          return;
        }
        player := Some(items);
        needsFullPlayerContent := false;
      } else if container.Some? && container.value.id == id {
        container := Some(container.value.(items := Some(items)));
      }
      ConfirmLegacyTransfer();
    }

    method OnSlot(id: int, slot: int, item: Item)
      modifies this`player, this`container, this`pending
      ensures View() == WithSlot(old(View()), id, slot, item)
    {
      hide Confirmed, Put, Padded;
      if slot < 0 || slot >= 256 {
        return;
      }
      if id == PLAYER {
        if needsFullPlayerContent {
          return;
        }
        player := Some(Put(if player.Some? then player.value else Padded([], FULL), slot, item));
      } else if container.Some? && container.value.id == id && container.value.items.Some? {
        container := Some(container.value.(items := Some(Put(container.value.items.value, slot, item))));
      }
      ConfirmLegacyTransfer();
    }

    method ChangeSlot(c: Change, moved: Item)
      modifies this`player, this`container
      ensures View() == Changed(old(View()), c, moved)
    {
      match c.place
      case InPlayer =>
        if player.Some? {
          player := Some(Settled(player.value, c, moved));
        }
      case InMenu =>
        if container.Some? && container.value.items.Some? {
          container := Some(container.value.(items := Some(Settled(container.value.items.value, c, moved))));
        }
      case Elsewhere =>
    }

    method OnAnswer(r: Response)
      modifies this`player, this`container, this`pending
      ensures View() == Answered(old(View()), r)
    {
      hide Changed;
      if pending.None? || pending.value.id != r.id {
        return;
      }
      if r.ok {
        var i := 0;
        ghost var before := View();
        while i < |r.changes|
          invariant i <= |r.changes| && View() == AllChanged(before, r.changes[..i], before.pending.value.item)
          invariant pending == before.pending
        {
          assert r.changes[..i + 1][..i] == r.changes[..i];
          ChangeSlot(r.changes[i], pending.value.item);
          ChangeKeepsPending(AllChanged(before, r.changes[..i], before.pending.value.item), r.changes[i],
                             pending.value.item);
          i := i + 1;
        }
        assert r.changes[..i] == r.changes;
      }
      pending := None;
    }

    method OnResponse(responses: seq<Response>)
      modifies this`player, this`container, this`pending
      ensures View() == AllAnswered(old(View()), responses)
    {
      hide Answered;
      var i := 0;
      while i < |responses|
        invariant i <= |responses| && View() == AllAnswered(old(View()), responses[..i])
      {
        assert responses[..i + 1][..i] == responses[..i];
        OnAnswer(responses[i]);
        i := i + 1;
      }
      assert responses[..i] == responses;
    }

    method Ask(source: nat, destination: nat, item: Item, now: nat, works: bool)
      modifies this
      ensures View() == Asked(old(View()), source, destination, item, now, works) && events == old(events)
    {
      hide Interrupted;
      var requestId := nextRequestId;
      nextRequestId := nextRequestId - 1;
      if (authoritative && item.stack <= 0) || !works {
        Stop(false, false, false, now);
        return;
      }
      pending := Some(Pending(requestId, source, destination, item, now));
      sent := sent + [Transfer(requestId, source, destination, item, if authoritative then Min(255, item.count)
                                                                     else item.count)];
    }

    method Sell(items: seq<Item>, stacks: seq<Item>, now: nat, works: bool)
      modifies this
      ensures View() == Sold(old(View()), items, stacks, now, works) && events == old(events)
    {
      hide Asked, Targets, Free;
      ghost var before := View();
      var left := if targets.Some? then targets.value else Targets(stacks, Min(FULL, |stacks|));
      ghost var all := left;
      while left != [] && !PresentAt(stacks, left[0])
        invariant Next(left, stacks) == Next(all, stacks) && View() == before && events == old(events)
      {
        left := left[1..];
      }
      var destination := Free(items, 0);
      if left == [] || destination == |items| {
        CloseMenu();
        return;
      }
      targets := Some(left[1..]);
      Ask(left[0], destination, stacks[left[0]], now, works);
    }

    method TickNow(now: nat, works: bool)
      modifies this
      ensures View() == Ticked(old(View()), now, works) && events == old(events)
    {
      hide Sold, Interrupted;
      if needsFullPlayerContent || (requestedAt.None? && (container.None? || !container.value.owned)) {
        return;
      }
      if container.None? || !container.value.owned {
        if requestedAt.Some? && now - requestedAt.value >= SELL_MENU_TIMEOUT_MS {
          Stop(false, false, false, now);
        }
        return;
      }
      if now - openedAt >= CONTENT_TIMEOUT_MS {
        Stop(false, false, false, now);
      } else if pending.Some? {
        if now - pending.value.sentAt >= TRANSFER_TIMEOUT_MS {
          Stop(false, false, false, now);
        }
      } else if container.value.items.Some? && player.Some? {
        Sell(container.value.items.value, player.value, now, works);
      }
    }

    /** Whatever happens next: a transfer that goes out is safe and the only one outstanding, ids
        descend, and after a lost packet only full contents make the inventory usable again. */
    method Handle(e: Event)
      requires Valid()
      modifies this
      ensures Valid() && events == old(events) + [e]
      ensures sent != old(sent) ==> SendsOne(old(View()), View())
      ensures forall i, j :: 0 <= i < j < |sent| ==> sent[i].id > sent[j].id
      ensures e.Invalidate? ==> needsFullPlayerContent && sent == old(sent)
      ensures old(needsFullPlayerContent) && !(e.Content? && e.id == PLAYER && |e.items| >= FULL) ==>
                needsFullPlayerContent && sent == old(sent)
    {
      hide At, Step, SendsOne, Inv;
      OneMore(authoritative, events, e);
      RunKeeps(authoritative, events, |events|);
      StepIsSafe(View(), e);
      if e.Content? || e.Slot? || e.Responses? || e.Tick? || e.Equipment? {
        HandleContents(e);
      } else {
        HandleMenus(e);
      }
      events := events + [e];
      IdsDescend(authoritative, events, |events|);
    }

    method HandleContents(e: Event)
      requires e.Content? || e.Slot? || e.Responses? || e.Tick? || e.Equipment?
      modifies this
      ensures View() == Step(old(View()), e) && events == old(events)
    {
      hide Equipped, WithContent, WithSlot, AllAnswered, Ticked;
      match e
      case Equipment(slot, item) => OnEquipment(slot, item);
      case Content(id, items) => OnContent(id, items);
      case Slot(id, slot, item) => OnSlot(id, slot, item);
      case Responses(responses) => OnResponse(responses);
      case Tick(now, works) => TickNow(now, works);
    }

    method HandleMenus(e: Event)
      requires !(e.Content? || e.Slot? || e.Responses? || e.Tick? || e.Equipment?)
      modifies this
      ensures View() == Step(old(View()), e) && events == old(events)
    {
      hide Invalidated, Interrupted, Opened, Titled;
      match e {
        case Request(now) =>
          cancelledSellUntil := 0;
          requestedAt := Some(now);
          targets := None;
        case RequestMultipliers => manualGuardUntil := 0;
        case Reset =>
          CloseMenu();
          manualGuardUntil, cancelledSellUntil, player, hotbarSlot := 0, 0, None, 0;
        case Invalidate(now) => InvalidateAfterDecodeFailure(now);
        case Interrupt(closeForeign, manualSell, scanOwned, now) => Stop(closeForeign, manualSell, scanOwned, now);
        case Open(id, chest, position, title, now) => OnOpen(id, chest, position, title, now);
        case BlockEntity(position, sell, now) => OnBlockEntity(position, sell, now);
        case Close(id) =>
          if container.Some? && container.value.id == id {
            CloseMenu();
          }
        case ScanCloses => CloseMenu();
      }
    }
  }

  lemma ChangeKeepsPending(s: State, c: Change, moved: Item)
    ensures Changed(s, c, moved).pending == s.pending
  {
  }

  lemma StepIsSafe(s: State, e: Event)
    requires Inv(s)
    ensures Step(s, e).sent != s.sent ==> SendsOne(s, Step(s, e))
    ensures e.Invalidate? ==> Step(s, e).needsFull && Step(s, e).sent == s.sent
    ensures s.needsFull && !(e.Content? && e.id == PLAYER && |e.items| >= FULL) ==>
              Step(s, e).needsFull && Step(s, e).sent == s.sent
  {
    hide Step, SendsOne, Inv;
    StepKeeps(s, e);
    if e.Invalidate? {
      InvalidateStops(s, e);
    }
    if s.needsFull && !(e.Content? && e.id == PLAYER && |e.items| >= FULL) {
      OnlyFullContentRestores(s, e);
    }
  }
}
