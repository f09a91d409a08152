/** The filter for dropped items and the bounded reader in front of the game.

    Packets are abstract: `Raw` says what its header and its decoder would give, and in which
    protocol phase it is processed. */
module PacketFilter {
  import opened Wrappers

  /** The packet kinds that only show an entity; the fast path knows them by id. */
  datatype Visual = EntityData | Motion | PositionSync | Teleport | MovePos | MovePosRot | MoveRot | TakeItem

  datatype Packet =
    | AddEntity(id: int, item: bool, data: nat)
    | RemoveEntities(ids: seq<int>)
    | Show(visual: Visual, id: int, data: nat)
    | EntityEvent(id: int, data: nat)
    | NewWorld
    | Disconnect
    | Other(data: nat)

  /** The id a raw packet starts with, as far as the fast path cares. */
  datatype Header = Fast(visual: Visual) | Slow

  /** `header` and `entity` are the two VarInts in front, where they can be read. */
  datatype Raw = Raw(game: bool, empty: bool, serverData: bool, header: Option<Header>, entity: Option<int>,
                     decoded: Option<Packet>)

  /** The decoder reads the header the fast path reads, and only the game has entities. */
  predicate Consistent(raw: Raw) {
    && (!raw.game && raw.decoded.Some? ==>
          raw.decoded.value.NewWorld? || raw.decoded.value.Disconnect? || raw.decoded.value.Other?)
    && HeaderMatches(raw)
  }

  predicate HeaderMatches(raw: Raw) {
    raw.decoded.Some? && (raw.decoded.value.Show? || (raw.header.Some? && raw.header.value.Fast?)) ==>
      && raw.decoded.value.Show?
      && raw.header == Some(Fast(raw.decoded.value.visual)) && raw.entity == Some(raw.decoded.value.id)
  }

  // ----- the filter -----

  /** Keep only ids that are not ignored, each ignored id being forgotten at its first mention. */
  function Retained(ids: seq<int>, ignored: set<int>): seq<int> {
    if ids == [] then []
    else if ids[0] in ignored then Retained(ids[1..], ignored - {ids[0]})
    else [ids[0]] + Retained(ids[1..], ignored)
  }

  function Forgotten(ids: seq<int>, ignored: set<int>): set<int> {
    if ids == [] then ignored else Forgotten(ids[1..], ignored - {ids[0]})
  }

  lemma {:induction false} ForgottenIsDifference(ids: seq<int>, ignored: set<int>)
    ensures Forgotten(ids, ignored) == ignored - set id | id in ids
    decreases |ids|
  {
    if ids != [] {
      ForgottenIsDifference(ids[1..], ignored - {ids[0]});
    }
  }

  /** What is passed on of a packet, if anything, and what is ignored from now on. */
  function Kept(ignored: set<int>, p: Packet): (Option<Packet>, set<int>) {
    match p
    case AddEntity(id, item, _) => if item then (None, ignored + {id}) else (Some(p), ignored - {id})
    case RemoveEntities(ids) =>
      var rest := Retained(ids, ignored);
      (if rest == [] then None else Some(RemoveEntities(rest)), Forgotten(ids, ignored))
    case Show(_, id, _) => (if id in ignored then None else Some(p), ignored)
    case EntityEvent(id, _) => (if id in ignored then None else Some(p), ignored)
    case NewWorld => (Some(p), {})
    case Disconnect => (Some(p), ignored)
    case Other(_) => (Some(p), ignored)
  }

  predicate Skipped(ignored: set<int>, raw: Raw) {
    raw.header.Some? && raw.header.value.Fast? && raw.entity.Some? && raw.entity.value in ignored
  }

  /** Skipping before decoding changes nothing that decoding would have decided. */
  lemma FastPathAgrees(ignored: set<int>, raw: Raw)
    requires Consistent(raw) && Skipped(ignored, raw) && raw.decoded.Some?
    ensures Kept(ignored, raw.decoded.value) == (None, ignored)
  {
  }

  /** What the filter has passed on, and whether the server has said goodbye. */
  datatype State = State(ignored: set<int>, passed: seq<Packet>, goodbye: bool)

  datatype Verdict = Applied | Dropped | Malformed

  function Pass(s: State, ignored: set<int>, p: Option<Packet>): State {
    if p.Some? then State(ignored, s.passed + [p.value], s.goodbye || p.value.Disconnect?) else s.(ignored := ignored)
  }

  /** One packet; `fast` says whether the path before decoding is used. */
  function Single(fast: bool, s: State, raw: Raw): (State, Verdict) {
    if raw.empty then (s, Dropped)
    else if raw.game then
      if raw.serverData || (fast && Skipped(s.ignored, raw)) then (s, Dropped)
      else if raw.decoded.None? then (s, Malformed)
      else
        var (p, ignored) := Kept(s.ignored, raw.decoded.value);
        (Pass(s, ignored, p), if p.Some? then Applied else Dropped)
    else if raw.decoded.None? then (s.(ignored := {}), Malformed)
    else (Pass(s, {}, raw.decoded), Applied)
  }

  /** The fast path drops just what decoding would drop, keeps the same ids ignored, and
      differs only in not noticing that a packet it drops is malformed. */
  lemma FastIsSlow(s: State, raw: Raw)
    requires Consistent(raw)
    ensures Single(true, s, raw).0 == Single(false, s, raw).0
    ensures Single(true, s, raw).1 == Single(false, s, raw).1 <==>
              !(raw.game && !raw.empty && !raw.serverData && Skipped(s.ignored, raw) && raw.decoded.None?)
  {
    hide Kept;
    if raw.decoded.Some? && Skipped(s.ignored, raw) {
      FastPathAgrees(s.ignored, raw);
    }
  }

  // ----- units and updates -----

  /** What a frame becomes in the bundle collector. */
  datatype Unit = Pending | One(raw: Raw) | Complete(raws: seq<Raw>) | Bad

  function Batch(fast: bool, s: State, raws: seq<Raw>): State
    decreases |raws|
  {
    if raws == [] then s else Single(fast, Batch(fast, s, raws[..|raws| - 1]), raws[|raws| - 1]).0
  }

  /** Whether handling these counts towards the limit of an update: something was passed on
      or was malformed. */
  predicate BatchCounts(fast: bool, s: State, raws: seq<Raw>)
    decreases |raws|
  {
    && raws != []
    && (|| BatchCounts(fast, s, raws[..|raws| - 1])
        || !Single(fast, Batch(fast, s, raws[..|raws| - 1]), raws[|raws| - 1]).1.Dropped?)
  }

  function Raws(u: Unit): seq<Raw> {
    match u
    case Pending => []
    case One(raw) => [raw]
    case Complete(raws) => raws
    case Bad => []
  }

  /** Everything a series of units does, while the connection lasts. */
  function Handle(fast: bool, s: State, units: seq<Unit>): State
    decreases |units|
  {
    if units == [] then s else Handle(fast, Batch(fast, s, Raws(units[0])), units[1..])
  }

  lemma {:induction false} HandleSplits(fast: bool, s: State, a: seq<Unit>, b: seq<Unit>)
    ensures Handle(fast, s, a + b) == Handle(fast, Handle(fast, s, a), b)
    decreases |a|
  {
    if a == [] {
      assert a + b == b;
    } else {
      assert (a + b)[1..] == a[1..] + b;
      HandleSplits(fast, Batch(fast, s, Raws(a[0])), a[1..], b);
    }
  }

  lemma HandleOne(fast: bool, s: State, u: Unit)
    ensures Handle(fast, s, [u]) == Batch(fast, s, Raws(u))
  {
    assert Handle(fast, Batch(fast, s, Raws(u)), [u][1..]) == Batch(fast, s, Raws(u));
  }

  predicate AllConsistent(raws: seq<Raw>) {
    forall raw <- raws :: Consistent(raw)
  }

  lemma {:induction false} BatchFastIsSlow(s: State, raws: seq<Raw>)
    requires AllConsistent(raws)
    ensures Batch(true, s, raws) == Batch(false, s, raws)
    decreases |raws|
  {
    hide Single, Consistent;
    if raws != [] {
      BatchFastIsSlow(s, raws[..|raws| - 1]);
      FastIsSlow(Batch(true, s, raws[..|raws| - 1]), raws[|raws| - 1]);
    }
  }

  /** Over whole streams too, the fast path passes on the same packets and ignores the same ids. */
  lemma {:induction false} StreamFastIsSlow(s: State, units: seq<Unit>)
    requires forall u <- units :: AllConsistent(Raws(u))
    ensures Handle(true, s, units) == Handle(false, s, units)
    decreases |units|
  {
    hide Batch, AllConsistent, Raws;
    if units != [] {
      BatchFastIsSlow(s, Raws(units[0]));
      StreamFastIsSlow(Batch(true, s, Raws(units[0])), units[1..]);
    }
  }

  // ----- the world behind the filter -----

  /** What has been shown of an entity since it was added. */
  datatype Thing = Thing(item: bool, seen: seq<Packet>)

  type World = map<int, Thing>

  function Seen(w: World, id: int, p: Packet): World {
    if id in w then w[id := w[id].(seen := w[id].seen + [p])] else w
  }

  function Apply(w: World, p: Packet): World {
    match p
    case AddEntity(id, item, _) => w[id := Thing(item, [p])]
    case RemoveEntities(ids) => w - set id | id in ids
    case Show(_, id, _) => Seen(w, id, p)
    case EntityEvent(id, _) => Seen(w, id, p)
    case NewWorld => map[]
    case Disconnect => w
    case Other(_) => w
  }

  /** The world without its dropped items. */
  function WithoutItems(w: World): World {
    map id | id in w && !w[id].item :: w[id]
  }

  /** An item takes over the id of an entity that is still there and is no item. */
  predicate Reuses(w: World, p: Packet) {
    p.AddEntity? && p.item && p.id in w && !w[p.id].item
  }

  /** Nothing that is there and is no item is ignored. */
  predicate Apart(ignored: set<int>, w: World) {
    forall id :: id in ignored && id in w ==> w[id].item
  }

  function Behind(w: World, p: Option<Packet>): World {
    if p.Some? then Apply(w, p.value) else w
  }

  lemma {:induction false} RetainedIds(ids: seq<int>, ignored: set<int>, id: int)
    requires id !in ignored
    ensures id in Retained(ids, ignored) <==> id in ids
    decreases |ids|
  {
    if ids != [] {
      RetainedIds(ids[1..], if ids[0] in ignored then ignored - {ids[0]} else ignored, id);
    }
  }

  lemma RetainedSuffices(ids: seq<int>, ignored: set<int>, w: World)
    requires forall id :: id in ignored ==> id !in w
    ensures w - (set id | id in Retained(ids, ignored)) == w - set id | id in ids
  {
    hide Retained;
    forall id | id in w ensures id in Retained(ids, ignored) <==> id in ids {
      RetainedIds(ids, ignored, id);
    }
  }

  /** One packet keeps the two worlds together. */
  lemma KeptSimulates(ignored: set<int>, w: World, p: Packet)
    requires Apart(ignored, w) && !Reuses(w, p)
    ensures var (q, ignored1) := Kept(ignored, p);
            Behind(WithoutItems(w), q) == WithoutItems(Apply(w, p)) && Apart(ignored1, Apply(w, p))
  {
    hide Retained, Forgotten;
    match p
    case RemoveEntities(ids) =>
      RetainedSuffices(ids, ignored, WithoutItems(w));
      ForgottenIsDifference(ids, ignored);
      assert WithoutItems(Apply(w, p)) == WithoutItems(w) - set id | id in ids;
    case _ =>
  }

  /** A reused id keeps its old entity behind the filter only. */
  lemma ReuseSplits(ignored: set<int>, w: World, p: Packet)
    requires Reuses(w, p)
    ensures Behind(WithoutItems(w), Kept(ignored, p).0) != WithoutItems(Apply(w, p))
  {
    assert Kept(ignored, p).0 == None;
    assert p.id in WithoutItems(w) && p.id !in WithoutItems(Apply(w, p));
  }

  /** What an unfiltered game would be given of a packet. */
  function Given(raw: Raw): Option<Packet> {
    if raw.empty || (raw.game && raw.serverData) then None else raw.decoded
  }

  function Unfiltered(raws: seq<Raw>): World
    decreases |raws|
  {
    if raws == [] then map[] else Behind(Unfiltered(raws[..|raws| - 1]), Given(raws[|raws| - 1]))
  }

  /** The world that the packets passed on make. */
  function Filtered(passed: seq<Packet>): World
    decreases |passed|
  {
    if passed == [] then map[] else Apply(Filtered(passed[..|passed| - 1]), passed[|passed| - 1])
  }

  lemma FilteredOneMore(passed: seq<Packet>, p: Packet)
    ensures Filtered(passed + [p]) == Apply(Filtered(passed), p)
  {
    assert (passed + [p])[..|passed|] == passed;
  }

  const START := State({}, [], false)

  /** The worlds agree, and only items are ignored. */
  predicate Together(s: State, w: World) {
    Filtered(s.passed) == WithoutItems(w) && Apart(s.ignored, w)
  }

  lemma SlowSimulates(s: State, raw: Raw, w: World)
    requires Together(s, w) && Consistent(raw)
    requires Given(raw).Some? ==> !Reuses(w, Given(raw).value)
    ensures Together(Single(false, s, raw).0, Behind(w, Given(raw)))
  {
    hide Kept, Apply, WithoutItems, Filtered, Reuses;
    if Given(raw).Some? {
      var p := Given(raw).value;
      if raw.game {
        KeptSimulates(s.ignored, w, p);
        var q := Kept(s.ignored, p).0;
        if q.Some? {
          FilteredOneMore(s.passed, q.value);
        }
      } else {
        FilteredOneMore(s.passed, p);
        OutsideGame(w, p);
      }
    }
  }

  lemma OutsideGame(w: World, p: Packet)
    requires p.NewWorld? || p.Disconnect? || p.Other?
    ensures Apply(WithoutItems(w), p) == WithoutItems(Apply(w, p))
  {
  }

  /** The packet after the first `k` gives an item an id still in use by something else. */
  predicate ReusesAt(raws: seq<Raw>, k: nat)
    requires k < |raws|
  {
    Given(raws[k]).Some? && Reuses(Unfiltered(raws[..k]), Given(raws[k]).value)
  }

  lemma {:induction false} WorldsStayTogether(raws: seq<Raw>)
    requires AllConsistent(raws)
    requires forall k :: 0 <= k < |raws| ==> !ReusesAt(raws, k)
    ensures Together(Batch(true, START, raws), Unfiltered(raws))
    decreases |raws|
  {
    hide Single, Together, Reuses, Consistent;
    if raws == [] {
      StartTogether();
    } else {
      var n := |raws| - 1;
      var before := raws[..n];
      forall k | 0 <= k < n ensures !ReusesAt(before, k) {
        assert before[..k] == raws[..k];
        assert !ReusesAt(raws, k);
      }
      WorldsStayTogether(before);
      assert !ReusesAt(raws, n);
      var s := Batch(true, START, before);
      FastIsSlow(s, raws[n]);
      SlowSimulates(s, raws[n], Unfiltered(before));
    }
  }

  lemma StartTogether()
    ensures Together(START, map[])
  {
  }

  /** After the first `n` packets the game behind the filter has the unfiltered world, less its items. */
  predicate Agrees(raws: seq<Raw>, n: nat)
    requires n <= |raws|
  {
    Filtered(Batch(true, START, raws[..n]).passed) == WithoutItems(Unfiltered(raws[..n]))
  }

  /** That is so at every moment exactly when no item takes over an id in use. */
  lemma FilteringCommutes(raws: seq<Raw>)
    requires AllConsistent(raws)
    ensures (forall n :: 0 <= n <= |raws| ==> Agrees(raws, n)) <==> (forall k :: 0 <= k < |raws| ==> !ReusesAt(raws, k))
  {
    hide Agrees, ReusesAt;
    if forall k :: 0 <= k < |raws| ==> !ReusesAt(raws, k) {
      forall n | 0 <= n <= |raws| ensures Agrees(raws, n) {
        PrefixAgrees(raws, n);
      }
    }
    if forall n :: 0 <= n <= |raws| ==> Agrees(raws, n) {
      forall k | 0 <= k < |raws| ensures !ReusesAt(raws, k) {
        assert Agrees(raws, k) && Agrees(raws, k + 1);
        if ReusesAt(raws, k) {
          ReuseShows(raws, k);
        }
      }
    }
  }

  lemma PrefixAgrees(raws: seq<Raw>, n: nat)
    requires AllConsistent(raws) && n <= |raws| && forall k :: 0 <= k < |raws| ==> !ReusesAt(raws, k)
    ensures Agrees(raws, n)
  {
    hide Reuses, Batch, Consistent, Filtered, WithoutItems, Unfiltered;
    forall k | 0 <= k < n ensures !ReusesAt(raws[..n], k) {
      assert raws[..n][..k] == raws[..k];
      assert !ReusesAt(raws, k);
    }
    WorldsStayTogether(raws[..n]);
  }

  lemma ReuseShows(raws: seq<Raw>, k: nat)
    requires AllConsistent(raws) && k < |raws| && ReusesAt(raws, k)
    ensures !(Agrees(raws, k) && Agrees(raws, k + 1))
  {
    hide Filtered, WithoutItems, Apply;
    var before, p := raws[..k], Given(raws[k]).value;
    assert raws[..k + 1][..k] == before;
    var s := Batch(true, START, before);
    assert Batch(true, START, raws[..k + 1]) == Single(true, s, raws[k]).0;
    assert Unfiltered(raws[..k + 1]) == Behind(Unfiltered(before), Some(p));
    ItemIsSwallowed(s, raws[k]);
    ReuseSplits(s.ignored, Unfiltered(before), p);
  }

  lemma ItemIsSwallowed(s: State, raw: Raw)
    requires Consistent(raw) && Given(raw).Some? && Given(raw).value.AddEntity? && Given(raw).value.item
    ensures Single(true, s, raw).0.passed == s.passed && Kept(s.ignored, Given(raw).value).0.None?
  {
  }

  // ----- streams of units -----

  function AllRaws(units: seq<Unit>): seq<Raw>
    decreases |units|
  {
    if units == [] then [] else AllRaws(units[..|units| - 1]) + Raws(units[|units| - 1])
  }

  lemma {:induction false} BatchSplits(fast: bool, s: State, a: seq<Raw>, b: seq<Raw>)
    ensures Batch(fast, s, a + b) == Batch(fast, Batch(fast, s, a), b)
    decreases |b|
  {
    hide Single;
    if b == [] {
      assert a + b == a;
    } else {
      assert (a + b)[..|a + b| - 1] == a + b[..|b| - 1];
      BatchSplits(fast, s, a, b[..|b| - 1]);
    }
  }

  lemma {:induction false} HandleIsBatch(fast: bool, units: seq<Unit>)
    ensures Handle(fast, START, units) == Batch(fast, START, AllRaws(units))
    decreases |units|
  {
    hide Batch, Handle, Raws;
    if units == [] {
      NothingHandled(fast);
    } else {
      var before, last := units[..|units| - 1], units[|units| - 1];
      HandleIsBatch(fast, before);
      assert units == before + [last];
      HandleSplits(fast, START, before, [last]);
      HandleOne(fast, Handle(fast, START, before), last);
      BatchSplits(fast, START, AllRaws(before), Raws(last));
    }
  }

  lemma NothingHandled(fast: bool)
    ensures Handle(fast, START, []) == START == Batch(fast, START, [])
  {
  }

  /** However the reader cuts its stream: what it has passed on makes the world of everything
      it has handled, less the items, if no item takes over an id in use. */
  lemma HandledWorld(units: seq<Unit>)
    requires AllConsistent(AllRaws(units))
    requires forall k :: 0 <= k < |AllRaws(units)| ==> !ReusesAt(AllRaws(units), k)
    ensures Filtered(Handle(true, START, units).passed) == WithoutItems(Unfiltered(AllRaws(units)))
  {
    hide Batch, Handle, ReusesAt, AllConsistent, Unfiltered, Filtered, WithoutItems, AllRaws;
    HandleIsBatch(true, units);
    var raws := AllRaws(units);
    FilteringCommutes(raws);
    assert Agrees(raws, |raws|);
    assert raws[..|raws|] == raws;
  }
}
