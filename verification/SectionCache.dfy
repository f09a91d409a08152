/** The block cache of `BedrockAutoButton`: sections near the player, an empty array for
    "all air", and updates that wait until the registry says which id air has.

    The class refines a plain history of what the server gave: whatever was loaded,
    updated, pruned or forgotten, a read returns the last value given. */
module SectionCache {
  import opened VarInt
  import opened Wrappers
  import opened Subchunk

  /** A block position, or a section position counted in units of 16 blocks. */
  datatype Pos = Pos(x: int, y: int, z: int)

  function Chunk(p: Pos): Pos {
    Pos(p.x / 16, p.y / 16, p.z / 16)
  }

  /** Where a block stands in its section's array: x first, then z, then y. */
  function Index(p: Pos): (i: nat)
    ensures i < BLOCKS
  {
    p.x % 16 * 256 + p.z % 16 * 16 + p.y % 16
  }

  /** The block at an index of a section. */
  function PosAt(id: Pos, i: nat): Pos {
    Pos(id.x * 16 + i / 256, id.y * 16 + i % 16, id.z * 16 + i / 16 % 16)
  }

  lemma PlaceOfPos(p: Pos)
    ensures PosAt(Chunk(p), Index(p)) == p
  {
    IndexDigits(p.x % 16, p.z % 16, p.y % 16);
  }

  lemma IndexDigits(x: nat, z: nat, y: nat)
    requires x < 16 && z < 16 && y < 16
    ensures var i := x * 256 + z * 16 + y; i / 256 == x && i / 16 % 16 == z && i % 16 == y
  {
    var i := x * 256 + z * 16 + y;
    assert i / 16 == x * 16 + z;
  }

  lemma PosOfPlace(id: Pos, i: nat)
    requires i < BLOCKS
    ensures Chunk(PosAt(id, i)) == id && Index(PosAt(id, i)) == i
  {
    assert i == i / 256 * 256 + i / 16 % 16 * 16 + i % 16 by {
      assert i / 256 == i / 16 / 16;
    }
  }

  // ---------------------------------------------------------------- what the server gave

  /** What the server said about a block: explicitly air, or a runtime id. */
  datatype Cell = Air | Block(id: U32)

  datatype Given =
    | Loaded(section: Pos, cells: seq<Cell>)
    | Updated(position: Pos, id: U32)
    | Kept(sections: set<Pos>)  // everything else is forgotten

  ghost predicate WellFormed(history: seq<Given>) {
    forall k :: 0 <= k < |history| && history[k].Loaded? ==> |history[k].cells| == BLOCKS
  }

  /** The last value given for `p` since its section was loaded, if it is still held. */
  ghost function LastGiven(history: seq<Given>, p: Pos): Option<Cell>
    requires WellFormed(history)
    decreases |history|
  {
    if history == [] then None
    else
      var before := LastGiven(history[..|history| - 1], p);
      match history[|history| - 1]
      case Loaded(section, cells) => if section == Chunk(p) then Some(cells[Index(p)]) else before
      case Updated(position, id) => if position == p && before.Some? then Some(Block(id)) else before
      case Kept(sections) => if Chunk(p) in sections then before else None
  }

  /** The same as a plain map from positions to cells. */
  type World = map<Pos, seq<Cell>>

  function PlainStep(world: World, given: Given): World {
    match given
    case Loaded(section, cells) => world[section := cells]
    case Updated(position, id) =>
      var section := Chunk(position);
      if section in world && |world[section]| == BLOCKS
      then world[section := world[section][Index(position) := Block(id)]]
      else world
    case Kept(sections) => map s | s in world && s in sections :: world[s]
  }

  ghost function PlainRun(history: seq<Given>): World {
    if history == [] then map[]
    else PlainStep(PlainRun(history[..|history| - 1]), history[|history| - 1])
  }

  ghost predicate FullSections(world: World) {
    forall s :: s in world ==> |world[s]| == BLOCKS
  }

  /** The plain map holds, for every position, the last value the server gave. */
  lemma {:induction false} PlainRunIsLastGiven(history: seq<Given>, p: Pos)
    requires WellFormed(history)
    ensures FullSections(PlainRun(history))
    ensures LastGiven(history, p) ==
            if Chunk(p) in PlainRun(history) then Some(PlainRun(history)[Chunk(p)][Index(p)]) else None
    decreases |history|
  {
    if history != [] {
      var front, last := history[..|history| - 1], history[|history| - 1];
      PlainRunIsLastGiven(front, p);
      if last.Updated? {
        PlaceOfPos(p);
        PlaceOfPos(last.position);
      }
    }
  }

  lemma PlainRunNext(history: seq<Given>, given: Given)
    ensures PlainRun(history + [given]) == PlainStep(PlainRun(history), given)
    ensures WellFormed(history) && (given.Loaded? ==> |given.cells| == BLOCKS) ==> WellFormed(history + [given])
  {
    assert (history + [given])[..|history|] == history;
  }

  /** The runtime id a cell stands for, once the registry knows the id of air. */
  function Resolve(cell: Cell, air: U32): U32 {
    if cell.Air? then air else cell.id
  }

  function CellsOf(blocks: seq<U32>): (cells: seq<Cell>)
    requires |blocks| == 0 || |blocks| == BLOCKS
    ensures |cells| == BLOCKS
  {
    if |blocks| == 0 then seq(BLOCKS, _ => Air) else seq(BLOCKS, i requires 0 <= i < BLOCKS => Block(blocks[i]))
  }

  // ---------------------------------------------------------------- packets

  datatype Mode = Off | Left | Right

  /** `entry.result` with its payload; anything but the first two is skipped. */
  datatype EntryResult = AllAir | Payload(bytes: seq<Byte>) | Unusable

  datatype Entry = Entry(dx: int, dy: int, dz: int, result: EntryResult)

  datatype SubchunkPacket = SubchunkPacket(cacheEnabled: bool, dimension: int, origin: Pos, entries: seq<Entry>)

  datatype LevelChunkPacket =
    LevelChunkPacket(cacheEnabled: bool, dimension: Option<int>, x: int, z: int, count: int, payload: seq<Byte>)

  function Near(d: int): bool {
    -1 <= d <= 1
  }

  /** `view` is the section the player stands in, if known. */
  function Nearby(p: Pos, view: Option<Pos>): bool {
    view.Some? && Near(p.x - view.value.x) && Near(p.y - view.value.y) && Near(p.z - view.value.z)
  }

  /** A decoded section with its place. */
  datatype Placed = Placed(section: Pos, blocks: seq<U32>)

  /** Where the `i`-th section of a level chunk belongs. */
  function PlaceOf(packet: LevelChunkPacket, dimension: int, i: nat, decoded: Decoded): Pos {
    var y := match decoded.y
             case Some(y) => y
             case None => i + (if dimension == 0 then -4 else 0);
    Pos(packet.x, y, packet.z)
  }

  /** The sections of a level chunk that are near the player, in order. */
  ghost function PlacedNearby(packet: LevelChunkPacket, dimension: int, view: Option<Pos>,
                              decoded: seq<Decoded>): (placed: seq<Placed>)
    requires forall i :: 0 <= i < |decoded| ==> |decoded[i].blocks| == 0 || |decoded[i].blocks| == BLOCKS
    ensures forall k :: 0 <= k < |placed| ==> |placed[k].blocks| == 0 || |placed[k].blocks| == BLOCKS
    decreases |decoded|
  {
    if decoded == [] then []
    else
      var i := |decoded| - 1;
      var place := PlaceOf(packet, dimension, i, decoded[i]);
      PlacedNearby(packet, dimension, view, decoded[..i])
      + (if Nearby(place, view) then [Placed(place, decoded[i].blocks)] else [])
  }

  ghost function Loads(placed: seq<Placed>): (history: seq<Given>)
    requires forall k :: 0 <= k < |placed| ==> |placed[k].blocks| == 0 || |placed[k].blocks| == BLOCKS
  {
    seq(|placed|, k requires 0 <= k < |placed| => Loaded(placed[k].section, CellsOf(placed[k].blocks)))
  }

  function Places(placed: seq<Placed>): set<Pos> {
    set k | 0 <= k < |placed| :: placed[k].section
  }

  lemma NoLoads()
    ensures Loads([]) == [] && Places([]) == {}
  {
  }

  lemma LoadsNext(placed: seq<Placed>, k: nat)
    requires forall j :: 0 <= j < |placed| ==> |placed[j].blocks| == 0 || |placed[j].blocks| == BLOCKS
    requires k < |placed|
    ensures Loads(placed[..k + 1]) == Loads(placed[..k]) + [Loaded(placed[k].section, CellsOf(placed[k].blocks))]
    ensures Places(placed[..k + 1]) == Places(placed[..k]) + {placed[k].section}
  {
    hide CellsOf;
    var before, after := placed[..k], placed[..k + 1];
    forall s | s in Places(before) ensures s in Places(after) {
      var j :| 0 <= j < k && before[j].section == s;
      assert after[j].section == s;
    }
    forall s | s in Places(after) && s != placed[k].section ensures s in Places(before) {
      var j :| 0 <= j < k + 1 && after[j].section == s;
      assert before[j].section == s;
    }
    assert after[k] == placed[k];
  }

  /** What an accepted level chunk gives to a cache that holds the sections `held`. */
  ghost function LevelChunkGiven(placed: seq<Placed>, held: set<Pos>, view: Option<Pos>): seq<Given>
    requires forall k :: 0 <= k < |placed| ==> |placed[k].blocks| == 0 || |placed[k].blocks| == BLOCKS
  {
    Loads(placed) + [Kept(set s | s in held + Places(placed) && Nearby(s, view))]
  }

  /** The array an answer to a subchunk request carries, if it is usable. */
  ghost function AnswerBlocks(result: EntryResult): (r: Option<seq<U32>>)
    ensures r.Some? ==> |r.value| == 0 || |r.value| == BLOCKS
  {
    match result
    case AllAir => Some([])
    case Payload(bytes) =>
      if |bytes| > MAX_PAYLOAD then None
      else
        var decoded := Decode(bytes);
        if decoded.Ok? then Some(decoded.value.blocks) else None
    case Unusable => None
  }

  function EntryPlace(packet: SubchunkPacket, entry: Entry): Pos {
    Pos(packet.origin.x + entry.dx, packet.origin.y + entry.dy, packet.origin.z + entry.dz)
  }

  /** An entry counts if it is near, still asked for and usable. */
  ghost predicate Answers(packet: SubchunkPacket, entry: Entry, view: Option<Pos>, asked: set<Pos>) {
    && Nearby(EntryPlace(packet, entry), view)
    && EntryPlace(packet, entry) in asked
    && AnswerBlocks(entry.result).Some?
  }

  /** What the entries give from the `i`-th on, while `asked` is still pending. */
  ghost function SubchunkGiven(packet: SubchunkPacket, i: nat, view: Option<Pos>,
                               asked: set<Pos>): (history: seq<Given>)
    ensures WellFormed(history)
    decreases |packet.entries| - i
  {
    if i >= |packet.entries| || i >= MAX_ENTRIES then []
    else
      var entry := packet.entries[i];
      var place := EntryPlace(packet, entry);
      if Answers(packet, entry, view, asked)
      then
        [Loaded(place, CellsOf(AnswerBlocks(entry.result).value))]
        + SubchunkGiven(packet, i + 1, view, asked - {place})
      else SubchunkGiven(packet, i + 1, view, asked)
  }

  /** The packet is addressed to this cache at all. */
  predicate Applies(packet: LevelChunkPacket, dimension: int, view: Option<Pos>) {
    && !packet.cacheEnabled
    && (packet.dimension.Some? ==> packet.dimension.value == dimension)
    && 0 <= packet.count <= 24
    && view.Some? && Near(packet.x - view.value.x) && Near(packet.z - view.value.z)
  }

  const MAX_DEFERRED := 1024
  const MAX_ENTRIES := 256
  const MAX_PAYLOAD := 256_000
  const RETRY_AFTER := 2000

  datatype Event =
    | StartGame(dimension: int, airId: U32)
    | SetMode(mode: Mode)
    | ItemRegistry
    | DimensionReset(dimension: int)
    | LevelChunk(packet: LevelChunkPacket, view: Option<Pos>)
    | Subchunks(answer: SubchunkPacket, view: Option<Pos>)
    | UpdateBlock(position: Pos, layer: int, id: Option<int>)
    | Tick(center: Pos, now: int)

  // ---------------------------------------------------------------- representation

  /** The array `blocks` stands for the cells the server gave: an empty one is air except
      where an update is deferred, a full one holds the ids themselves. */
  ghost predicate Represents(registry: bool, air: U32, updates: map<Pos, int>, id: Pos, blocks: seq<U32>,
                             cells: seq<Cell>) {
    && |cells| == BLOCKS
    && (|blocks| == 0 || |blocks| == BLOCKS)
    && (forall i :: 0 <= i < BLOCKS ==>
          if |blocks| == 0 then cells[i] == Deferred(updates, PosAt(id, i))
          else if cells[i].Air? then registry && blocks[i] == air
          else blocks[i] == cells[i].id)
  }

  ghost function Deferred(updates: map<Pos, int>, p: Pos): Cell {
    if p in updates then Block(ToU32(updates[p])) else Air
  }

  ghost predicate Refines(registry: bool, air: U32, updates: map<Pos, int>, sections: map<Pos, seq<U32>>,
                          world: World) {
    && sections.Keys == world.Keys
    && (forall id :: id in sections ==> Represents(registry, air, updates, id, sections[id], world[id]))
    && (forall p :: p in updates && Chunk(p) in sections ==> sections[Chunk(p)] == [])
  }

  function Without(updates: map<Pos, int>, id: Pos): map<Pos, int> {
    map p | p in updates && Chunk(p) != id :: updates[p]
  }

  /** The same updates as far as another section is concerned. */
  lemma OtherUpdates(registry: bool, air: U32, updates: map<Pos, int>, updates': map<Pos, int>,
                     id: Pos, blocks: seq<U32>, cells: seq<Cell>)
    requires Represents(registry, air, updates, id, blocks, cells)
    requires forall p :: Chunk(p) == id ==> (p in updates <==> p in updates')
    requires forall p :: Chunk(p) == id && p in updates ==> updates[p] == updates'[p]
    ensures Represents(registry, air, updates', id, blocks, cells)
  {
    forall i | 0 <= i < BLOCKS ensures Deferred(updates, PosAt(id, i)) == Deferred(updates', PosAt(id, i)) {
      PosOfPlace(id, i);
    }
  }

  lemma LoadedIsRepresented(registry: bool, air: U32, updates: map<Pos, int>, id: Pos, blocks: seq<U32>)
    requires |blocks| == 0 || |blocks| == BLOCKS
    ensures Represents(registry, air, Without(updates, id), id, blocks, CellsOf(blocks))
  {
    forall i | 0 <= i < BLOCKS ensures PosAt(id, i) !in Without(updates, id) {
      PosOfPlace(id, i);
    }
  }

  /** A loaded section replaces everything known about it, deferred updates included. */
  lemma LoadRefines(registry: bool, air: U32, updates: map<Pos, int>, sections: map<Pos, seq<U32>>, world: World,
                    id: Pos, blocks: seq<U32>)
    requires Refines(registry, air, updates, sections, world)
    requires |blocks| == 0 || |blocks| == BLOCKS
    ensures Refines(registry, air, Without(updates, id), sections[id := blocks], world[id := CellsOf(blocks)])
  {
    hide Represents;
    LoadedIsRepresented(registry, air, updates, id, blocks);
    forall s | s in sections && s != id
      ensures Represents(registry, air, Without(updates, id), s, sections[s], world[s])
    {
      OtherUpdates(registry, air, updates, Without(updates, id), s, sections[s], world[s]);
    }
  }

  /** Likewise for an explicit all-air answer, whose array is filled at once. */
  lemma LoadAirRefines(air: U32, sections: map<Pos, seq<U32>>, world: World, id: Pos)
    requires Refines(true, air, map[], sections, world)
    ensures Refines(true, air, map[], sections[id := seq(BLOCKS, _ => air)], world[id := CellsOf([])])
  {
  }

  lemma KeepRefines(registry: bool, air: U32, updates: map<Pos, int>, sections: map<Pos, seq<U32>>, world: World,
                    kept: set<Pos>)
    requires Refines(registry, air, updates, sections, world)
    ensures Refines(registry, air, updates, map s | s in sections
                    && s in kept :: sections[s], PlainStep(world, Kept(kept)))
  {
    hide Represents;
  }

  lemma ForgetRefines(registry: bool, air: U32, world: World)
    ensures Refines(registry, air, map[], map[], PlainStep(world, Kept({})))
  {
  }

  lemma EmptyRefines(registry: bool, air: U32, world: World)
    requires Refines(registry, air, map[], map[], world)
    ensures Refines(false, air, map[], map[], world)
  {
  }

  /** A full array, or an all-air one once air has an id. */
  function Materialized(air: U32, blocks: seq<U32>): seq<U32> {
    if |blocks| == 0 then seq(BLOCKS, _ => air) else blocks
  }

  /** One id written into a held section. */
  function Written(air: U32, sections: map<Pos, seq<U32>>, p: Pos, id: U32): map<Pos, seq<U32>>
    requires Chunk(p) in sections
    requires |Materialized(air, sections[Chunk(p)])| == BLOCKS
  {
    sections[Chunk(p) := Materialized(air, sections[Chunk(p)])[Index(p) := id]]
  }

  lemma PutRepresented(registry: bool, air: U32, updates: map<Pos, int>, p: Pos, id: U32, blocks: seq<U32>,
                       cells: seq<Cell>)
    requires Represents(registry, air, updates, Chunk(p), blocks, cells)
    requires blocks == [] ==> registry && updates == map[]
    ensures Represents(registry, air, updates, Chunk(p), Materialized(air, blocks)[Index(p) := id],
                       cells[Index(p) := Block(id)])
  {
  }

  lemma PutRefines(registry: bool, air: U32, updates: map<Pos, int>, sections: map<Pos, seq<U32>>, world: World, p: Pos,
                   id: U32)
    requires Refines(registry, air, updates, sections, world)
    requires Chunk(p) in sections
    requires sections[Chunk(p)] == [] ==> registry && updates == map[]
    ensures |Materialized(air, sections[Chunk(p)])| == BLOCKS
    ensures Written(air, sections, p, id).Keys == sections.Keys
    ensures Refines(registry, air, updates, Written(air, sections, p, id), PlainStep(world, Updated(p, id)))
  {
    var section := Chunk(p);
    assert Represents(registry, air, updates, section, sections[section], world[section]);
    PutRepresented(registry, air, updates, p, id, sections[section], world[section]);
  }

  /** An update of an all-air section that has to wait for the registry. */
  lemma DeferRefines(air: U32, updates: map<Pos, int>, sections: map<Pos, seq<U32>>, world: World, p: Pos, id: int)
    requires Refines(false, air, updates, sections, world)
    requires Chunk(p) in sections && sections[Chunk(p)] == []
    ensures Refines(false, air, updates[p := id], sections, PlainStep(world, Updated(p, ToU32(id))))
  {
    var section := Chunk(p);
    var updates', world' := updates[p := id], PlainStep(world, Updated(p, ToU32(id)));
    assert Represents(false, air, updates, section, [], world[section]);
    PlaceOfPos(p);
    forall i | 0 <= i < BLOCKS
      ensures world'[section][i] == Deferred(updates', PosAt(section, i))
    {
      PosOfPlace(section, i);
    }
    forall s | s in sections && s != section
      ensures Represents(false, air, updates', s, sections[s], world'[s])
    {
      OtherUpdates(false, air, updates, updates', s, sections[s], world[s]);
    }
  }

  lemma UpdateElsewhereRefines(registry: bool, air: U32, updates: map<Pos, int>, sections: map<Pos, seq<U32>>,
                               world: World, p: Pos, id: U32)
    requires Refines(registry, air, updates, sections, world)
    requires Chunk(p) !in sections
    ensures PlainStep(world, Updated(p, id)) == world
  {
  }

  // ------------------------------------------------------------ writing deferred updates back

  /** Halfway through: updates in `done` are written, the others still wait. */
  ghost predicate Halfway(air: U32, updates: map<Pos, int>, done: set<Pos>, id: Pos, blocks: seq<U32>,
                          cells: seq<Cell>) {
    && |cells| == BLOCKS
    && (|blocks| == 0 || |blocks| == BLOCKS)
    && (forall i :: 0 <= i < BLOCKS ==>
          var p := PosAt(id, i);
          && (p in updates ==> cells[i] == Block(ToU32(updates[p])))
          && (|blocks| == 0 ==> p !in done && (p !in updates ==> cells[i] == Air))
          && (|blocks| == BLOCKS ==> blocks[i] == Resolve(cells[i], air) || (p in updates && p !in done)))
  }

  ghost predicate AllHalfway(air: U32, updates: map<Pos, int>, done: set<Pos>, sections: map<Pos, seq<U32>>,
                             world: World) {
    && sections.Keys == world.Keys
    && forall id :: id in sections ==> Halfway(air, updates, done, id, sections[id], world[id])
  }

  lemma StartWritingBack(registry: bool, oldAir: U32, air: U32, updates: map<Pos, int>, sections: map<Pos, seq<U32>>,
                         world: World)
    requires Refines(registry, oldAir, updates, sections, world)
    requires registry ==> air == oldAir
    ensures AllHalfway(air, updates, {}, sections, world)
  {
    forall id | id in sections
      ensures Halfway(air, updates, {}, id, sections[id], world[id])
    {
      assert Represents(registry, oldAir, updates, id, sections[id], world[id]);
      forall i | 0 <= i < BLOCKS && PosAt(id, i) in updates
        ensures sections[id] == []
      {
        PosOfPlace(id, i);
      }
    }
  }

  lemma WriteBackSection(air: U32, updates: map<Pos, int>, done: set<Pos>, p: Pos, blocks: seq<U32>, cells: seq<Cell>)
    requires Halfway(air, updates, done, Chunk(p), blocks, cells)
    requires p in updates
    ensures Halfway(air, updates, done + {p}, Chunk(p), Materialized(air, blocks)[Index(p) := ToU32(updates[p])], cells)
  {
    PlaceOfPos(p);
    forall i | 0 <= i < BLOCKS && PosAt(Chunk(p), i) == p ensures i == Index(p) {
      PosOfPlace(Chunk(p), i);
    }
  }

  lemma WriteBack(air: U32, updates: map<Pos, int>, done: set<Pos>, sections: map<Pos, seq<U32>>, world: World, p: Pos)
    requires AllHalfway(air, updates, done, sections, world)
    requires p in updates
    ensures Chunk(p) !in sections ==> AllHalfway(air, updates, done + {p}, sections, world)
    ensures Chunk(p) in sections ==>
              && |Materialized(air, sections[Chunk(p)])| == BLOCKS
              && AllHalfway(air, updates, done + {p}, Written(air, sections, p, ToU32(updates[p])), world)
              && Written(air, sections, p, ToU32(updates[p])).Keys == sections.Keys
  {
    forall id | id in sections && id != Chunk(p)
      ensures Halfway(air, updates, done + {p}, id, sections[id], world[id])
    {
      forall i | 0 <= i < BLOCKS ensures PosAt(id, i) != p {
        PosOfPlace(id, i);
      }
    }
    if Chunk(p) in sections {
      assert Halfway(air, updates, done, Chunk(p), sections[Chunk(p)], world[Chunk(p)]);
      WriteBackSection(air, updates, done, p, sections[Chunk(p)], world[Chunk(p)]);
    }
  }

  lemma DoneWritingBack(air: U32, updates: map<Pos, int>, sections: map<Pos, seq<U32>>, world: World)
    requires AllHalfway(air, updates, updates.Keys, sections, world)
    ensures Refines(true, air, map[], sections, world)
  {
    forall id | id in sections
      ensures Represents(true, air, map[], id, sections[id], world[id])
    {
      assert Halfway(air, updates, updates.Keys, id, sections[id], world[id]);
    }
  }

  // ---------------------------------------------------------------- requests

  /** A section the next request may ask for. */
  predicate IsMissing(p: Pos, center: Pos, now: int, held: set<Pos>, asked: map<Pos, int>) {
    && Nearby(p, Some(center)) && -4 <= p.y <= 19
    && p !in held
    && (p in asked ==> now - asked[p] >= RETRY_AFTER)
  }

  /** `p` comes before the offset (x, z, y) in the order of the three loops. */
  predicate Precedes(p: Pos, center: Pos, x: int, z: int, y: int) {
    var dx, dz, dy := p.x - center.x, p.z - center.z, p.y - center.y;
    dx < x || (dx == x && (dz < z || (dz == z && dy < y)))
  }

  /** The loops of `requestSections`. */
  method MissingAround(center: Pos, now: int, held: set<Pos>, asked: map<Pos, int>) returns (requests: set<Pos>)
    ensures forall p :: p in requests <==> IsMissing(p, center, now, held, asked)
  {
    requests := {};
    for x := -1 to 2
      invariant forall p :: p in requests <==> IsMissing(p, center, now, held, asked) && Precedes(p, center, x, -1, -1)
    {
      for z := -1 to 2
        invariant forall p :: p in requests <==> IsMissing(p, center, now, held, asked) && Precedes(p, center, x, z, -1)
      {
        for y := -1 to 2
          invariant forall p :: p in requests <==>
                      IsMissing(p, center, now, held, asked) && Precedes(p, center, x, z, y)
        {
          var p := Pos(center.x + x, center.y + y, center.z + z);
          if -4 <= p.y <= 19 && p !in held && (p in asked ==> now - asked[p] >= RETRY_AFTER) {
            requests := requests + {p};
          }
        }
      }
    }
  }

  // ---------------------------------------------------------------- what is held, and what is given

  /** What the cache keeps apart from block ids: the sections it holds, those among them that
      are empty arrays, where updates wait, and what it has asked for. */
  datatype Control = Control(mode: Mode, registry: bool, startAir: Option<U32>, dimension: int,
                             held: set<Pos>, lazy: set<Pos>, deferred: set<Pos>, asked: map<Pos, int>)

  const FRESH := Control(Off, false, None, 0, {}, {}, {}, map[])

  ghost function Emptied(c: Control): Control {
    c.(held := {}, lazy := {}, deferred := {})
  }

  function Chunks(positions: set<Pos>): set<Pos> {
    set p | p in positions :: Chunk(p)
  }

  /** The registry is known: every section with a waiting update gets a full array. */
  ghost function Initialized(c: Control): Control {
    c.(registry := true, lazy := c.lazy - Chunks(c.deferred), deferred := {})
  }

  ghost function Configured(c: Control, mode: Mode): Control {
    if mode == c.mode then c
    else if mode == Off then c.(mode := mode, asked := map[])
    else if !c.registry && c.startAir.Some? then Initialized(c.(mode := mode))
    else c.(mode := mode)
  }

  ghost function WithLoaded(c: Control, section: Pos, empty: bool): Control {
    c.(held := c.held + {section}, lazy := if empty then c.lazy + {section} else c.lazy - {section},
       deferred := (set p | p in c.deferred && Chunk(p) != section), asked := c.asked - {section})
  }

  ghost function WithAllLoaded(c: Control, placed: seq<Placed>): Control
    decreases |placed|
  {
    if placed == [] then c
    else
      var last := placed[|placed| - 1];
      WithLoaded(WithAllLoaded(c, placed[..|placed| - 1]), last.section, last.blocks == [])
  }

  ghost function Pruned(c: Control, view: Option<Pos>): Control {
    c.(held := (set s | s in c.held && Nearby(s, view)), lazy := (set s | s in c.lazy && Nearby(s, view)))
  }

  /** The sections of a level chunk that reach the cache, if the packet is taken. */
  ghost function Arriving(c: Control, packet: LevelChunkPacket, view: Option<Pos>): (placed: Option<seq<Placed>>)
    ensures placed.Some? ==> forall k :: 0 <= k < |placed.value| ==>
              |placed.value[k].blocks| == 0 || |placed.value[k].blocks| == BLOCKS
  {
    if !Applies(packet, c.dimension, view) then None
    else
      var decoded := DecodeMany(packet.payload, 0, packet.count);
      if decoded.Err? then None else Some(PlacedNearby(packet, c.dimension, view, decoded.value))
  }

  predicate TakesAnswers(c: Control, answer: SubchunkPacket) {
    c.mode != Off && c.registry && !answer.cacheEnabled && answer.dimension == c.dimension
  }

  ghost function Answered(c: Control, packet: SubchunkPacket, i: nat, view: Option<Pos>): Control
    decreases |packet.entries| - i
  {
    if i >= |packet.entries| || i >= MAX_ENTRIES then c
    else
      var entry := packet.entries[i];
      var place := EntryPlace(packet, entry);
      if Answers(packet, entry, view, c.asked.Keys)
      then Answered(WithLoaded(c, place, !entry.result.AllAir? && AnswerBlocks(entry.result).value == []), packet,
                    i + 1, view)
      else Answered(c, packet, i + 1, view)
  }

  /** An update of an empty array has to wait until the id of air is known. */
  ghost predicate Waits(c: Control, position: Pos) {
    Chunk(position) in c.lazy && !c.registry
  }

  /** One waiting update too many: the cache forgets everything rather than guess. */
  ghost predicate Overflows(c: Control, position: Pos) {
    Waits(c, position) && |c.deferred + {position}| > MAX_DEFERRED
  }

  ghost function WithUpdate(c: Control, position: Pos): Control {
    if Overflows(c, position) then Emptied(c)
    else if Waits(c, position) then c.(deferred := c.deferred + {position})
    else c.(lazy := c.lazy - {Chunk(position)})
  }

  const OFFSETS := {-1, 0, 1}

  ghost function Around(center: Pos): set<Pos> {
    set x, y, z | x in OFFSETS && y in OFFSETS && z in OFFSETS :: Pos(center.x + x, center.y + y, center.z + z)
  }

  ghost function Missing(center: Pos, now: int, held: set<Pos>, asked: map<Pos, int>): set<Pos> {
    set p | p in Around(center) && IsMissing(p, center, now, held, asked)
  }

  function AskedNear(asked: map<Pos, int>, center: Pos): map<Pos, int> {
    map p | p in asked && Nearby(p, Some(center)) :: asked[p]
  }

  ghost function Requested(c: Control, center: Pos, now: int): Control {
    var near, asked := Pruned(c, Some(center)), AskedNear(c.asked, center);
    near.(asked := asked + map p | p in Missing(center, now, near.held, asked) :: now)
  }

  ghost function After(c: Control, e: Event): Control {
    match e
    case StartGame(dimension, airId) =>
      var c1 := Emptied(c).(dimension := dimension, asked := map[], startAir := Some(airId), registry := false);
      if c.mode != Off then Initialized(c1) else c1
    case SetMode(mode) => Configured(c, mode)
    case ItemRegistry => if c.registry then Initialized(c) else c
    case DimensionReset(dimension) => Emptied(c).(dimension := dimension, asked := map[])
    case LevelChunk(packet, view) =>
      var placed := Arriving(c, packet, view);
      if placed.None? then c else Pruned(WithAllLoaded(c, placed.value), view)
    case Subchunks(answer, view) => if TakesAnswers(c, answer) then Answered(c, answer, 0, view) else c
    case UpdateBlock(position, layer, id) => if layer != 0 || id.None? then c else WithUpdate(c, position)
    case Tick(center, now) => Requested(c, center, now)
  }

  /** What an event gives to the cache, and what it makes it forget. */
  ghost function Gave(c: Control, e: Event): seq<Given> {
    match e
    case StartGame(_, _) => [Kept({})]
    case SetMode(_) => []
    case ItemRegistry => []
    case DimensionReset(_) => [Kept({})]
    case LevelChunk(packet, view) =>
      var placed := Arriving(c, packet, view);
      if placed.None? then [] else LevelChunkGiven(placed.value, c.held, view)
    case Subchunks(answer, view) => if TakesAnswers(c, answer) then SubchunkGiven(answer, 0, view, c.asked.Keys) else []
    case UpdateBlock(position, layer, id) =>
      if layer != 0 || id.None? then []
      else [Updated(position, ToU32(id.value))] + if Overflows(c, position) then [Kept({})] else []
    case Tick(center, now) => [Kept(Pruned(c, Some(center)).held)]
  }

  ghost function AfterAll(c: Control, events: seq<Event>): Control
    decreases |events|
  {
    if events == [] then c else After(AfterAll(c, events[..|events| - 1]), events[|events| - 1])
  }

  lemma NearIsAround(p: Pos, center: Pos)
    requires Nearby(p, Some(center))
    ensures p in Around(center)
  {
    var x, y, z := p.x - center.x, p.y - center.y, p.z - center.z;
    assert x in OFFSETS && y in OFFSETS && z in OFFSETS;
    assert p == Pos(center.x + x, center.y + y, center.z + z);
  }

  lemma MissingIsNear(p: Pos, center: Pos, now: int, held: set<Pos>, asked: map<Pos, int>)
    ensures IsMissing(p, center, now, held, asked) ==> Nearby(p, Some(center))
    ensures IsMissing(p, center, now, held, asked) <==> IsMissing(p, center, now, held, AskedNear(asked, center))
  {
  }

  lemma AllMissing(center: Pos, now: int, held: set<Pos>, asked: map<Pos, int>, requests: set<Pos>)
    requires forall p :: p in requests <==> IsMissing(p, center, now, held, AskedNear(asked, center))
    ensures requests == Missing(center, now, held, AskedNear(asked, center))
    ensures forall p :: p in requests <==> IsMissing(p, center, now, held, asked)
  {
    hide IsMissing, Nearby, Around, AskedNear;
    forall p ensures p in requests <==> IsMissing(p, center, now, held, asked) {
      MissingIsNear(p, center, now, held, asked);
    }
    forall p | p in requests ensures p in Around(center) {
      MissingIsNear(p, center, now, held, asked);
      NearIsAround(p, center);
    }
  }

  lemma AllLoadedNext(c: Control, placed: seq<Placed>, k: nat)
    requires k < |placed|
    ensures WithAllLoaded(c, placed[..k + 1]) ==
              WithLoaded(WithAllLoaded(c, placed[..k]), placed[k].section, placed[k].blocks == [])
  {
    hide WithLoaded;
    assert placed[..k + 1][..k] == placed[..k];
  }

  lemma WaitingUpdate(c: Control, position: Pos, id: int)
    requires Waits(c, position)
    ensures var e := UpdateBlock(position, 0, Some(id));
            if |c.deferred + {position}| > MAX_DEFERRED
            then Gave(c, e) == [Updated(position, ToU32(id))] + [Kept({})] && After(c, e) == Emptied(c)
            else Gave(c, e) == [Updated(position, ToU32(id))] && After(c, e) == c.(deferred := c.deferred + {position})
  {
    hide Chunk;
  }

  lemma PlainUpdate(c: Control, position: Pos, layer: int, id: Option<int>)
    ensures var e := UpdateBlock(position, layer, id);
            if layer != 0 || id.None? then Gave(c, e) == [] && After(c, e) == c
            else !Waits(c, position) ==>
              Gave(c, e) == [Updated(position, ToU32(id.value))]
              && After(c, e) == c.(lazy := c.lazy - {Chunk(position)})
  {
    hide Chunk;
  }

  /** What a run of events gives to a cache. */
  ghost function GivenBy(c: Control, events: seq<Event>): seq<Given>
    decreases |events|
  {
    if events == [] then []
    else
      var before := events[..|events| - 1];
      GivenBy(c, before) + Gave(AfterAll(c, before), events[|events| - 1])
  }

  function Empty(sections: map<Pos, seq<U32>>): set<Pos> {
    set s | s in sections && sections[s] == []
  }

  lemma WrittenIsFull(air: U32, sections: map<Pos, seq<U32>>, p: Pos, id: U32)
    requires Chunk(p) in sections && |Materialized(air, sections[Chunk(p)])| == BLOCKS
    ensures Empty(Written(air, sections, p, id)) == Empty(sections) - {Chunk(p)}
  {
    hide Index;
  }

  lemma EmptyIsHeld(sections: map<Pos, seq<U32>>, section: Pos)
    ensures section in Empty(sections) <==> section in sections && sections[section] == []
  {
  }

  lemma LoadShows(sections: map<Pos, seq<U32>>, updates: map<Pos, int>, section: Pos, blocks: seq<U32>)
    ensures Empty(sections[section := blocks]) == if blocks == [] then Empty(sections) + {section}
                                                  else Empty(sections) - {section}
    ensures Without(updates, section).Keys == set p | p in updates.Keys && Chunk(p) != section
  {
    hide Chunk;
  }

  lemma NothingIsEmpty()
    ensures Empty(map[]) == {}
  {
  }

  lemma NoChunks()
    ensures Chunks({}) == {}
  {
  }

  lemma OneMoreWaits(updates: map<Pos, int>, p: Pos, id: int)
    ensures updates[p := id].Keys == updates.Keys + {p} && |updates[p := id]| == |updates.Keys + {p}|
  {
    assert updates[p := id].Keys == updates.Keys + {p};
  }

  lemma ChunksNext(done: set<Pos>, p: Pos)
    ensures Chunks(done + {p}) == Chunks(done) + {Chunk(p)}
  {
    hide Chunk;
  }

  // ---------------------------------------------------------------- the cache

  class BedrockAutoButton {
    var mode: Mode
    var registry: bool                // has `initializeRegistry` run for this game
    var startAir: Option<U32>         // the id of air under the start-game data, once received
    var air: U32
    var dimension: int
    var sections: map<Pos, seq<U32>>
    var airUpdates: map<Pos, int>
    var pending: map<Pos, int>
    ghost var history: seq<Given>     // what the server gave, and what was forgotten

    ghost predicate Valid()
      reads this
    {
      && WellFormed(history)
      && (registry ==> airUpdates == map[] && startAir == Some(air))
      && Refines(registry, air, airUpdates, sections, PlainRun(history))
    }

    ghost function View(): Control
      reads this
    {
      Control(mode, registry, startAir, dimension, sections.Keys, Empty(sections), airUpdates.Keys, pending)
    }

    constructor ()
      ensures Valid() && history == [] && View() == FRESH
    {
      mode, registry, startAir, air, dimension := Off, false, None, 0, 0;
      sections, airUpdates, pending, history := map[], map[], map[], [];
    }

    /** The lookup of `target`: unknown, or a runtime id. With a registry it is the last
        value the server gave since the section was loaded. */
    method Read(p: Pos) returns (r: Option<U32>)
      requires Valid()
      ensures r.Some? <==> LastGiven(history, p).Some?
      ensures registry && r.Some? ==> r.value == Resolve(LastGiven(history, p).value, air)
    {
      PlainRunIsLastGiven(history, p);
      PlaceOfPos(p);
      if Chunk(p) !in sections {
        return None;
      }
      var section := sections[Chunk(p)];
      assert Represents(registry, air, airUpdates, Chunk(p), section, PlainRun(history)[Chunk(p)]);
      return Some(if |section| != 0 then section[Index(p)] else air);
    }

    /** Books what the server gave. */
    ghost method Give(given: Given)
      requires given.Loaded? ==> |given.cells| == BLOCKS
      modifies this`history
      ensures history == old(history) + [given]
      ensures PlainRun(history) == PlainStep(old(PlainRun(history)), given)
      ensures old(WellFormed(history)) ==> WellFormed(history)
    {
      PlainRunNext(history, given);
      history := history + [given];
    }

    method Reset(newDimension: int)
      requires Valid()
      modifies this
      ensures Valid() && history == old(history) + [Kept({})]
      ensures sections == map[] && airUpdates == map[] && air == old(air)
      ensures View() == After(old(View()), DimensionReset(newDimension))
    {
      hide Refines, PlainStep, PlainRun, WellFormed;
      dimension := newDimension;
      sections, pending, airUpdates := map[], map[], map[];
      ForgetRefines(registry, air, PlainRun(history));
      Give(Kept({}));
    }

    method OnStartGame(newDimension: int, airId: U32)
      requires Valid()
      modifies this
      ensures Valid() && history == old(history) + [Kept({})]
      ensures View() == After(old(View()), StartGame(newDimension, airId))
    {
      hide Refines, PlainRun, WellFormed, Empty, Chunks;
      Reset(newDimension);
      EmptyRefines(registry, air, PlainRun(history));
      NoChunks();
      startAir, registry := Some(airId), false;
      if mode != Off {
        InitializeRegistry();
      }
    }

    method Configure(newMode: Mode)
      requires Valid()
      modifies this
      ensures Valid() && history == old(history)
      ensures View() == After(old(View()), SetMode(newMode))
    {
      if newMode == mode {
        return;
      }
      mode := newMode;
      if mode == Off {
        pending := map[];
      } else if !registry && startAir.Some? {
        InitializeRegistry();
      }
    }

    method OnItemRegistry()
      requires Valid()
      modifies this
      ensures Valid() && history == old(history)
      ensures View() == After(old(View()), ItemRegistry)
    {
      if registry {
        InitializeRegistry();
      }
    }

    /** Writes one id into a held section, materializing an all-air one. */
    method Put(p: Pos, id: U32)
      requires Chunk(p) in sections && |Materialized(air, sections[Chunk(p)])| == BLOCKS
      modifies this`sections
      ensures sections == old(Written(air, sections, p, id))
      ensures Empty(sections) == old(Empty(sections)) - {Chunk(p)}
    {
      WrittenIsFull(air, sections, p, id);
      var section := sections[Chunk(p)];
      if |section| == 0 {
        var fill := air;
        section := seq(BLOCKS, _ => fill);
      }
      sections := sections[Chunk(p) := section[Index(p) := id]];
    }

    /** Learns the id of air and replays the deferred updates, which changes no value. */
    method InitializeRegistry()
      requires Valid() && startAir.Some?
      modifies this`registry, this`air, this`sections, this`airUpdates
      ensures Valid() && View() == Initialized(old(View()))
    {
      hide Refines, AllHalfway, Materialized, Written, PlainRun, WellFormed, Chunk, Chunks, ToU32, Empty;
      ghost var world := PlainRun(history);
      NoChunks();
      StartWritingBack(registry, air, startAir.value, airUpdates, sections, world);
      registry, air := true, startAir.value;
      var done: set<Pos> := {};
      while done != airUpdates.Keys
        invariant done <= airUpdates.Keys
        invariant AllHalfway(air, airUpdates, done, sections, world)
        invariant sections.Keys == old(sections.Keys) && airUpdates == old(airUpdates)
        invariant Empty(sections) == old(Empty(sections)) - Chunks(done)
        invariant registry && startAir == Some(air) && history == old(history)
        decreases airUpdates.Keys - done
      {
        var p :| p in airUpdates.Keys && p !in done;
        WriteBack(air, airUpdates, done, sections, world, p);
        EmptyIsHeld(sections, Chunk(p));
        if Chunk(p) in sections {
          Put(p, ToU32(airUpdates[p]));
        }
        ChunksNext(done, p);
        done := done + {p};
      }
      DoneWritingBack(air, airUpdates, sections, world);
      airUpdates := map[];
    }

    method Forget()
      requires WellFormed(history) && (registry ==> startAir == Some(air))
      modifies this`sections, this`airUpdates, this`history
      ensures Valid() && history == old(history) + [Kept({})] && View() == Emptied(old(View()))
    {
      hide Refines, PlainStep, PlainRun, WellFormed, Empty;
      sections, airUpdates := map[], map[];
      NothingIsEmpty();
      ForgetRefines(registry, air, PlainRun(history));
      Give(Kept({}));
    }

    /** An update of an all-air section waits for the id of air; one too many, and the cache
        forgets everything. */
    method Defer(position: Pos, id: int)
      requires Valid() && !registry && Chunk(position) in sections && sections[Chunk(position)] == []
      modifies this`sections, this`airUpdates, this`history
      ensures Valid()
      ensures history == old(history) + Gave(old(View()), UpdateBlock(position, 0, Some(id)))
      ensures View() == After(old(View()), UpdateBlock(position, 0, Some(id)))
    {
      hide Refines, PlainStep, PlainRun, WellFormed, Chunk, ToU32, Empty, After, Gave;
      EmptyIsHeld(sections, Chunk(position));
      WaitingUpdate(View(), position, id);
      DeferRefines(air, airUpdates, sections, PlainRun(history), position, id);
      OneMoreWaits(airUpdates, position, id);
      airUpdates := airUpdates[position := id];
      Give(Updated(position, ToU32(id)));
      if |airUpdates| > MAX_DEFERRED {
        Forget();
      }
    }

    /** `id` is None for a runtime id that is no integer. */
    method OnUpdateBlock(position: Pos, layer: int, id: Option<int>)
      requires Valid()
      modifies this`sections, this`airUpdates, this`history
      ensures Valid()
      ensures history == old(history) + Gave(old(View()), UpdateBlock(position, layer, id))
      ensures View() == After(old(View()), UpdateBlock(position, layer, id))
    {
      hide Refines, Materialized, Written, PlainStep, PlainRun, WellFormed, Chunk, ToU32, Empty, After, Gave;
      PlainUpdate(View(), position, layer, id);
      if layer != 0 || id.None? {
        return;
      }
      var section := Chunk(position);
      EmptyIsHeld(sections, section);
      if section in sections && |sections[section]| == 0 && !registry {
        Defer(position, id.value);
      } else if section in sections {
        PutRefines(registry, air, airUpdates, sections, PlainRun(history), position, ToU32(id.value));
        Put(position, ToU32(id.value));
        Give(Updated(position, ToU32(id.value)));
      } else {
        UpdateElsewhereRefines(registry, air, airUpdates, sections, PlainRun(history), position, ToU32(id.value));
        Give(Updated(position, ToU32(id.value)));
      }
    }

    /** A level chunk replaces its sections and prunes the far ones, or changes nothing. */
    method OnLevelChunk(packet: LevelChunkPacket, view: Option<Pos>)
      requires Valid()
      modifies this`sections, this`airUpdates, this`pending, this`history
      ensures Valid()
      ensures history == old(history) + Gave(old(View()), LevelChunk(packet, view))
      ensures View() == After(old(View()), LevelChunk(packet, view))
    {
      hide Refines, PlainStep, PlainRun, WellFormed, Without, DecodeMany, Nearby, CellsOf, Loads, Places, Empty,
        WithAllLoaded, PlacedNearby;
      if !Applies(packet, dimension, view) {
        return;
      }
      var decoded := ReadSubchunks(packet.payload, packet.count);
      if decoded.Err? {
        return;
      }
      var placed := Place(packet, view, decoded.value);
      LoadAll(placed);
      Prune(view);
    }

    method LoadAll(placed: seq<Placed>)
      requires Valid()
      requires forall k :: 0 <= k < |placed| ==> |placed[k].blocks| == 0 || |placed[k].blocks| == BLOCKS
      modifies this`sections, this`airUpdates, this`pending, this`history
      ensures Valid()
      ensures history == old(history) + Loads(placed)
      ensures sections.Keys == old(sections.Keys) + Places(placed)
      ensures View() == WithAllLoaded(old(View()), placed)
    {
      hide Refines, PlainStep, PlainRun, WellFormed, Without, Nearby, CellsOf, Loads, Places, Empty, WithLoaded;
      NoLoads();
      for k := 0 to |placed|
        invariant Valid() && dimension == old(dimension) && registry == old(registry)
        invariant history == old(history) + Loads(placed[..k])
        invariant sections.Keys == old(sections.Keys) + Places(placed[..k])
        invariant View() == WithAllLoaded(old(View()), placed[..k])
      {
        var section, blocks := placed[k].section, placed[k].blocks;
        Load(section, blocks);
        LoadsNext(placed, k);
        AllLoadedNext(old(View()), placed, k);
      }
      assert placed[..|placed|] == placed && placed[..0] == [];
    }

    method Place(packet: LevelChunkPacket, view: Option<Pos>, decoded: seq<Decoded>) returns (placed: seq<Placed>)
      requires forall i :: 0 <= i < |decoded| ==> |decoded[i].blocks| == 0 || |decoded[i].blocks| == BLOCKS
      ensures placed == PlacedNearby(packet, dimension, view, decoded)
    {
      placed := [];
      for i := 0 to |decoded|
        invariant placed == PlacedNearby(packet, dimension, view, decoded[..i])
      {
        var place := PlaceOf(packet, dimension, i, decoded[i]);
        if Nearby(place, view) {
          placed := placed + [Placed(place, decoded[i].blocks)];
        }
        assert decoded[..i + 1][..i] == decoded[..i];
      }
      assert decoded[..|decoded|] == decoded;
    }

    method Load(section: Pos, blocks: seq<U32>)
      requires Valid()
      requires |blocks| == 0 || |blocks| == BLOCKS
      modifies this`sections, this`airUpdates, this`pending, this`history
      ensures Valid()
      ensures history == old(history) + [Loaded(section, CellsOf(blocks))]
      ensures sections == old(sections)[section := blocks]
      ensures pending == old(pending) - {section}
      ensures airUpdates == Without(old(airUpdates), section)
      ensures View() == WithLoaded(old(View()), section, blocks == [])
    {
      hide Refines, PlainRun, WellFormed, CellsOf, Without, Empty, Chunk;
      LoadShows(sections, airUpdates, section, blocks);
      LoadRefines(registry, air, airUpdates, sections, PlainRun(history), section, blocks);
      sections := sections[section := blocks];
      pending := pending - {section};
      airUpdates := Without(airUpdates, section);
      Give(Loaded(section, CellsOf(blocks)));
    }

    method Prune(view: Option<Pos>)
      requires Valid()
      modifies this`sections, this`history
      ensures Valid()
      ensures sections == map s | s in old(sections) && Nearby(s, view) :: old(sections)[s]
      ensures history == old(history) + [Kept(sections.Keys)] && View() == Pruned(old(View()), view)
    {
      hide Refines, PlainRun, WellFormed, Nearby;
      var kept := set s | s in sections && Nearby(s, view);
      KeepRefines(registry, air, airUpdates, sections, PlainRun(history), kept);
      sections := map s | s in sections && s in kept :: sections[s];
      Give(Kept(kept));
      assert sections.Keys == kept;
    }

    /** Answers to our own requests: each asked section is loaded at most once. */
    method OnSubchunk(packet: SubchunkPacket, view: Option<Pos>)
      requires Valid()
      modifies this`sections, this`airUpdates, this`pending, this`history
      ensures Valid()
      ensures history == old(history) + Gave(old(View()), Subchunks(packet, view))
      ensures View() == After(old(View()), Subchunks(packet, view))
    {
      hide Refines, PlainRun, WellFormed, Nearby, CellsOf, Decode;
      if mode == Off || !registry || packet.cacheEnabled || packet.dimension != dimension {
        return;
      }
      var i := 0;
      while i < |packet.entries| && i < MAX_ENTRIES
        invariant Valid() && registry && air == old(air)
        invariant history + SubchunkGiven(packet, i, view, pending.Keys) ==
                    old(history) + SubchunkGiven(packet, 0, view, old(pending.Keys))
        invariant Answered(View(), packet, i, view) == Answered(old(View()), packet, 0, view)
        decreases |packet.entries| - i
      {
        ghost var before, asked := history, pending.Keys;
        var loaded := OnEntry(EntryPlace(packet, packet.entries[i]), packet.entries[i].result, view);
        if loaded {
          var given := history[|before|];
          assert before + ([given] + SubchunkGiven(packet, i + 1, view, pending.Keys))
              == before + [given] + SubchunkGiven(packet, i + 1, view, pending.Keys);
        }
        i := i + 1;
      }
    }

    method OnEntry(place: Pos, result: EntryResult, view: Option<Pos>) returns (loaded: bool)
      requires Valid() && registry
      modifies this`sections, this`airUpdates, this`pending, this`history
      ensures Valid()
      ensures loaded <==> Nearby(place, view) && place in old(pending) && AnswerBlocks(result).Some?
      ensures loaded ==>
                && history == old(history) + [Loaded(place, CellsOf(AnswerBlocks(result).value))]
                && View() == WithLoaded(old(View()), place, !result.AllAir? && AnswerBlocks(result).value == [])
      ensures !loaded ==> history == old(history) && View() == old(View())
    {
      hide Refines, PlainRun, WellFormed, Nearby, CellsOf, Decode;
      if !Nearby(place, view) || place !in pending {
        return false;
      }
      match result
      case AllAir =>
        LoadAir(place);
        return true;
      case Payload(bytes) =>
        if |bytes| > MAX_PAYLOAD {
          return false;
        }
        var decoded := ReadSubchunk(bytes);
        if decoded.Err? {
          return false;
        }
        Load(place, decoded.value.blocks);
        return true;
      case Unusable =>
        return false;
    }

    method LoadAir(section: Pos)
      requires Valid() && registry
      modifies this`sections, this`pending, this`history
      ensures Valid()
      ensures history == old(history) + [Loaded(section, CellsOf([]))]
      ensures sections == old(sections)[section := seq(BLOCKS, _ => old(air))]
      ensures View() == WithLoaded(old(View()), section, false)
    {
      hide Refines, PlainRun, WellFormed, CellsOf;
      LoadAirRefines(air, sections, PlainRun(history), section);
      var fill := air;
      sections := sections[section := seq(BLOCKS, _ => fill)];
      pending := pending - {section};
      Give(Loaded(section, CellsOf([])));
    }

    /** Asks for every section around the player that is neither held nor freshly asked for. */
    method RequestSections(center: Pos, now: int) returns (requests: set<Pos>)
      requires Valid()
      modifies this`sections, this`pending, this`history
      ensures Valid() && history == old(history) + [Kept(sections.Keys)]
      ensures sections == map s | s in old(sections) && Nearby(s, Some(center)) :: old(sections)[s]
      ensures forall p :: p in requests <==> IsMissing(p, center, now, sections.Keys, old(pending))
      ensures View() == After(old(View()), Tick(center, now))
    {
      hide Refines, PlainRun, WellFormed, Nearby, IsMissing, Missing, Empty, AskedNear;
      Prune(Some(center));
      pending := AskedNear(pending, center);
      requests := MissingAround(center, now, sections.Keys, pending);
      AllMissing(center, now, sections.Keys, old(pending), requests);
      pending := pending + map p | p in requests :: now;
    }

    // ------------------------------------------------------------ every run

    /** Each event gives the cache what `Gave` says, and nothing else. */
    method Handle(event: Event)
      requires Valid()
      modifies this
      ensures Valid() && View() == After(old(View()), event)
      ensures history == old(history) + Gave(old(View()), event)
    {
      hide Refines, WellFormed, SubchunkGiven, LevelChunkGiven, Answered, WithAllLoaded, Initialized, Configured,
        WithUpdate, Arriving;
      match event
      case StartGame(newDimension, airId) => OnStartGame(newDimension, airId);
      case SetMode(newMode) => Configure(newMode);
      case ItemRegistry => OnItemRegistry();
      case DimensionReset(newDimension) => Reset(newDimension);
      case LevelChunk(packet, view) => OnLevelChunk(packet, view);
      case Subchunks(answer, view) => OnSubchunk(answer, view);
      case UpdateBlock(position, layer, id) => OnUpdateBlock(position, layer, id);
      case Tick(center, now) => var _ := RequestSections(center, now);
    }

    /** After any sequence of events a read gives the last value the server gave in them, or before. */
    method ReadAfter(events: seq<Event>, p: Pos) returns (r: Option<U32>)
      requires Valid()
      modifies this
      ensures Valid() && View() == AfterAll(old(View()), events)
      ensures history == old(history) + GivenBy(old(View()), events)
      ensures r.Some? <==> LastGiven(history, p).Some?
      ensures registry && r.Some? ==> r.value == Resolve(LastGiven(history, p).value, startAir.value)
    {
      hide Refines, WellFormed, LastGiven, After, Gave;
      assert events[..0] == [];
      for i := 0 to |events|
        invariant Valid() && View() == AfterAll(old(View()), events[..i])
        invariant history == old(history) + GivenBy(old(View()), events[..i])
      {
        Handle(events[i]);
        assert events[..i + 1][..i] == events[..i];
      }
      assert events[..|events|] == events;
      r := Read(p);
    }
  }
}
