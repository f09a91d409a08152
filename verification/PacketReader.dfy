/** The filter as an object, and the bounded reader that feeds it, update by update. */
module PacketReader {
  import opened Wrappers
  import opened PacketFilter

  const MAX_APPLIED := 256
  const MAX_SCANNED := 8192

  class ItemFilter {
    var ignored: set<int>
    var goodbye: bool
    ghost var passed: seq<Packet>

    ghost function View(): State
      reads this
    {
      State(ignored, passed, goodbye)
    }

    constructor ()
      ensures View() == START
    {
      ignored, goodbye, passed := {}, false, [];
    }

    /** Of the packets that can be decoded it skips just those that show an ignored entity, which
        decoding would keep back as well, with the same ids ignored afterwards. */
    function SkipRaw(raw: Raw): (skip: bool)
      reads this
      ensures Consistent(raw) && raw.decoded.Some? ==>
                (skip <==> raw.decoded.value.Show? && raw.decoded.value.id in ignored)
      ensures Consistent(raw) && raw.decoded.Some? && skip ==> Kept(ignored, raw.decoded.value) == (None, ignored)
    {
      Skipped(ignored, raw)
    }

    method RetainIds(ids: seq<int>) returns (rest: seq<int>)
      modifies this`ignored
      ensures rest == Retained(ids, old(ignored)) && ignored == Forgotten(ids, old(ignored))
    {
      rest := [];
      var i := 0;
      while i < |ids|
        invariant i <= |ids|
        invariant rest + Retained(ids[i..], ignored) == Retained(ids, old(ignored))
        invariant Forgotten(ids[i..], ignored) == Forgotten(ids, old(ignored))
      {
        if ids[i] in ignored {
          ignored := ignored - {ids[i]};
        } else {
          rest := rest + [ids[i]];
          assert ignored - {ids[i]} == ignored;
        }
        RetainNext(ids, i, ignored);
        i := i + 1;
      }
    }

    method Keep(p: Packet) returns (q: Option<Packet>)
      modifies this`ignored
      ensures (q, ignored) == Kept(old(ignored), p)
    {
      q := Some(p);
      match p
      case AddEntity(id, item, _) =>
        if item {
          ignored := ignored + {id};
          q := None;
        } else {
          ignored := ignored - {id};
        }
      case RemoveEntities(ids) =>
        var rest := RetainIds(ids);
        q := if rest == [] then None else Some(RemoveEntities(rest));
      case Show(_, id, _) =>
        if id in ignored {
          q := None;
        }
      case EntityEvent(id, _) =>
        if id in ignored {
          q := None;
        }
      case NewWorld => ignored := {};
      case Disconnect =>
      case Other(_) =>
    }

    /** A packet goes on to the game. */
    method PassOn(p: Packet)
      modifies this`passed, this`goodbye
      ensures View() == Pass(old(View()), ignored, Some(p))
    {
      passed := passed + [p];
      if p.Disconnect? {
        goodbye := true;
      }
    }

    method ProcessSinglePacket(raw: Raw) returns (result: Verdict)
      modifies this
      ensures (View(), result) == Single(true, old(View()), raw)
    {
      hide Kept;
      if raw.empty {
        return Dropped;
      }
      if raw.game {
        if raw.serverData || SkipRaw(raw) {
          return Dropped;
        }
        if raw.decoded.None? {
          return Malformed;
        }
        var q := Keep(raw.decoded.value);
        if q.None? {
          return Dropped;
        }
        PassOn(q.value);
      } else {
        ignored := {};
        if raw.decoded.None? {
          return Malformed;
        }
        PassOn(raw.decoded.value);
      }
      return Applied;
    }

    /** A frame: `counts` says whether it uses up the limit of the update. */
    method ProcessPacket(unit: Unit) returns (counts: bool)
      modifies this
      ensures View() == Batch(true, old(View()), Raws(unit))
      ensures counts <==> unit.Bad? || BatchCounts(true, old(View()), Raws(unit))
    {
      hide Single;
      counts := unit.Bad?;
      var raws := Raws(unit);
      ghost var before := View();
      var i := 0;
      while i < |raws|
        invariant i <= |raws| && View() == Batch(true, before, raws[..i])
        invariant counts <==> unit.Bad? || BatchCounts(true, before, raws[..i])
      {
        assert raws[..i + 1][..i] == raws[..i];
        var result := ProcessSinglePacket(raws[i]);
        if !result.Dropped? {
          counts := true;
        }
        i := i + 1;
      }
      assert raws[..i] == raws;
    }
  }

  lemma RetainNext(ids: seq<int>, i: nat, ignored: set<int>)
    requires i < |ids|
    ensures ids[i..][1..] == ids[i + 1..]
  {
  }

  /** What a read gives: a frame, an error in one, or the end of the connection. */
  datatype Read = Frame(unit: Unit) | Unreadable | Closed

  function Units(taken: seq<Read>): seq<Unit>
    decreases |taken|
  {
    if taken == [] then []
    else
      var last := taken[|taken| - 1];
      if last.Frame? then Units(taken[..|taken| - 1]) + [last.unit] else Units(taken[..|taken| - 1])
  }

  function Frames(units: seq<Unit>): (r: seq<Read>)
    ensures |r| == |units| && forall i :: 0 <= i < |r| ==> r[i] == Frame(units[i])
  {
    if units == [] then [] else [Frame(units[0])] + Frames(units[1..])
  }

  /** Every unit was handled before the server had said goodbye. */
  ghost predicate BeforeGoodbye(handled: seq<Unit>) {
    forall k :: 0 <= k < |handled| ==> !Handle(true, START, handled[..k]).goodbye
  }

  /** `n` reads may be taken from those ahead in one update: none of them but the last ends it. */
  predicate Within(ahead: seq<Read>, n: nat) {
    n <= |ahead| && n <= MAX_SCANNED && forall k :: 0 <= k < n - 1 ==> ahead[k].Frame? && !ahead[k].unit.Bad?
  }

  /** How many of these units use up the limit of an update that starts with `s`. */
  function Cost(s: State, units: seq<Unit>): nat
    decreases |units|
  {
    if units == [] then 0
    else
      var before, last := units[..|units| - 1], units[|units| - 1];
      Cost(s, before) + if Costs(Handle(true, s, before), last) then 1 else 0
  }

  predicate Costs(s: State, unit: Unit) {
    unit.Bad? || BatchCounts(true, s, Raws(unit))
  }

  class Connection {
    const filter: ItemFilter
    var connected: bool
    var injected: seq<Unit>
    var network: seq<Read>
    ghost var handled: seq<Unit>

    /** What is still to be read, in the order in which it will be. */
    ghost function Ahead(): seq<Read>
      reads this
    {
      Frames(injected) + network
    }

    /** The filter has handled just what was taken, in order, and stopped at the goodbye. */
    ghost predicate Valid()
      reads this, filter
    {
      filter.View() == Handle(true, START, handled) && BeforeGoodbye(handled)
    }

    constructor ()
      ensures Valid() && fresh(filter) && connected && handled == [] && Ahead() == []
    {
      filter := new ItemFilter();
      connected, injected, network, handled := true, [], [], [];
    }

    /** Packets from the server or from a plugin arrive between updates. */
    method Arrive(units: seq<Unit>, received: seq<Read>)
      requires Valid()
      modifies this`injected, this`network
      ensures Valid() && injected == old(injected) + units && network == old(network) + received
    {
      injected := injected + units;
      network := network + received;
    }

    method Next() returns (read: Read)
      requires Ahead() != []
      modifies this`injected, this`network
      ensures [read] + Ahead() == old(Ahead())
    {
      if injected != [] {
        read := Frame(injected[0]);
        injected := injected[1..];
      } else {
        read := network[0];
        network := network[1..];
      }
    }

    /** A frame is handled; the bundle collector's refusal ends the connection. */
    method Take(unit: Unit) returns (counts: bool)
      requires Valid() && !filter.goodbye
      modifies this`handled, this`connected, filter
      ensures Valid() && handled == old(handled) + [unit]
      ensures connected <==> old(connected) && !unit.Bad?
      ensures filter.View() == Handle(true, old(filter.View()), [unit]) && (counts <==> Costs(old(filter.View()), unit))
    {
      hide Batch, BatchCounts, Raws, Handle;
      counts := filter.ProcessPacket(unit);
      HandleSplits(true, START, handled, [unit]);
      HandleOne(true, Handle(true, START, handled), unit);
      OneMoreBefore(handled, unit);
      handled := handled + [unit];
      if unit.Bad? {
        connected := false;
      }
    }

    /** One update. `patience` is the number of reads after which its time is up. */
    method ReadPackets(patience: nat) returns (resume: bool, ghost n: nat)
      requires Valid() && connected
      modifies this, filter
      ensures Valid() && Within(old(Ahead()), n) && n <= patience
      ensures handled == old(handled) + Units(old(Ahead())[..n]) && Ahead() == old(Ahead())[n..]
      ensures old(filter.goodbye) ==> n == 0
      ensures !resume ==> !connected || filter.goodbye || Ahead() == [] || (n > 0 && old(Ahead())[n - 1].Unreadable?)
      ensures var cost := Cost(old(filter.View()), Units(old(Ahead())[..n]));
              && cost <= MAX_APPLIED
              && (resume ==> connected && !filter.goodbye && (cost == MAX_APPLIED || n == MAX_SCANNED || n == patience))
    {
      hide BeforeGoodbye, Handle, Frames, Cost, Costs, Units;
      n, resume := 0, false;
      var applied := 0;
      var exhausted := false;
      ghost var ahead := Ahead();
      var scanned := 0;
      var over := false;
      ghost var before := filter.View();
      NothingTaken(before, ahead);
      while !filter.goodbye && !over
        invariant Valid() && 0 <= scanned == n && Within(ahead, n) && n <= patience
        invariant handled == old(handled) + Units(ahead[..n]) && Ahead() == ahead[n..]
        invariant old(filter.goodbye) ==> n == 0
        invariant filter.View() == Handle(true, before, Units(ahead[..n]))
        invariant applied == Cost(before, Units(ahead[..n])) <= MAX_APPLIED
        invariant exhausted ==> over && connected && (applied == MAX_APPLIED || n == MAX_SCANNED || n == patience)
        invariant over && !exhausted ==> !connected || Ahead() == [] || (n > 0 && ahead[n - 1].Unreadable?)
        invariant !over ==> forall k :: 0 <= k < n ==> ahead[k].Frame? && (connected ==> !ahead[k].unit.Bad?)
        decreases |ahead| - n, !over
      {
        if !connected {
          over := true;
        } else if applied >= MAX_APPLIED || scanned >= MAX_SCANNED || scanned >= patience {
          exhausted, over := true, true;
        } else if injected == [] && network == [] {
          over := true;
        } else {
          var read := Next();
          UnitsOneMore(ahead, n, read, Ahead());
          scanned, n := scanned + 1, n + 1;
          match read
          case Frame(unit) =>
            CostOneMore(before, Units(ahead[..n - 1]), unit);
            var counts := Take(unit);
            if counts {
              applied := applied + 1;
            }
          case Unreadable => over := true;
          case Closed => connected, over := false, true;
        }
      }
      resume := exhausted && !filter.goodbye && connected;
    }
  }

  lemma NothingTaken(s: State, ahead: seq<Read>)
    ensures ahead[..0] == [] && Units(ahead[..0]) == [] && Cost(s, []) == 0 && Handle(true, s, []) == s
  {
  }

  lemma CostOneMore(s: State, units: seq<Unit>, unit: Unit)
    ensures Cost(s, units + [unit]) == Cost(s, units) + if Costs(Handle(true, s, units), unit) then 1 else 0
    ensures Handle(true, s, units + [unit]) == Handle(true, Handle(true, s, units), [unit])
  {
    hide Handle, Costs;
    assert (units + [unit])[..|units|] == units;
    HandleSplits(true, s, units, [unit]);
  }

  lemma OneMoreBefore(handled: seq<Unit>, unit: Unit)
    requires BeforeGoodbye(handled) && !Handle(true, START, handled).goodbye
    ensures BeforeGoodbye(handled + [unit])
  {
    hide Handle;
    var longer := handled + [unit];
    forall k | 0 <= k < |longer| ensures !Handle(true, START, longer[..k]).goodbye {
      if k < |handled| {
        assert longer[..k] == handled[..k];
      } else {
        assert longer[..k] == handled;
      }
    }
  }

  lemma UnitsOneMore(ahead: seq<Read>, n: nat, read: Read, rest: seq<Read>)
    requires n <= |ahead| && [read] + rest == ahead[n..]
    ensures n < |ahead| && ahead[n] == read && rest == ahead[n + 1..]
    ensures Units(ahead[..n + 1]) == if read.Frame? then Units(ahead[..n]) + [read.unit] else Units(ahead[..n])
  {
    assert ahead[n] == ahead[n..][0];
    assert ahead[..n + 1][..n] == ahead[..n];
    assert rest == ahead[n..][1..];
  }
}
