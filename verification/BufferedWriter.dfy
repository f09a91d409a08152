/** `createBufferedWriter`: bursts are coalesced into bounded writes, one at a time, and
    every item settles once, in the order in which the items came. */
module BufferedWriter {
  import opened Wrappers

  /** Items are numbered in the order in which they are enqueued. A run first writes its
      whole batch, then, if that fails, its items one by one. */
  datatype Run = Writing(batch: seq<nat>) | One(batch: seq<nat>, i: nat) | Finishing

  /** How the promise of an item is settled. */
  datatype Settled = Settled(item: nat, ok: bool)

  /** A call of `flush`: what had been enqueued before it, and the run it waits for. */
  datatype Flush = Waiting(before: nat, run: nat) | Returned(before: nat)

  /** `stored` is what the database holds, `failures` the writes it refused and `inFlight` the
      number of writes it is working on. */
  datatype State = State(next: nat, queue: seq<nat>, timer: bool, running: Option<Run>, runs: nat, ended: nat,
                         flushes: seq<Flush>, stored: seq<nat>, failures: seq<seq<nat>>, settled: seq<Settled>,
                         inFlight: int)

  datatype Event = OnEnqueue | OnTimer | OnWrite(ok: bool) | OnFinally | OnFlush | OnFlushResume(flush: nat)

  const INITIAL := State(0, [], false, None, 0, 0, [], [], [], [], 0)

  function Min(a: int, b: int): int {
    if a < b then a else b
  }

  function Scheduled(s: State): State {
    if !s.timer && s.running.None? && s.queue != [] then s.(timer := true) else s
  }

  /** `splice` takes nothing for a batch size that is not positive. */
  function Taken(size: int, queue: seq<nat>): nat {
    if size <= 0 then 0 else Min(size, |queue|)
  }

  function Drained(size: int, s: State): State {
    var n := Taken(size, s.queue);
    if s.running.Some? || n == 0 then s
    else s.(queue := s.queue[n..], running := Some(Writing(s.queue[..n])), runs := s.runs + 1,
            inFlight := s.inFlight + 1)
  }

  function Resolved(batch: seq<nat>): (r: seq<Settled>)
    ensures |r| == |batch| && forall k :: 0 <= k < |r| ==> r[k] == Settled(batch[k], true)
  {
    if batch == [] then [] else [Settled(batch[0], true)] + Resolved(batch[1..])
  }

  /** The database has done a write, or refused all of it. */
  function Answered(s: State, items: seq<nat>, ok: bool): State {
    s.(stored := if ok then s.stored + items else s.stored, failures := if ok then s.failures else s.failures + [items],
       inFlight := s.inFlight - 1)
  }

  function Reject(s: State, item: nat): State {
    s.(settled := s.settled + [Settled(item, false)])
  }

  function Resolve(s: State, items: seq<nat>): State {
    s.(settled := s.settled + Resolved(items))
  }

  function NextOne(s: State, batch: seq<nat>, i: nat): State {
    if i < |batch| then s.(running := Some(One(batch, i)), inFlight := s.inFlight + 1)
    else s.(running := Some(Finishing))
  }

  function WriteEnds(s: State, ok: bool): State {
    if s.running.None? then s
    else
      match s.running.value
      case Finishing => s
      case Writing(batch) =>
        var s1 := Answered(s, batch, ok);
        if ok then Resolve(s1, batch).(running := Some(Finishing))
        else if |batch| > 1 then NextOne(s1, batch, 0)
        else if |batch| == 1 then Reject(s1, batch[0]).(running := Some(Finishing))
        else s
      case One(batch, i) =>
        if i >= |batch| then s
        else
          var s1 := Answered(s, [batch[i]], ok);
          NextOne(if ok then Resolve(s1, [batch[i]]) else Reject(s1, batch[i]), batch, i + 1)
  }

  function Finally(s: State): State {
    if s.running == Some(Finishing) then Scheduled(s.(running := None, ended := s.runs)) else s
  }

  /** Start draining, and the run to wait for: 0 when there is none. */
  function Flushing(size: int, s: State, before: nat): (State, Flush) {
    var s1 := Drained(size, s.(timer := false));
    (s1, Waiting(before, if s1.running.Some? then s1.runs else 0))
  }

  function FlushResumed(size: int, s: State, f: nat): State {
    if f >= |s.flushes| || !s.flushes[f].Waiting? || s.flushes[f].run > s.ended then s
    else
      var before := s.flushes[f].before;
      if s.queue != [] || s.running.Some? then
        var (s1, flush) := Flushing(size, s, before);
        s1.(flushes := s.flushes[f := flush])
      else s.(timer := false, flushes := s.flushes[f := Returned(before)])
  }

  function Step(size: int, s: State, e: Event): State {
    match e
    case OnEnqueue => Scheduled(s.(queue := s.queue + [s.next], next := s.next + 1))
    case OnTimer => if s.timer then Drained(size, s.(timer := false)) else s
    case OnWrite(ok) => WriteEnds(s, ok)
    case OnFinally => Finally(s)
    case OnFlush =>
      var (s1, flush) := Flushing(size, s, s.next);
      s1.(flushes := s.flushes + [flush])
    case OnFlushResume(f) => FlushResumed(size, s, f)
  }

  // ----- the invariant -----

  predicate Range(s: seq<nat>, from: nat) {
    forall k :: 0 <= k < |s| ==> s[k] == from + k
  }

  /** The items that are stored are those that were resolved, in order. */
  function Accepted(settled: seq<Settled>): seq<nat> {
    if settled == [] then []
    else Accepted(settled[..|settled| - 1]) + if settled[|settled| - 1].ok then [settled[|settled| - 1].item] else []
  }

  /** How many items the run in progress has still to settle. */
  function Pending(running: Option<Run>): int {
    if running.None? then 0
    else
      match running.value
      case Writing(batch) => |batch|
      case One(batch, i) => |batch| - i
      case Finishing => 0
  }

  predicate Busy(running: Option<Run>) {
    running.Some? && !running.value.Finishing?
  }

  predicate RunInv(running: Option<Run>, settled: nat) {
    running.Some? ==>
      match running.value
      case Writing(batch) => batch != [] && Range(batch, settled)
      case One(batch, i) => i < |batch| && i <= settled && Range(batch, settled - i)
      case Finishing => true
  }

  /** Everything enqueued is settled, being written or queued, in this order. */
  predicate InOrder(s: State) {
    && (forall k :: 0 <= k < |s.settled| ==> s.settled[k].item == k)
    && RunInv(s.running, |s.settled|)
    && Range(s.queue, |s.settled| + Pending(s.running))
    && s.next == |s.settled| + Pending(s.running) + |s.queue|
  }

  predicate Honest(s: State) {
    && s.stored == Accepted(s.settled)
    && forall k :: 0 <= k < |s.settled| && !s.settled[k].ok ==> [s.settled[k].item] in s.failures
  }

  predicate Counted(s: State) {
    && s.inFlight == (if Busy(s.running) then 1 else 0)
    && s.runs == s.ended + (if s.running.Some? then 1 else 0)
  }

  predicate Flushed(flushes: seq<Flush>, settled: nat) {
    forall f :: 0 <= f < |flushes| && flushes[f].Returned? ==> flushes[f].before <= settled
  }

  predicate Begun(flushes: seq<Flush>, next: nat) {
    forall f :: 0 <= f < |flushes| ==> flushes[f].before <= next
  }

  predicate Inv(s: State) {
    InOrder(s) && Honest(s) && Counted(s) && Flushed(s.flushes, |s.settled|) && Begun(s.flushes, s.next)
  }

  /** Somebody will see to the queue. */
  predicate Attended(s: State) {
    s.queue != [] ==> s.timer || s.running.Some?
  }

  lemma {:induction false} AcceptedSplits(a: seq<Settled>, b: seq<nat>)
    ensures Accepted(a + Resolved(b)) == Accepted(a) + b
    decreases |b|
  {
    hide Accepted, Resolved;
    if b == [] {
      assert a + Resolved(b) == a;
    } else {
      var n := |b| - 1;
      AcceptedSplits(a, b[..n]);
      AcceptedOne(a + Resolved(b[..n]), Settled(b[n], true));
      ResolvedOneMore(a, b, n);
      assert Accepted(a) + b == Accepted(a) + b[..n] + [b[n]];
    }
  }

  lemma ResolvedOneMore(a: seq<Settled>, b: seq<nat>, n: nat)
    requires |b| == n + 1
    ensures a + Resolved(b) == a + Resolved(b[..n]) + [Settled(b[n], true)]
  {
    var left, right := a + Resolved(b), a + Resolved(b[..n]) + [Settled(b[n], true)];
    assert |left| == |right|;
    forall k | 0 <= k < |left| ensures left[k] == right[k] {
    }
  }

  lemma AcceptedOne(a: seq<Settled>, x: Settled)
    ensures Accepted(a + [x]) == Accepted(a) + if x.ok then [x.item] else []
  {
    assert (a + [x])[..|a|] == a;
  }

  lemma DrainKeeps(size: int, s: State)
    requires Inv(s)
    ensures Inv(Drained(size, s))
    ensures size >= 1 ==> Attended(Drained(size, s))
  {
    hide Accepted, Honest, Flushed, Begun;
    DrainSettlesNothing(size, s);
  }

  lemma DrainSettlesNothing(size: int, s: State)
    ensures var t := Drained(size, s);
            t.settled == s.settled && t.stored == s.stored && t.failures == s.failures && t.flushes == s.flushes
            && t.next == s.next
    ensures Honest(s) ==> Honest(Drained(size, s))
  {
    hide Accepted;
  }

  lemma ResolvingKeeps(s: State, items: seq<nat>)
    requires Honest(s)
    ensures Honest(Resolve(Answered(s, items, true), items))
  {
    hide Accepted;
    AcceptedSplits(s.settled, items);
  }

  lemma RejectingKeeps(s: State, item: nat)
    requires Honest(s)
    ensures Honest(Reject(Answered(s, [item], false), item))
  {
    hide Accepted;
    AcceptedOne(s.settled, Settled(item, false));
    var t := Reject(Answered(s, [item], false), item);
    assert t.failures[|s.failures|] == [item];
    forall k | 0 <= k < |s.settled| && !s.settled[k].ok ensures [s.settled[k].item] in t.failures {
      assert [s.settled[k].item] in s.failures;
    }
  }

  lemma FailingKeeps(s: State, items: seq<nat>)
    requires Honest(s)
    ensures Honest(Answered(s, items, false))
  {
    hide Accepted;
  }

  lemma FlushedLater(flushes: seq<Flush>, settled: nat, later: nat)
    requires Flushed(flushes, settled) && settled <= later
    ensures Flushed(flushes, later)
  {
  }

  lemma WriteEndsHonest(s: State, ok: bool)
    requires Honest(s)
    ensures Honest(WriteEnds(s, ok))
  {
    hide Accepted, Honest, Resolved, Answered, Resolve, Reject;
    if Busy(s.running) {
      var batch := s.running.value.batch;
      if s.running.value.Writing? {
        ResolvingKeeps(s, batch);
        FailingKeeps(s, batch);
        SameRecords(Resolve(Answered(s, batch, true), batch), WriteEnds(s, true));
        SameRecords(Answered(s, batch, false), WriteEnds(s, false));
        if |batch| == 1 {
          assert [batch[0]] == batch;
          RejectingKeeps(s, batch[0]);
          SameRecords(Reject(Answered(s, batch, false), batch[0]), WriteEnds(s, false));
        }
      } else if s.running.value.i < |batch| {
        var x := batch[s.running.value.i];
        ResolvingKeeps(s, [x]);
        RejectingKeeps(s, x);
        SameRecords(Resolve(Answered(s, [x], true), [x]), WriteEnds(s, true));
        SameRecords(Reject(Answered(s, [x], false), x), WriteEnds(s, false));
      }
    }
    SameRecords(s, s);
  }

  lemma SameRecords(s: State, t: State)
    ensures Honest(s) && t.stored == s.stored && t.failures == s.failures && t.settled == s.settled ==> Honest(t)
  {
  }

  lemma WriteEndsInOrder(s: State, ok: bool)
    requires InOrder(s)
    ensures InOrder(WriteEnds(s, ok)) && |s.settled| <= |WriteEnds(s, ok).settled|
    ensures WriteEnds(s, ok).next == s.next && WriteEnds(s, ok).flushes == s.flushes
  {
    hide InOrder, WriteEnds;
    if Busy(s.running) {
      if s.running.value.Writing? {
        BatchInOrder(s, WriteEnds(s, ok), ok);
      } else {
        OneInOrder(s, WriteEnds(s, ok), ok);
      }
    } else {
      NothingWritten(s, ok);
    }
  }

  lemma NothingWritten(s: State, ok: bool)
    requires !Busy(s.running)
    ensures WriteEnds(s, ok) == s
  {
  }

  lemma BatchInOrder(s: State, t: State, ok: bool)
    requires InOrder(s) && s.running.Some? && s.running.value.Writing? && t == WriteEnds(s, ok)
    ensures InOrder(t) && |s.settled| <= |t.settled| && t.next == s.next && t.flushes == s.flushes
  {
    hide Accepted;
  }

  lemma OneInOrder(s: State, t: State, ok: bool)
    requires InOrder(s) && s.running.Some? && s.running.value.One? && t == WriteEnds(s, ok)
    ensures InOrder(t) && |s.settled| <= |t.settled| && t.next == s.next && t.flushes == s.flushes
  {
    hide Accepted;
  }

  lemma WriteEndsCounted(s: State, ok: bool)
    requires Counted(s) && RunInv(s.running, |s.settled|)
    ensures Counted(WriteEnds(s, ok))
  {
    hide Accepted, Resolved;
  }

  lemma StepKeeps(size: int, s: State, e: Event)
    requires Inv(s)
    ensures Inv(Step(size, s, e))
    ensures size >= 1 && Attended(s) ==> Attended(Step(size, s, e))
  {
    hide Inv, Attended, Drained, WriteEnds, Finally, Scheduled, FlushResumed;
    match e
    case OnEnqueue => EnqueueKeeps(size, s);
    case OnTimer =>
      TimerDoesNotMatter(s, false);
      DrainKeeps(size, s.(timer := false));
    case OnWrite(ok) => WriteKeeps(s, ok);
    case OnFinally => FinallyKeeps(s);
    case OnFlush => FlushKeeps(size, s);
    case OnFlushResume(f) => FlushResumeKeeps(size, s, f);
  }

  lemma TimerDoesNotMatter(s: State, timer: bool)
    requires Inv(s)
    ensures Inv(s.(timer := timer))
  {
    hide Accepted;
  }

  lemma EnqueueKeeps(size: int, s: State)
    requires Inv(s)
    ensures Inv(Step(size, s, OnEnqueue)) && Attended(Step(size, s, OnEnqueue))
  {
    hide Accepted, Honest;
    SameRecords(s, Step(size, s, OnEnqueue));
  }

  lemma WriteKeeps(s: State, ok: bool)
    requires Inv(s)
    ensures Inv(WriteEnds(s, ok)) && (Attended(s) ==> Attended(WriteEnds(s, ok)))
  {
    hide Accepted, Honest, Flushed, Begun;
    WriteEndsHonest(s, ok);
    WriteEndsInOrder(s, ok);
    WriteEndsCounted(s, ok);
    FlushedLater(s.flushes, |s.settled|, |WriteEnds(s, ok).settled|);
  }

  lemma FinallyKeeps(s: State)
    requires Inv(s)
    ensures Inv(Finally(s)) && (Attended(s) ==> Attended(Finally(s)))
  {
    hide Accepted, Honest, Flushed, Begun;
    SameRecords(s, Finally(s));
  }

  lemma FlushKeeps(size: int, s: State)
    requires Inv(s)
    ensures Inv(Step(size, s, OnFlush)) && (size >= 1 ==> Attended(Step(size, s, OnFlush)))
  {
    hide Accepted, Honest, Drained, InOrder, Counted;
    TimerDoesNotMatter(s, false);
    DrainKeeps(size, s.(timer := false));
    DrainSettlesNothing(size, s.(timer := false));
    FlushesDoNotMatter(Drained(size, s.(timer := false)), Step(size, s, OnFlush));
  }

  lemma FlushesDoNotMatter(s: State, t: State)
    requires Inv(s) && t == s.(flushes := t.flushes)
    ensures InOrder(t) && Honest(t) && Counted(t)
  {
    hide Accepted;
  }

  lemma FlushResumeKeeps(size: int, s: State, f: nat)
    requires Inv(s)
    ensures Inv(FlushResumed(size, s, f)) && (size >= 1 && Attended(s) ==> Attended(FlushResumed(size, s, f)))
  {
    hide Accepted, Honest, Drained, Range;
    TimerDoesNotMatter(s, false);
    DrainKeeps(size, s.(timer := false));
    DrainSettlesNothing(size, s.(timer := false));
    SameRecords(s, FlushResumed(size, s, f));
  }

  // ----- whole runs -----

  function At(size: int, events: seq<Event>, n: nat): State
    requires n <= |events|
  {
    if n == 0 then INITIAL else Step(size, At(size, events, n - 1), events[n - 1])
  }

  lemma {:induction false} RunKeeps(size: int, events: seq<Event>, n: nat)
    requires n <= |events|
    ensures Inv(At(size, events, n))
    ensures size >= 1 ==> Attended(At(size, events, n))
  {
    hide Inv, Step;
    if n > 0 {
      RunKeeps(size, events, n - 1);
      StepKeeps(size, At(size, events, n - 1), events[n - 1]);
    } else {
      StartsWell();
    }
  }

  lemma StartsWell()
    ensures Inv(INITIAL) && Attended(INITIAL)
  {
  }

  /** In every interleaving: one write at most is in flight; each item settles at most once,
      in the order in which it came; the resolved ones are stored exactly once and in this
      order; and an item is rejected only when its own write failed. */
  lemma ExactlyOnce(size: int, events: seq<Event>, n: nat)
    requires n <= |events|
    ensures var s := At(size, events, n);
            && 0 <= s.inFlight <= 1
            && |s.settled| <= s.next
            && (forall k :: 0 <= k < |s.settled| ==> s.settled[k].item == k)
            && s.stored == Accepted(s.settled)
            && (forall k :: 0 <= k < |s.settled| && !s.settled[k].ok ==> [k] in s.failures)
  {
    hide At, Accepted, Range, Flushed, Begun;
    RunKeeps(size, events, n);
  }

  /** What the stored sequence means: each resolved item once, ascending. */
  lemma {:induction false} AcceptedAscends(settled: seq<Settled>)
    requires forall k :: 0 <= k < |settled| ==> settled[k].item == k
    ensures forall i, j :: 0 <= i < j < |Accepted(settled)| ==> Accepted(settled)[i] < Accepted(settled)[j]
    ensures forall x :: x in Accepted(settled) <==> 0 <= x < |settled| && settled[x].ok
  {
    if settled != [] {
      var before := settled[..|settled| - 1];
      AcceptedAscends(before);
      assert forall i :: 0 <= i < |Accepted(before)| ==> Accepted(before)[i] in Accepted(before);
    }
  }

  /** When a call of `flush` has returned, everything enqueued before it has settled. */
  lemma FlushWaits(size: int, events: seq<Event>, n: nat, f: nat)
    requires n <= |events| && f < |At(size, events, n).flushes| && At(size, events, n).flushes[f].Returned?
    ensures At(size, events, n).flushes[f].before <= |At(size, events, n).settled|
  {
    hide At, InOrder, Honest, Counted, Begun;
    RunKeeps(size, events, n);
  }

  /** `before` really is what had been enqueued when the call began, and never changes. */
  lemma {:induction false} FlushRemembers(size: int, events: seq<Event>, m: nat, n: nat)
    requires m < n <= |events| && events[m] == OnFlush
    ensures var f := |At(size, events, m).flushes|;
            f < |At(size, events, n).flushes| && At(size, events, n).flushes[f].before == At(size, events, m).next
    decreases n
  {
    hide At, Step;
    OneStep(size, events, n - 1);
    FlushesStay(size, At(size, events, n - 1), events[n - 1]);
    if m < n - 1 {
      FlushRemembers(size, events, m, n - 1);
    }
  }

  lemma OneStep(size: int, events: seq<Event>, n: nat)
    requires n < |events|
    ensures At(size, events, n + 1) == Step(size, At(size, events, n), events[n])
  {
    hide Step;
  }

  lemma FlushesStay(size: int, s: State, e: Event)
    ensures |s.flushes| <= |Step(size, s, e).flushes|
    ensures forall f :: 0 <= f < |s.flushes| ==> Step(size, s, e).flushes[f].before == s.flushes[f].before
    ensures e.OnFlush? ==>
              |Step(size, s, e).flushes| == |s.flushes| + 1 && Step(size, s, e).flushes[|s.flushes|].before == s.next
  {
    hide Accepted, Resolved, Min;
  }

  /** A queue that is not empty always has a timer or a run in progress, for exactly the
      batch sizes from 1 on. */
  lemma QueueIsAttended(size: int)
    ensures (forall events, n: nat | n <= |events| :: Attended(At(size, events, n))) <==> size >= 1
  {
    hide Inv;
    if size >= 1 {
      forall events, n: nat | n <= |events| ensures Attended(At(size, events, n)) {
        RunKeeps(size, events, n);
      }
    } else {
      NobodyAttends(size);
    }
  }

  /** With batch size 0 the timer fires, takes nothing and is not set again. */
  lemma NobodyAttends(size: int)
    requires size <= 0
    ensures exists events, n: nat :: n <= |events| && !Attended(At(size, events, n))
  {
    hide At;
    var events := [OnEnqueue, OnTimer];
    OneStep(size, events, 0);
    OneStep(size, events, 1);
    assert At(size, events, 0) == INITIAL by { NothingYet(size, events); }
    assert At(size, events, 1) == INITIAL.(next := 1, queue := [0], timer := true);
    assert At(size, events, 2) == INITIAL.(next := 1, queue := [0]);
  }

  lemma NothingYet(size: int, events: seq<Event>)
    ensures At(size, events, 0) == INITIAL
  {
  }

  // ----- the writer itself -----

  class Writer {
    const batchSize: int
    var next: nat
    var queue: seq<nat>
    var timer: bool
    var running: Option<Run>
    var runs: nat
    var ended: nat
    var flushes: seq<Flush>
    ghost var stored: seq<nat>
    ghost var failures: seq<seq<nat>>
    ghost var settled: seq<Settled>
    ghost var inFlight: int
    ghost var events: seq<Event>

    ghost function View(): State
      reads this
    {
      State(next, queue, timer, running, runs, ended, flushes, stored, failures, settled, inFlight)
    }

    ghost predicate Valid()
      reads this
    {
      View() == At(batchSize, events, |events|)
    }

    /** One write at most is in flight; items settle once and in their order; those that are
        stored are the resolved ones; a rejected one has been refused by itself; a flush that has
        returned left nothing of what came before it; and somebody attends to the queue. */
    ghost predicate Settles()
      reads this
    {
      && 0 <= inFlight <= 1 && |settled| <= next
      && (forall k :: 0 <= k < |settled| ==> settled[k].item == k && (!settled[k].ok ==> [k] in failures))
      && stored == Accepted(settled)
      && (forall f :: 0 <= f < |flushes| && flushes[f].Returned? ==> flushes[f].before <= |settled|)
      && (batchSize >= 1 && queue != [] ==> timer || running.Some?)
    }

    /** What holds of the object whenever it rests. */
    lemma ValidIsSafe()
      requires Valid()
      ensures Settles()
    {
      hide At, Accepted, Inv;
      ExactlyOnce(batchSize, events, |events|);
      forall f: nat | f < |flushes| && flushes[f].Returned? ensures flushes[f].before <= |settled| {
        FlushWaits(batchSize, events, |events|, f);
      }
      RunKeeps(batchSize, events, |events|);
    }

    constructor (batchSize: int)
      ensures Valid() && events == [] && this.batchSize == batchSize
    {
      this.batchSize, next, queue, timer, running, runs, ended, flushes := batchSize, 0, [], false, None, 0, 0, [];
      stored, failures, settled, inFlight, events := [], [], [], 0, [];
    }

    method Schedule()
      modifies this`timer
      ensures View() == Scheduled(old(View()))
    {
      if !timer && running.None? && queue != [] {
        timer := true;
      }
    }

    method Drain()
      modifies this`queue, this`running, this`runs, this`inFlight
      ensures View() == Drained(batchSize, old(View()))
    {
      if running.Some? {
        return;
      }
      var n := Taken(batchSize, queue);
      var batch := queue[..n];
      queue := queue[n..];
      if batch != [] {
        running := Some(Writing(batch));
        runs := runs + 1;
        inFlight := inFlight + 1;
      }
    }

    method Enqueue()
      requires Valid()
      modifies this`queue, this`next, this`timer, this`events
      ensures Valid() && Settles() && events == old(events) + [OnEnqueue]
    {
      hide At, Settles;
      OneMore(batchSize, events, OnEnqueue);
      queue := queue + [next];
      next := next + 1;
      Schedule();
      events := events + [OnEnqueue];
      ValidIsSafe();
    }

    method TimerFires()
      requires Valid()
      modifies this
      ensures Valid() && Settles() && events == old(events) + [OnTimer]
    {
      hide At, Settles, Drained;
      OneMore(batchSize, events, OnTimer);
      if timer {
        timer := false;
        Drain();
      }
      events := events + [OnTimer];
      ValidIsSafe();
    }

    /** The promise of an item is settled one way or the other. */
    ghost method Settle(items: seq<nat>, ok: bool)
      modifies this`settled
      ensures ok ==> View() == Resolve(old(View()), items)
      ensures !ok && |items| == 1 ==> View() == Reject(old(View()), items[0])
    {
      settled := settled + if ok || |items| != 1 then Resolved(items) else [Settled(items[0], false)];
    }

    method StartOne(batch: seq<nat>, i: nat)
      modifies this`running, this`inFlight
      ensures View() == NextOne(old(View()), batch, i)
    {
      running := Some(if i < |batch| then One(batch, i) else Finishing);
      if i < |batch| {
        inFlight := inFlight + 1;
      }
    }

    /** `write` comes back, for the whole batch or for one of its items. */
    method Save(ok: bool)
      modifies this`running, this`inFlight, this`stored, this`failures, this`settled
      ensures View() == WriteEnds(old(View()), ok)
    {
      hide Resolve, Reject, NextOne;
      if running.None? || running.value.Finishing? {
        return;
      }
      var batch := running.value.batch;
      var single := running.value.One? || |batch| == 1;
      var i := if running.value.One? then running.value.i else 0;
      if i >= |batch| && (running.value.One? || !ok) {
        return;
      }
      ghost var items := if running.value.One? then [batch[i]] else batch;
      stored, failures := if ok then stored + items else stored, if ok then failures else failures + [items];
      inFlight := inFlight - 1;
      if ok || single {
        Settle(items, ok);
      }
      if running.value.One? {
        StartOne(batch, i + 1);
      } else if ok || single {
        running := Some(Finishing);
      } else {
        StartOne(batch, 0);
      }
    }

    method WriteReturns(ok: bool)
      requires Valid()
      modifies this
      ensures Valid() && Settles() && events == old(events) + [OnWrite(ok)]
    {
      hide At, Settles, WriteEnds;
      OneMore(batchSize, events, OnWrite(ok));
      Save(ok);
      events := events + [OnWrite(ok)];
      ValidIsSafe();
    }

    method RunEnds()
      requires Valid()
      modifies this
      ensures Valid() && Settles() && events == old(events) + [OnFinally]
    {
      hide At, Settles, Scheduled;
      OneMore(batchSize, events, OnFinally);
      if running == Some(Finishing) {
        running := None;
        ended := runs;
        Schedule();
      }
      events := events + [OnFinally];
      ValidIsSafe();
    }

    /** One turn of the loop of `flush`, up to its `await`. */
    method Turn(before: nat) returns (flush: Flush)
      modifies this`queue, this`timer, this`running, this`runs, this`inFlight
      ensures (View(), flush) == Flushing(batchSize, old(View()), before)
    {
      hide Drained;
      timer := false;
      Drain();
      flush := Waiting(before, if running.Some? then runs else 0);
    }

    method Flush() returns (f: nat)
      requires Valid()
      modifies this
      ensures Valid() && Settles() && events == old(events) + [OnFlush]
      ensures f == |old(flushes)|
    {
      hide At, Settles, Flushing;
      OneMore(batchSize, events, OnFlush);
      f := |flushes|;
      var flush := Turn(next);
      flushes := flushes + [flush];
      FlushKeepsFlushes(batchSize, old(View()), next);
      events := events + [OnFlush];
      ValidIsSafe();
    }

    method FlushResumes(f: nat)
      requires Valid()
      modifies this
      ensures Valid() && Settles() && events == old(events) + [OnFlushResume(f)]
    {
      hide At, Settles, Flushing;
      OneMore(batchSize, events, OnFlushResume(f));
      if f < |flushes| && flushes[f].Waiting? && flushes[f].run <= ended {
        var before := flushes[f].before;
        if queue != [] || running.Some? {
          FlushKeepsFlushes(batchSize, View(), before);
          var flush := Turn(before);
          flushes := flushes[f := flush];
        } else {
          timer := false;
          flushes := flushes[f := Returned(before)];
        }
      }
      events := events + [OnFlushResume(f)];
      ValidIsSafe();
    }
  }

  lemma FlushKeepsFlushes(size: int, s: State, before: nat)
    ensures Flushing(size, s, before).0.flushes == s.flushes
  {
  }

  lemma OneMore(size: int, events: seq<Event>, e: Event)
    ensures At(size, events + [e], |events| + 1) == Step(size, At(size, events, |events|), e)
  {
    hide Step;
    SamePrefix(size, events, e, |events|);
  }

  lemma {:induction false} SamePrefix(size: int, events: seq<Event>, e: Event, n: nat)
    requires n <= |events|
    ensures At(size, events + [e], n) == At(size, events, n)
  {
    hide Step;
    if n > 0 {
      SamePrefix(size, events, e, n - 1);
    }
  }
}
