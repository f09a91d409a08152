/** The camera multiplexer: one upstream iteration per account, however viewers come and go.

    A replacement stream waits for the `done` of the one it replaces, which waited for its
    own predecessor in turn. */
module LiveCam {
  import opened Wrappers

  /** Where the body of a stream is: waiting for its predecessor, iterating the source,
      pausing after a lost connection, past its loop, or with `done` settled. */
  datatype Phase = Waiting | Iterating | Pausing | Ending | Closed

  /** `abort` is the state of its abort signal. */
  datatype Stream = Stream(account: string, previous: Option<nat>, viewers: set<nat>, abort: bool, phase: Phase)

  /** Streams by number, in the order in which they were made, and the current one of each account. */
  datatype State = State(all: seq<Stream>, current: map<string, nat>)

  /** How an iteration of the source ends. */
  datatype Upstream = Ended | Fatal | Lost

  datatype Event =
    | Subscribe(account: string, viewer: nat)
    | Unsubscribe(stream: nat, viewer: nat)
    | PreviousDone(stream: nat)
    | Frame(stream: nat, broken: set<nat>)
    | SourceEnds(stream: nat, how: Upstream)
    | PauseEnds(stream: nat)
    | Finally(stream: nat)
    | Close

  const INITIAL := State([], map[])

  function Put(s: State, i: nat, x: Stream): State
    requires i < |s.all|
  {
    s.(all := s.all[i := x])
  }

  predicate Joinable(s: State, account: string) {
    account in s.current && s.current[account] < |s.all| && !s.all[s.current[account]].abort
  }

  /** A viewer joins the current stream, or one made to follow it. */
  function Subscribed(s: State, account: string, viewer: nat): State {
    if Joinable(s, account) then
      var i := s.current[account];
      Put(s, i, s.all[i].(viewers := s.all[i].viewers + {viewer}))
    else
      var previous := if account in s.current then Some(s.current[account]) else None;
      State(s.all + [Stream(account, previous, {viewer}, false, Waiting)], s.current[account := |s.all|])
  }

  function WithoutViewers(x: Stream, gone: set<nat>): Stream {
    var viewers := x.viewers - gone;
    x.(viewers := viewers, abort := x.abort || viewers == {})
  }

  predicate PreviousIsDone(s: State, i: nat)
    requires i < |s.all|
  {
    var previous := s.all[i].previous;
    previous.Some? ==> previous.value < |s.all| && s.all[previous.value].phase.Closed?
  }

  /** The head of the loop. */
  function LoopHead(x: Stream): Stream {
    x.(phase := if !x.abort && x.viewers != {} then Iterating else Ending)
  }

  /** A frame: an aborted stream leaves, and so does one whose last viewer breaks. */
  function Framed(x: Stream, broken: set<nat>): Stream {
    if x.abort then x.(phase := Ending)
    else
      var x1 := WithoutViewers(x, broken);
      if x1.viewers == {} then x1.(phase := Ending) else x1
  }

  function Finished(s: State, i: nat): State
    requires i < |s.all|
  {
    var x := s.all[i].(abort := true, phase := Closed);
    var current := if x.account in s.current && s.current[x.account] == i then s.current - {x.account} else s.current;
    State(s.all[i := x], current)
  }

  /** `close` aborts the current streams. */
  function Aborted(s: State): (all: seq<Stream>)
    ensures |all| == |s.all|
    ensures forall i :: 0 <= i < |all| ==> all[i] == s.all[i].(abort := s.all[i].abort || IsCurrent(s, i))
  {
    seq(|s.all|, i requires 0 <= i < |s.all| => s.all[i].(abort := s.all[i].abort || IsCurrent(s, i)))
  }

  predicate IsCurrent(s: State, i: nat)
    requires i < |s.all|
  {
    s.all[i].account in s.current && s.current[s.all[i].account] == i
  }

  /** The step of one stream; nothing when it is not waiting for this. */
  function StreamStep(s: State, i: nat, e: Event): State
    requires i < |s.all|
  {
    var x := s.all[i];
    match e
    case Unsubscribe(_, viewer) => Put(s, i, WithoutViewers(x, {viewer}))
    case PreviousDone(_) =>
      if x.phase.Waiting? && PreviousIsDone(s, i) then Put(s, i, LoopHead(x)) else s
    case Frame(_, broken) => if x.phase.Iterating? then Put(s, i, Framed(x, broken)) else s
    case SourceEnds(_, how) =>
      if x.phase.Iterating? then Put(s, i, x.(phase := if x.abort || how.Fatal? then Ending else Pausing)) else s
    case PauseEnds(_) => if x.phase.Pausing? then Put(s, i, LoopHead(x)) else s
    case Finally(_) => if x.phase.Ending? then Finished(s, i) else s
    case _ => s
  }

  function Step(s: State, e: Event): State {
    match e
    case Subscribe(account, viewer) => Subscribed(s, account, viewer)
    case Close => s.(all := Aborted(s))
    case _ => if e.stream < |s.all| then StreamStep(s, e.stream, e) else s
  }

  // ----- the invariant -----

  /** All earlier streams of the account of `i` are closed. */
  predicate Cleared(all: seq<Stream>, i: nat)
    requires i < |all|
  {
    forall k :: 0 <= k < i && all[k].account == all[i].account ==> all[k].phase.Closed?
  }

  /** No stream of the account lies between `i` and its predecessor. */
  predicate Follows(all: seq<Stream>, i: nat)
    requires i < |all|
  {
    if all[i].previous.None? then Cleared(all, i)
    else
      && all[i].previous.value < i && all[all[i].previous.value].account == all[i].account
      && forall k :: all[i].previous.value < k < i ==> all[k].account != all[i].account
  }

  predicate Chained(all: seq<Stream>) {
    forall i :: 0 <= i < |all| ==> Follows(all, i) && (all[i].phase.Waiting? || Cleared(all, i))
  }

  /** The current stream of an account is its last one; an account without has none open,
      and what is no longer current has been aborted. */
  predicate Indexed(s: State) {
    && (forall a :: a in s.current ==> s.current[a] < |s.all| && s.all[s.current[a]].account == a)
    && (forall i :: 0 <= i < |s.all| ==>
          if s.all[i].account in s.current then i <= s.current[s.all[i].account] else s.all[i].phase.Closed?)
    && (forall i :: 0 <= i < |s.all| && !IsCurrent(s, i) ==> s.all[i].abort)
    && (forall i :: 0 <= i < |s.all| && s.all[i].viewers == {} ==> s.all[i].abort)
  }

  predicate Inv(s: State) {
    Chained(s.all) && Indexed(s)
  }

  lemma SubscribeKeeps(s: State, account: string, viewer: nat)
    requires Inv(s)
    ensures Inv(Subscribed(s, account, viewer))
  {
    hide Cleared, Follows;
    var t := Subscribed(s, account, viewer);
    if Joinable(s, account) {
      var i := s.current[account];
      Openness(s, i);
      PutKeeps(s, i, s.all[i].(viewers := s.all[i].viewers + {viewer}));
    } else {
      NewFollows(s, account, viewer);
      Longer(s.all, t.all);
      NewIndexed(s, account, viewer);
    }
  }

  lemma NewFollows(s: State, account: string, viewer: nat)
    requires Inv(s) && !Joinable(s, account)
    ensures Follows(Subscribed(s, account, viewer).all, |s.all|)
  {
    hide Chained;
  }

  lemma NewIndexed(s: State, account: string, viewer: nat)
    requires Indexed(s) && !Joinable(s, account)
    ensures Indexed(Subscribed(s, account, viewer))
  {
    var t := Subscribed(s, account, viewer);
    forall k | 0 <= k < |s.all| ensures t.all[k] == s.all[k] && (!IsCurrent(t, k) ==> t.all[k].abort) {
    }
  }

  /** What a step of a stream may do to it without disturbing the chain. */
  predicate Advances(x: Stream, y: Stream) {
    y.account == x.account && y.previous == x.previous && (x.phase.Closed? ==> y.phase.Closed?)
  }

  lemma SameChain(all: seq<Stream>, all1: seq<Stream>)
    requires Chained(all) && |all1| == |all|
    requires forall i :: 0 <= i < |all| ==> Advances(all[i], all1[i])
    requires forall i :: 0 <= i < |all| && !all1[i].phase.Waiting? ==> Cleared(all, i)
    ensures Chained(all1)
  {
    forall i | 0 <= i < |all1| ensures Follows(all1, i) && (all1[i].phase.Waiting? || Cleared(all1, i)) {
      assert Follows(all, i);
    }
  }

  lemma Longer(all: seq<Stream>, all1: seq<Stream>)
    requires Chained(all) && |all1| == |all| + 1 && all1[..|all|] == all
    requires Follows(all1, |all|) && all1[|all|].phase.Waiting?
    ensures Chained(all1)
  {
    forall i | 0 <= i < |all1| ensures Follows(all1, i) && (all1[i].phase.Waiting? || Cleared(all1, i)) {
      if i < |all| {
        assert all1[i] == all[i] && Follows(all, i);
      }
    }
  }

  /** The predecessor of a stream that may start is closed, and so are all before it. */
  lemma PreviousClears(s: State, i: nat)
    requires Chained(s.all) && i < |s.all| && PreviousIsDone(s, i)
    ensures Cleared(s.all, i)
  {
    assert Follows(s.all, i);
    if s.all[i].previous.Some? {
      var j := s.all[i].previous.value;
      assert Follows(s.all, j) && (s.all[j].phase.Waiting? || Cleared(s.all, j));
    }
  }

  lemma ChainedClears(s: State, i: nat)
    requires Chained(s.all) && i < |s.all| && !s.all[i].phase.Waiting?
    ensures Cleared(s.all, i)
  {
  }

  /** A stream goes on, and keeps its abort. */
  predicate GoesOn(x: Stream, y: Stream) {
    Advances(x, y) && (x.abort ==> y.abort) && (y.viewers == {} ==> y.abort)
  }

  lemma PutKeeps(s: State, i: nat, y: Stream)
    requires Inv(s) && i < |s.all| && GoesOn(s.all[i], y) && (y.phase.Waiting? || Cleared(s.all, i))
    ensures Inv(Put(s, i, y))
  {
    PutChained(s, i, y);
    PutIndexed(s, i, y);
  }

  lemma PutChained(s: State, i: nat, y: Stream)
    requires Chained(s.all) && i < |s.all| && GoesOn(s.all[i], y) && (y.phase.Waiting? || Cleared(s.all, i))
    ensures Chained(Put(s, i, y).all)
  {
    hide Cleared, Follows;
    forall k | 0 <= k < |s.all| && !Put(s, i, y).all[k].phase.Waiting? ensures Cleared(s.all, k) {
      assert k == i || (s.all[k].phase.Waiting? || Cleared(s.all, k));
    }
    SameChain(s.all, Put(s, i, y).all);
  }

  lemma PutIndexed(s: State, i: nat, y: Stream)
    requires Indexed(s) && i < |s.all| && GoesOn(s.all[i], y)
    ensures Indexed(Put(s, i, y))
  {
    var t := Put(s, i, y);
    forall k | 0 <= k < |t.all|
      ensures t.all[k].account == s.all[k].account
      ensures s.all[k].phase.Closed? ==> t.all[k].phase.Closed?
      ensures IsCurrent(t, k) <==> IsCurrent(s, k)
      ensures s.all[k].abort ==> t.all[k].abort
      ensures t.all[k].viewers == {} ==> t.all[k].abort {
    }
  }

  lemma FinishKeeps(s: State, i: nat)
    requires Inv(s) && i < |s.all| && s.all[i].phase.Ending?
    ensures Inv(Finished(s, i))
  {
    var y := s.all[i].(abort := true, phase := Closed);
    ChainedClears(s, i);
    PutKeeps(s, i, y);
    if IsCurrent(s, i) {
      DropCurrent(Put(s, i, y), i);
    }
  }

  /** The last stream of an account, once it and all before it are closed, need not be current. */
  lemma DropCurrent(s: State, i: nat)
    requires Inv(s) && i < |s.all| && IsCurrent(s, i) && s.all[i].phase.Closed? && s.all[i].abort && Cleared(s.all, i)
    ensures Inv(s.(current := s.current - {s.all[i].account}))
  {
    var t := s.(current := s.current - {s.all[i].account});
    forall k | 0 <= k < |t.all| && !IsCurrent(t, k) ensures t.all[k].abort {
      assert k == i || !IsCurrent(s, k);
    }
  }

  lemma StreamStepKeeps(s: State, i: nat, e: Event)
    requires Inv(s) && i < |s.all|
    ensures Inv(StreamStep(s, i, e))
  {
    hide Inv, Chained, Indexed, Cleared, PreviousIsDone, Finished, IsCurrent;
    var x := s.all[i];
    Openness(s, i);
    match e
    case Unsubscribe(_, viewer) => PutKeeps(s, i, WithoutViewers(x, {viewer}));
    case PreviousDone(_) =>
      if x.phase.Waiting? && PreviousIsDone(s, i) {
        PreviousClears(s, i);
        PutKeeps(s, i, LoopHead(x));
      }
    case Frame(_, broken) =>
      if x.phase.Iterating? {
        PutKeeps(s, i, Framed(x, broken));
      }
    case SourceEnds(_, how) =>
      if x.phase.Iterating? {
        PutKeeps(s, i, x.(phase := if x.abort || how.Fatal? then Ending else Pausing));
      }
    case PauseEnds(_) =>
      if x.phase.Pausing? {
        PutKeeps(s, i, LoopHead(x));
      }
    case Finally(_) =>
      if x.phase.Ending? {
        FinishKeeps(s, i);
      }
    case _ =>
  }

  lemma Openness(s: State, i: nat)
    requires Inv(s) && i < |s.all|
    ensures Chained(s.all) && (s.all[i].viewers == {} ==> s.all[i].abort)
    ensures s.all[i].phase.Waiting? || Cleared(s.all, i)
  {
  }

  lemma CloseKeeps(s: State)
    requires Inv(s)
    ensures Inv(s.(all := Aborted(s)))
    ensures forall i :: 0 <= i < |s.all| ==> Aborted(s)[i].abort
  {
    hide Follows, Cleared;
    var t := s.(all := Aborted(s));
    forall k | 0 <= k < |s.all| && !t.all[k].phase.Waiting? ensures Cleared(s.all, k) {
      ChainedClears(s, k);
    }
    SameChain(s.all, t.all);
    AbortedIndexed(s);
  }

  lemma AbortedIndexed(s: State)
    requires Indexed(s)
    ensures Indexed(s.(all := Aborted(s)))
    ensures forall i :: 0 <= i < |s.all| ==> Aborted(s)[i].abort
  {
    var t := s.(all := Aborted(s));
    forall k | 0 <= k < |t.all| ensures IsCurrent(t, k) <==> IsCurrent(s, k) {
    }
  }

  lemma StepKeeps(s: State, e: Event)
    requires Inv(s)
    ensures Inv(Step(s, e))
  {
    hide Inv, Subscribed, StreamStep;
    match e
    case Subscribe(account, viewer) => SubscribeKeeps(s, account, viewer);
    case Close => CloseKeeps(s);
    case _ =>
      if e.stream < |s.all| {
        StreamStepKeeps(s, e.stream, e);
      }
  }

  // ----- whole runs -----

  function At(events: seq<Event>, n: nat): State
    requires n <= |events|
  {
    if n == 0 then INITIAL else Step(At(events, n - 1), events[n - 1])
  }

  lemma {:induction false} RunKeeps(events: seq<Event>, n: nat)
    requires n <= |events|
    ensures Inv(At(events, n))
  {
    hide Inv, Step;
    if n > 0 {
      RunKeeps(events, n - 1);
      StepKeeps(At(events, n - 1), events[n - 1]);
    } else {
      StartsWell();
    }
  }

  lemma StartsWell()
    ensures Inv(INITIAL)
  {
  }

  /** In every interleaving at most one stream of an account iterates, or is anywhere
      between its start and its end. */
  lemma OneIterationPerAccount(events: seq<Event>, n: nat, i: nat, j: nat)
    requires n <= |events| && i < |At(events, n).all| && j < |At(events, n).all|
    requires var x, y := At(events, n).all[i], At(events, n).all[j];
             && x.account == y.account && !x.phase.Waiting? && !x.phase.Closed? && !y.phase.Waiting? && !y.phase.Closed?
    ensures i == j
  {
    hide At, Follows;
    RunKeeps(events, n);
    ChainedClears(At(events, n), i);
    ChainedClears(At(events, n), j);
  }

  /** A stream iterates only after every earlier stream of its account is done. */
  lemma StartsAfterAllBefore(events: seq<Event>, n: nat, k: nat, i: nat)
    requires n <= |events| && k < i < |At(events, n).all| && At(events, n).all[i].phase.Iterating?
    requires At(events, n).all[k].account == At(events, n).all[i].account
    ensures At(events, n).all[k].phase.Closed?
  {
    hide At, Follows;
    RunKeeps(events, n);
    ChainedClears(At(events, n), i);
  }

  /** What `close` waits for: the `done` of the streams that are current at its call. */
  predicate Awaited(before: State, after: State) {
    forall a :: a in before.current && before.current[a] < |after.all| ==> after.all[before.current[a]].phase.Closed?
  }

  /** When they are done, every stream there was is closed, and none can start again. */
  lemma CloseEndsAll(events: seq<Event>, m: nat, n: nat, i: nat)
    requires m <= n <= |events| && i < |At(events, m).all| && Awaited(At(events, m), At(events, n))
    ensures i < |At(events, n).all| && At(events, n).all[i].phase.Closed?
  {
    hide At, Follows, Chained;
    var s, t := At(events, m), At(events, n);
    RunKeeps(events, m);
    RunKeeps(events, n);
    StreamsStay(events, m, n, i);
    var a := s.all[i].account;
    if a in s.current {
      StreamsStay(events, m, n, s.current[a]);
      ChainedClears(t, s.current[a]);
    }
  }

  /** Streams keep their number and account, and a closed one stays closed. */
  lemma {:induction false} StreamsStay(events: seq<Event>, m: nat, n: nat, i: nat)
    requires m <= n <= |events| && i < |At(events, m).all|
    ensures i < |At(events, n).all| && Advances(At(events, m).all[i], At(events, n).all[i])
    decreases n
  {
    hide At, Step;
    if m < n {
      StreamsStay(events, m, n - 1, i);
      StepAdvances(At(events, n - 1), events[n - 1], i);
      OneStep(events, n - 1);
    }
  }

  lemma OneStep(events: seq<Event>, n: nat)
    requires n < |events|
    ensures At(events, n + 1) == Step(At(events, n), events[n])
  {
    hide Step;
  }

  lemma StepAdvances(s: State, e: Event, i: nat)
    requires i < |s.all|
    ensures i < |Step(s, e).all| && Advances(s.all[i], Step(s, e).all[i])
  {
    hide PreviousIsDone, IsCurrent;
  }

  lemma OneMore(events: seq<Event>, e: Event)
    ensures At(events + [e], |events| + 1) == Step(At(events, |events|), e)
  {
    hide Step;
    SamePrefix(events, e, |events|);
  }

  lemma {:induction false} SamePrefix(events: seq<Event>, e: Event, n: nat)
    requires n <= |events|
    ensures At(events + [e], n) == At(events, n)
  {
    hide Step;
    if n > 0 {
      SamePrefix(events, e, n - 1);
    }
  }

  // ----- the streams themselves -----

  class LiveCamStreams {
    var all: seq<Stream>
    var streams: map<string, nat>
    ghost var events: seq<Event>

    ghost function View(): State
      reads this
    {
      State(all, streams)
    }

    ghost predicate Valid()
      reads this
    {
      View() == At(events, |events|)
    }

    /** The stream is between its start and its end. */
    predicate Begun(i: nat)
      requires i < |all|
      reads this
    {
      !all[i].phase.Waiting? && !all[i].phase.Closed?
    }

    /** A stream between its start and its end is the only one of its account, and every earlier
        one of the account is closed. */
    ghost predicate OnePerAccount()
      reads this
    {
      && (forall i, j :: 0 <= i < |all| && 0 <= j < |all| && all[i].account == all[j].account ==>
            Begun(i) && Begun(j) ==> i == j)
      && forall k, i :: 0 <= k < i < |all| && all[k].account == all[i].account && all[i].phase.Iterating? ==>
           all[k].phase.Closed?
    }

    /** What holds of the object whenever it rests. */
    lemma ValidIsSafe()
      requires Valid()
      ensures OnePerAccount()
    {
      hide At;
      forall i: nat, j: nat |
        && i < |all| && j < |all| && all[i].account == all[j].account
        && !all[i].phase.Waiting? && !all[i].phase.Closed? && !all[j].phase.Waiting? && !all[j].phase.Closed?
        ensures i == j
      {
        OneIterationPerAccount(events, |events|, i, j);
      }
      forall k: nat, i: nat | k < i < |all| && all[k].account == all[i].account && all[i].phase.Iterating?
        ensures all[k].phase.Closed?
      {
        StartsAfterAllBefore(events, |events|, k, i);
      }
    }

    constructor ()
      ensures Valid() && events == []
    {
      all, streams, events := [], map[], [];
    }

    method Join(account: string, viewer: nat) returns (stream: nat)
      modifies this`all, this`streams
      ensures View() == Subscribed(old(View()), account, viewer)
      ensures account in streams && stream == streams[account] < |all| && viewer in all[stream].viewers
      ensures !all[stream].abort
    {
      var previous: Option<nat> := None;
      if account in streams {
        stream := streams[account];
        if stream < |all| && !all[stream].abort {
          all := all[stream := all[stream].(viewers := all[stream].viewers + {viewer})];
          return;
        }
        previous := Some(stream);
      }
      stream := |all|;
      all := all + [Stream(account, previous, {viewer}, false, Waiting)];
      streams := streams[account := stream];
    }

    method Subscribe(account: string, viewer: nat) returns (stream: nat)
      requires Valid()
      modifies this
      ensures Valid() && OnePerAccount() && events == old(events) + [Event.Subscribe(account, viewer)]
      ensures stream < |all| && viewer in all[stream].viewers && !all[stream].abort
    {
      hide At, OnePerAccount, Subscribed;
      OneMore(events, Event.Subscribe(account, viewer));
      stream := Join(account, viewer);
      events := events + [Event.Subscribe(account, viewer)];
      ValidIsSafe();
    }

    /** A viewer leaves; the last one aborts the stream. */
    method RemoveViewers(i: nat, gone: set<nat>)
      requires i < |all|
      modifies this`all
      ensures View() == Put(old(View()), i, WithoutViewers(old(all[i]), gone))
    {
      var x := all[i].(viewers := all[i].viewers - gone);
      if x.viewers == {} {
        x := x.(abort := true);
      }
      all := all[i := x];
    }

    method Resumes(i: nat, e: Event)
      requires i < |all| && (e.PreviousDone? || e.PauseEnds?)
      modifies this`all
      ensures View() == StreamStep(old(View()), i, e)
    {
      var x := all[i];
      if e.PauseEnds? {
        if !x.phase.Pausing? {
          return;
        }
      } else if !x.phase.Waiting? || (x.previous.Some? && !(x.previous.value < |all|
                                                            && all[x.previous.value].phase.Closed?)) {
        return;
      }
      all := all[i := x.(phase := if !x.abort && x.viewers != {} then Iterating else Ending)];
    }

    method Receives(i: nat, broken: set<nat>)
      requires i < |all|
      modifies this`all
      ensures View() == StreamStep(old(View()), i, Frame(i, broken))
    {
      var x := all[i];
      if !x.phase.Iterating? {
        return;
      }
      if !x.abort {
        RemoveViewers(i, broken);
        x := all[i];
      }
      if x.abort || x.viewers == {} {
        all := all[i := x.(phase := Ending)];
      }
    }

    method LosesSource(i: nat, how: Upstream)
      requires i < |all|
      modifies this`all
      ensures View() == StreamStep(old(View()), i, SourceEnds(i, how))
    {
      if all[i].phase.Iterating? {
        all := all[i := all[i].(phase := if all[i].abort || how.Fatal? then Ending else Pausing)];
      }
    }

    method Finishes(i: nat)
      requires i < |all|
      modifies this`all, this`streams
      ensures View() == StreamStep(old(View()), i, Finally(i))
    {
      var x := all[i];
      if !x.phase.Ending? {
        return;
      }
      all := all[i := x.(abort := true, phase := Closed)];
      if x.account in streams && streams[x.account] == i {
        streams := streams - {x.account};
      }
    }

    /** Whatever reaches a stream: a viewer leaving, or the next turn of its body. */
    method Advance(e: Event)
      requires Valid() && !e.Subscribe? && !e.Close?
      modifies this
      ensures Valid() && OnePerAccount() && events == old(events) + [e]
    {
      hide At, OnePerAccount, WithoutViewers, PreviousIsDone, LoopHead, Framed, Finished;
      OneMore(events, e);
      var i := e.stream;
      if i < |all| {
        match e {
          case Unsubscribe(_, viewer) => RemoveViewers(i, {viewer});
          case PreviousDone(_) => Resumes(i, e);
          case PauseEnds(_) => Resumes(i, e);
          case Frame(_, broken) => Receives(i, broken);
          case SourceEnds(_, how) => LosesSource(i, how);
          case Finally(_) => Finishes(i);
        }
      }
      events := events + [e];
      ValidIsSafe();
    }

    method Close()
      requires Valid()
      modifies this
      ensures Valid() && OnePerAccount() && events == old(events) + [Event.Close]
      ensures forall i :: 0 <= i < |all| ==> all[i].abort
    {
      hide At, OnePerAccount, Inv;
      OneMore(events, Event.Close);
      RunKeeps(events, |events|);
      CloseKeeps(View());
      ghost var before := View();
      var i := 0;
      while i < |all|
        invariant i <= |all| == |before.all| && streams == before.current && events == old(events)
        invariant forall k :: 0 <= k < i ==> all[k] == Aborted(before)[k]
        invariant forall k :: i <= k < |all| ==> all[k] == before.all[k]
      {
        if all[i].account in streams && streams[all[i].account] == i {
          all := all[i := all[i].(abort := true)];
        }
        i := i + 1;
      }
      assert all == Aborted(before);
      events := events + [Event.Close];
      ValidIsSafe();
    }
  }
}
