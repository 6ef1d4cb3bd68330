/**
 The derivation pipeline: an ordered worker that retries a failed batch at the front. `R` is what
 deriving a batch yields.
 */
module Pipeline {
  import opened Primitives

  const WORKER_CONCURRENCY: nat := 3
  const RETRY_INITIAL_DELAY_MS: nat := 1_000
  const RETRY_MAX_DELAY_MS: nat := 30_000

  datatype Request = Request(info: BatchInfo, target: BatchStatus)

  /** What has become of a derivation that was started; from `Failing` or `Ready` on it is settled. */
  datatype Fate<+R> = Running | Failing | Ready(result: R)

  datatype InFlight<+R> = InFlight(request: Request, fate: Fate<R>)

  datatype Derived<+R> = Derived(request: Request, result: R)

  datatype State<+R> = State(
    inbox: seq<Request>,
    futures: seq<InFlight<R>>,
    outbox: seq<Derived<R>>,
    len: nat,
    retryDelay: nat)

  function Idle<R>(): State<R> {
    State([], [], [], 0, RETRY_INITIAL_DELAY_MS)
  }

  // ---- The transitions ----

  function Push<R>(s: State<R>, r: Request): State<R> {
    s.(inbox := s.inbox + [r], len := s.len + 1)
  }

  /** The worker takes the next request while it has capacity. */
  function Receive<R>(s: State<R>): State<R> {
    if |s.futures| < WORKER_CONCURRENCY && |s.inbox| > 0
    then s.(inbox := s.inbox[1..], futures := s.futures + [InFlight(s.inbox[0], Running)])
    else s
  }

  /** Any derivation in flight may settle, in any order. */
  function Settle<R>(s: State<R>, i: nat, fate: Fate<R>): State<R> {
    if i < |s.futures| && s.futures[i].fate.Running?
    then s.(futures := s.futures[i := InFlight(s.futures[i].request, fate)])
    else s
  }

  /** Only the front is taken out: a result is sent on, a failure starts over at the front. */
  function Resolve<R>(s: State<R>): State<R> {
    if |s.futures| == 0 then s else
    match s.futures[0].fate
    case Running => s
    case Failing =>
      s.(futures := [InFlight(s.futures[0].request, Running)] + s.futures[1..],
         retryDelay := Min(2 * s.retryDelay, RETRY_MAX_DELAY_MS))
    case Ready(result) =>
      s.(futures := s.futures[1..], outbox := s.outbox + [Derived(s.futures[0].request, result)],
         retryDelay := RETRY_INITIAL_DELAY_MS)
  }

  function Poll<R>(s: State<R>): State<R> {
    if |s.outbox| == 0 then s
    else s.(outbox := s.outbox[1..], len := Pred(s.len))
  }

  /** The orchestrator's end and the worker's end of the two channels, updated in place. */
  class DerivationPipeline<R> {
    var inbox: seq<Request>
    var futures: seq<InFlight<R>>
    var outbox: seq<Derived<R>>
    var len: nat
    var retryDelay: nat

    ghost function View(): State<R>
      reads this
    {
      State(inbox, futures, outbox, len, retryDelay)
    }

    constructor ()
      ensures View() == Idle()
    {
      inbox, futures, outbox, len, retryDelay := [], [], [], 0, RETRY_INITIAL_DELAY_MS;
    }

    method PushBatch(info: BatchInfo, target: BatchStatus)
      modifies this
      ensures View() == Push(old(View()), Request(info, target))
    {
      inbox := inbox + [Request(info, target)];
      len := len + 1;
    }

    method PollNext() returns (result: Option<Derived<R>>)
      modifies this
      ensures View() == Poll(old(View()))
      ensures result == if |old(outbox)| == 0 then None else Some(old(outbox)[0])
    {
      if |outbox| == 0 {
        return None;
      }
      result := Some(outbox[0]);
      outbox := outbox[1..];
      len := Pred(len);
    }

    method ReceiveRequest()
      modifies this
      ensures View() == Receive(old(View()))
    {
      if |futures| < WORKER_CONCURRENCY && |inbox| > 0 {
        futures := futures + [InFlight(inbox[0], Running)];
        inbox := inbox[1..];
      }
    }

    /** Pops the front future once it is settled; a failed one is pushed back with the next delay. */
    method ResolveFront() returns (retryIn: Option<nat>)
      modifies this
      ensures View() == Resolve(old(View()))
      ensures retryIn == if |old(futures)| > 0 && old(futures)[0].fate.Failing? then Some(old(retryDelay)) else None
    {
      retryIn := None;
      if |futures| == 0 || futures[0].fate.Running? {
        return;
      }
      var front := futures[0];
      futures := futures[1..];
      match front.fate {
        case Ready(result) =>
          retryDelay := RETRY_INITIAL_DELAY_MS;
          outbox := outbox + [Derived(front.request, result)];
        case Failing =>
          retryIn := Some(retryDelay);
          retryDelay := Min(2 * retryDelay, RETRY_MAX_DELAY_MS);
          futures := [InFlight(front.request, Running)] + futures;
      }
    }
  }

  // ---- Whole runs ----

  datatype Event<+R> = Pushed(request: Request) | Received | Settled(i: nat, fate: Fate<R>) | Resolved | Polled

  /** The pipeline with its history: every request pushed and every result yielded. */
  datatype Run<+R> = Run(state: State<R>, pushed: seq<Request>, yielded: seq<Derived<R>>)

  function After<R>(run: Run<R>, e: Event<R>): Run<R> {
    match e
    case Pushed(r) => run.(state := Push(run.state, r), pushed := run.pushed + [r])
    case Received => run.(state := Receive(run.state))
    case Settled(i, fate) => run.(state := Settle(run.state, i, fate))
    case Resolved => run.(state := Resolve(run.state))
    case Polled =>
      run.(state := Poll(run.state),
           yielded := run.yielded + if |run.state.outbox| == 0 then [] else [run.state.outbox[0]])
  }

  function AfterAll<R>(run: Run<R>, events: seq<Event<R>>): Run<R>
    decreases |events|
  {
    if |events| == 0 then run else AfterAll(After(run, events[0]), events[1..])
  }

  function Requests<R>(ds: seq<Derived<R>>): seq<Request> {
    seq(|ds|, i requires 0 <= i < |ds| => ds[i].request)
  }

  function Started<R>(fs: seq<InFlight<R>>): seq<Request> {
    seq(|fs|, i requires 0 <= i < |fs| => fs[i].request)
  }

  /** Everything pushed is, in push order: yielded, derived, in flight, waiting. */
  ghost predicate Conserved<R>(run: Run<R>) {
    && run.pushed == Requests(run.yielded) + Requests(run.state.outbox) + Started(run.state.futures) + run.state.inbox
    && |run.state.futures| <= WORKER_CONCURRENCY
    && run.state.len == |run.pushed| - |run.yielded|
    && RETRY_INITIAL_DELAY_MS <= run.state.retryDelay <= RETRY_MAX_DELAY_MS
  }

  lemma ResolveConserves<R>(s: State<R>)
    ensures Requests(Resolve(s).outbox) + Started(Resolve(s).futures) == Requests(s.outbox) + Started(s.futures)
    ensures Resolve(s).inbox == s.inbox && Resolve(s).len == s.len && |Resolve(s).futures| <= |s.futures|
  {
    if |s.futures| > 0 && s.futures[0].fate.Ready? {
      assert Requests(Resolve(s).outbox) == Requests(s.outbox) + [s.futures[0].request];
      assert Started(s.futures) == [s.futures[0].request] + Started(Resolve(s).futures);
    } else {
      assert Started(Resolve(s).futures) == Started(s.futures);
    }
  }

  lemma PollConserves<R>(run: Run<R>)
    requires |run.state.outbox| > 0
    ensures Requests(After(run, Polled).yielded) + Requests(Poll(run.state).outbox) ==
            Requests(run.yielded) + Requests(run.state.outbox)
  {
    assert Requests(run.state.outbox) == [run.state.outbox[0].request] + Requests(Poll(run.state).outbox);
    assert Requests(After(run, Polled).yielded) == Requests(run.yielded) + [run.state.outbox[0].request];
  }

  /** The parts of a run may be regrouped as long as they concatenate to what was pushed. */
  lemma Regroup<R>(run: Run<R>, run': Run<R>)
    requires Conserved(run) && run'.pushed == run.pushed
    requires Requests(run'.yielded) + Requests(run'.state.outbox) + Started(run'.state.futures) + run'.state.inbox ==
             Requests(run.yielded) + Requests(run.state.outbox) + Started(run.state.futures) + run.state.inbox
    requires |run'.state.futures| <= WORKER_CONCURRENCY && run'.state.len == |run'.pushed| - |run'.yielded|
    requires RETRY_INITIAL_DELAY_MS <= run'.state.retryDelay <= RETRY_MAX_DELAY_MS
    ensures Conserved(run')
  {
  }

  lemma PushConserves<R>(run: Run<R>, r: Request)
    requires Conserved(run)
    ensures Conserved(After(run, Pushed(r)))
  {
  }

  lemma ReceiveConserves<R>(s: State<R>)
    ensures Started(Receive(s).futures) + Receive(s).inbox == Started(s.futures) + s.inbox
  {
    if |s.futures| < WORKER_CONCURRENCY && |s.inbox| > 0 {
      assert Started(Receive(s).futures) == Started(s.futures) + [s.inbox[0]];
      assert s.inbox == [s.inbox[0]] + s.inbox[1..];
    }
  }

  lemma Append4<T>(a: seq<T>, b: seq<T>, c: seq<T>, d: seq<T>, b': seq<T>, c': seq<T>, d': seq<T>)
    requires (b + c == b' + c' && d == d') || (b == b' && c + d == c' + d')
    ensures a + b + c + d == a + b' + c' + d'
  {
    assert a + b + c + d == a + (b + c) + d == a + b + (c + d);
    assert a + b' + c' + d' == a + (b' + c') + d' == a + b' + (c' + d');
  }

  lemma StepConserves<R>(run: Run<R>, e: Event<R>)
    requires Conserved(run)
    ensures Conserved(After(run, e))
  {
    var y, s, s' := Requests(run.yielded), run.state, After(run, e).state;
    match e {
      case Pushed(r) => PushConserves(run, r);
      case Received =>
        ReceiveConserves(s);
        Append4(y, Requests(s.outbox), Started(s.futures), s.inbox, Requests(s'.outbox), Started(s'.futures), s'.inbox);
        Regroup(run, After(run, e));
      case Settled(_, _) =>
        assert Started(s'.futures) == Started(s.futures);
        Regroup(run, After(run, e));
      case Resolved =>
        ResolveConserves(s);
        Append4(y, Requests(s.outbox), Started(s.futures), s.inbox, Requests(s'.outbox), Started(s'.futures), s'.inbox);
        Regroup(run, After(run, e));
      case Polled =>
        if |s.outbox| > 0 {
          PollConserves(run);
          Regroup(run, After(run, e));
        }
    }
  }

  /**
   Order and conservation: for any interleaving and any pattern of failures and retries, the
   results come out in push order with no loss and no duplicate, at most three requests are in
   flight, and the length is the requests pushed minus the results yielded.
   */
  lemma {:induction false} PipelineConserves<R>(run: Run<R>, events: seq<Event<R>>)
    requires Conserved(run)
    ensures var r := AfterAll(run, events);
            && Conserved(r)
            && |r.yielded| <= |r.pushed| && Requests(r.yielded) == r.pushed[..|r.yielded|]
    decreases |events|
  {
    if |events| > 0 {
      StepConserves(run, events[0]);
      PipelineConserves(After(run, events[0]), events[1..]);
    }
  }

  lemma IdleConserves<R>()
    ensures Conserved<R>(Run(Idle(), [], [])) && Idle<R>().retryDelay == 1_000
  {
  }

  // ---- The worker keeps going ----

  /** The worker takes requests until three are in flight or none is left. */
  lemma WorkerFillsUp<R>(s: State<R>)
    requires |s.futures| <= 3
    ensures var r := Receive(Receive(Receive(s)));
            && |r.futures| == Min(3, |s.futures| + |s.inbox|)
            && Started(r.futures) + r.inbox == Started(s.futures) + s.inbox
            && s.futures <= r.futures
            && forall i :: |s.futures| <= i < |r.futures| ==> r.futures[i].fate.Running?
  {
    ReceiveConserves(s);
    ReceiveConserves(Receive(s));
    ReceiveConserves(Receive(Receive(s)));
  }

  /** `n` times in a row the front derivation fails and is taken out. */
  function Failed<R>(s: State<R>, n: nat): State<R>
    requires |s.futures| > 0 && s.futures[0].fate.Running?
    ensures |Failed(s, n).futures| > 0 && Failed(s, n).futures[0].fate.Running?
  {
    if n == 0 then s else Resolve(Settle(Failed(s, n - 1), 0, Failing))
  }

  /**
   A front that keeps failing keeps its place, and the wait before the next try doubles from one
   second to thirty; once it succeeds the wait is one second again.
   */
  lemma {:induction false} FailuresBackOff<R>(s: State<R>, n: nat, result: R)
    requires |s.futures| > 0 && s.futures[0].fate.Running? && s.retryDelay == 1_000
    ensures var r := Failed(s, n);
            && r.futures == s.futures && r.outbox == s.outbox && r.inbox == s.inbox && r.len == s.len
            && r.retryDelay == (if n < 5 then [1_000, 2_000, 4_000, 8_000, 16_000][n] else 30_000)
            && var sent := Resolve(Settle(r, 0, Ready(result)));
               && sent.outbox == s.outbox + [Derived(s.futures[0].request, result)]
               && sent.futures == s.futures[1..] && sent.retryDelay == 1_000
    decreases n
  {
    if n > 0 {
      FailuresBackOff(s, n - 1, result);
      var r := Failed(s, n - 1);
      assert Settle(r, 0, Failing).futures[1..] == s.futures[1..];
      assert [InFlight(s.futures[0].request, Running)] + s.futures[1..] == s.futures;
    }
    assert Settle(Failed(s, n), 0, Ready(result)).futures[1..] == Failed(s, n).futures[1..];
  }

  ghost predicate NoPush<R>(events: seq<Event<R>>) {
    forall i :: 0 <= i < |events| ==> !events[i].Pushed?
  }

  lemma {:induction false} RunOn<R>(run: Run<R>, a: seq<Event<R>>, b: seq<Event<R>>)
    ensures AfterAll(run, a + b) == AfterAll(AfterAll(run, a), b)
    decreases |a|
  {
    if |a| == 0 {
      assert a + b == b;
    } else {
      assert (a + b)[1..] == a[1..] + b;
      RunOn(After(run, a[0]), a[1..], b);
    }
  }

  /** Whatever is queued, at least one more result can be yielded. */
  lemma YieldsOne<R>(run: Run<R>, result: R) returns (events: seq<Event<R>>)
    requires Conserved(run) && |run.yielded| < |run.pushed|
    ensures NoPush(events)
    ensures var r := AfterAll(run, events); Conserved(r) && |r.yielded| == |run.yielded| + 1 && r.pushed == run.pushed
  {
    if |run.state.outbox| > 0 {
      events := [Polled];
    } else if |run.state.futures| > 0 {
      events := FrontIsSent(run, result);
    } else {
      var next := After(run, Received);
      StepConserves(run, Received);
      var rest := FrontIsSent(next, result);
      events := [Received] + rest;
      RunOn(run, [Received], rest);
      assert AfterAll(run, [Received]) == next;
    }
    PipelineConserves(run, events);
  }

  /** The front is derived, again if it failed, sent on and yielded. */
  lemma FrontIsSent<R>(run: Run<R>, result: R) returns (events: seq<Event<R>>)
    requires |run.state.outbox| == 0 && |run.state.futures| > 0
    ensures NoPush(events)
    ensures var r := AfterAll(run, events); |r.yielded| == |run.yielded| + 1 && r.pushed == run.pushed
  {
    match run.state.futures[0].fate {
      case Ready(_) => events := ReadyIsSent(run);
      case Running => events := RunningIsSent(run, result);
      case Failing =>
        var next := After(run, Resolved);
        var rest := RunningIsSent(next, result);
        events := [Resolved] + rest;
        RunOn(run, [Resolved], rest);
        assert AfterAll(run, [Resolved]) == next;
    }
  }

  lemma RunningIsSent<R>(run: Run<R>, result: R) returns (events: seq<Event<R>>)
    requires |run.state.outbox| == 0 && |run.state.futures| > 0 && run.state.futures[0].fate.Running?
    ensures NoPush(events)
    ensures var r := AfterAll(run, events); |r.yielded| == |run.yielded| + 1 && r.pushed == run.pushed
  {
    var first: Event<R> := Settled(0, Ready(result));
    var rest := ReadyIsSent(After(run, first));
    events := [first] + rest;
    assert events[1..] == rest;
  }

  lemma ReadyIsSent<R>(run: Run<R>) returns (events: seq<Event<R>>)
    requires |run.state.outbox| == 0 && |run.state.futures| > 0 && run.state.futures[0].fate.Ready?
    ensures NoPush(events)
    ensures var r := AfterAll(run, events); |r.yielded| == |run.yielded| + 1 && r.pushed == run.pushed
  {
    events := [Resolved, Polled];
    assert events[1..] == [Polled] && events[1..][1..] == [];
  }

  /**
   Nothing gets stuck inside the pipeline: from every reachable state, if derivations succeed, some
   run without further pushes yields every request that was ever pushed and leaves it empty.
   */
  lemma {:induction false} PipelineDrains<R>(run: Run<R>, result: R) returns (events: seq<Event<R>>)
    requires Conserved(run)
    ensures NoPush(events)
    ensures var r := AfterAll(run, events); Requests(r.yielded) == run.pushed && r.state.len == 0 && r.state.futures == []
    decreases |run.pushed| - |run.yielded|
  {
    events := [];
    if |run.yielded| < |run.pushed| {
      var first := YieldsOne(run, result);
      var next := AfterAll(run, first);
      var rest := PipelineDrains(next, result);
      events := first + rest;
      RunOn(run, first, rest);
    } else {
      AllYielded(run);
    }
  }

  lemma AllYielded<R>(run: Run<R>)
    requires Conserved(run) && |run.yielded| >= |run.pushed|
    ensures Requests(run.yielded) == run.pushed && |run.state.futures| == 0
  {
    assert |run.pushed| ==
           |run.yielded| + |run.state.outbox| + |run.state.futures| + |run.state.inbox|;
    assert Requests(run.state.outbox) == [] && Started(run.state.futures) == [];
  }
}
