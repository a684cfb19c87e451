/** The threads that flush descriptors together: one job record under a lock, and
    two condition variables. A stretch of code run with the lock held is one step. */
module Pool {
  const MAX_WORKERS := 64
  const MAX_JOB := 64
  const FLUSHES_PER_CPU := 4

  type Fd = nat
  type Err = int

  /** An fsync that returned: of which descriptor, and what it said. */
  datatype Flush = Flush(fd: Fd, err: Err)

  /** Ready: wants the lock, to look for work. Sleeping: waits for job_ready.
      Flushing: calls fsync, without the lock. Returning: wants the lock, to store
      the result. */
  datatype Worker =
    | Ready
    | Sleeping
    | Flushing(i: nat)
    | Returning(i: nat, err: Err)
    | Exited

  /** Idle: outside the pool. Waiting: waits for job_done. Checking: was woken.
      Joining: in flush_stop. */
  datatype Caller = Idle | Waiting | Checking | Joining

  /** fds and errs are the caller's arrays; they are only valid until it returns.
      takers and results are history: who took each index, and which fsync was done
      for it. */
  datatype Pool = Pool(
    caller: Caller,
    workers: seq<Worker>,
    fds: seq<Fd>,
    errs: seq<Err>,
    n: nat,
    next: nat,
    done: nat,
    stopping: bool,
    takers: seq<nat>,
    results: map<nat, Flush>)

  datatype Step =
    | Grow(n: nat, cpus: nat)         // a thread is created, to flush n descriptors
    | Start(fds: seq<Fd>, errs: seq<Err>)
    | Check                           // the caller has the lock again
    | Work(k: nat)                    // worker k has the lock again
    | Sync(k: nat, err: Err)          // worker k's fsync returns
    | Stop
    | Join
    | WakeWorker(k: nat)              // for no reason
    | WakeCaller                      // for no reason

  const Empty := Pool(Idle, [], [], [], 0, 0, 0, false, [], map[])

  predicate Enabled(s: Pool, t: Step) {
    match t
    case Grow(n, cpus) => s.caller == Idle && n <= MAX_JOB && |s.workers| < Want(n, cpus)
    case Start(fds, errs) => s.caller == Idle && s.workers != [] && fds != [] && |errs| == |fds|
    case Check => s.caller == Checking
    case Work(k) => k < |s.workers| && (s.workers[k].Ready? || s.workers[k].Returning?)
    case Sync(k, _) => k < |s.workers| && s.workers[k].Flushing?
    case Stop => s.caller == Idle
    case Join => s.caller == Joining && forall k :: 0 <= k < |s.workers| ==> s.workers[k] == Exited
    case WakeWorker(k) => k < |s.workers| && s.workers[k] == Sleeping
    case WakeCaller => s.caller == Waiting
  }

  /** flush_want: how many threads n descriptors are worth. */
  function Want(n: nat, cpus: nat): nat {
    var limit := (if cpus < 1 then 1 else cpus) * FLUSHES_PER_CPU;
    if n < limit then n else limit
  }

  predicate Spurious(t: Step) { t.WakeWorker? || t.WakeCaller? }

  function Woken(w: Worker): Worker { if w == Sleeping then Ready else w }

  /** pthread_cond_broadcast(&job_ready) */
  function Broadcast(workers: seq<Worker>): seq<Worker> {
    seq(|workers|, k requires 0 <= k < |workers| => Woken(workers[k]))
  }

  /** Worker k, with the lock: the loop of flush_worker up to where it gives the
      lock away. */
  function LookForWork(s: Pool, k: nat): Pool
    requires k < |s.workers|
  {
    if !s.stopping && s.next >= s.n then s.(workers := s.workers[k := Sleeping])
    else if s.stopping then s.(workers := s.workers[k := Exited])
    else s.(workers := s.workers[k := Flushing(s.next)], next := s.next + 1, takers := s.takers + [k])
  }

  /** The end of flush_take. */
  function StoreResult(s: Pool, i: nat, err: Err): Pool
    requires i < |s.errs|
  {
    var s1 := s.(errs := s.errs[i := err], done := s.done + 1);
    if s1.done == s1.n && s1.caller == Waiting then s1.(caller := Checking) else s1
  }

  /** The caller, with the lock: the loop of flush_threaded. */
  function CheckDone(s: Pool): Pool {
    if s.done < s.n then s.(caller := Waiting) else s.(caller := Idle, n := 0, next := 0)
  }

  function Apply(s: Pool, t: Step): Pool
    requires Inv(s) && Enabled(s, t)
  {
    match t
    case Grow(_, _) => s.(workers := s.workers + [Ready])
    case Start(fds, errs) =>
      CheckDone(s.(fds := fds, errs := errs, n := |fds|, next := 0, done := 0, workers := Broadcast(s.workers), takers := [], results := map[]))
    case Check => CheckDone(s)
    case Work(k) =>
      if s.workers[k].Returning? then
        BusyRunning(s, k);
        LookForWork(StoreResult(s, s.workers[k].i, s.workers[k].err), k)
      else LookForWork(s, k)
    case Sync(k, err) =>
      BusyRunning(s, k);
      var i := s.workers[k].i;
      s.(workers := s.workers[k := Returning(i, err)], results := s.results[i := Flush(s.fds[i], err)])
    case Stop => s.(stopping := true, workers := Broadcast(s.workers), caller := Joining)
    case Join => s.(workers := [], stopping := false, caller := Idle)
    case WakeWorker(k) => s.(workers := s.workers[k := Ready])
    case WakeCaller => s.(caller := Checking)
  }

  /* ----- counting ----- */

  function Sum(workers: seq<Worker>, f: Worker -> nat): nat {
    if workers == [] then 0 else f(workers[0]) + Sum(workers[1..], f)
  }

  lemma {:induction false} SumAppend(a: seq<Worker>, b: seq<Worker>, f: Worker -> nat)
    ensures Sum(a + b, f) == Sum(a, f) + Sum(b, f)
  {
    if a == [] {
      assert a + b == b;
    } else {
      assert (a + b)[1..] == a[1..] + b;
      SumAppend(a[1..], b, f);
    }
  }

  lemma SumUpdate(workers: seq<Worker>, k: nat, w: Worker, f: Worker -> nat)
    requires k < |workers|
    ensures Sum(workers[k := w], f) + f(workers[k]) == Sum(workers, f) + f(w)
  {
    var a, b := workers[..k], workers[k + 1..];
    assert workers == a + ([workers[k]] + b);
    assert workers[k := w] == a + ([w] + b);
    SumAppend(a, [workers[k]] + b, f);
    SumAppend(a, [w] + b, f);
    SumAppend([workers[k]], b, f);
    SumAppend([w], b, f);
  }

  lemma {:induction false} SumSame(a: seq<Worker>, b: seq<Worker>, f: Worker -> nat)
    requires |a| == |b| && forall k :: 0 <= k < |a| ==> f(a[k]) == f(b[k])
    ensures Sum(a, f) == Sum(b, f)
  {
    if a != [] { SumSame(a[1..], b[1..], f); }
  }

  lemma {:induction false} SumAt(workers: seq<Worker>, k: nat, f: Worker -> nat)
    requires k < |workers|
    ensures Sum(workers, f) >= f(workers[k])
  {
    if k > 0 { SumAt(workers[1..], k - 1, f); }
  }

  lemma {:induction false} SumZero(workers: seq<Worker>, f: Worker -> nat)
    requires forall k :: 0 <= k < |workers| ==> f(workers[k]) == 0
    ensures Sum(workers, f) == 0
  {
    if workers != [] { SumZero(workers[1..], f); }
  }

  lemma {:induction false} SumPositive(workers: seq<Worker>, f: Worker -> nat) returns (k: nat)
    requires Sum(workers, f) > 0
    ensures k < |workers| && f(workers[k]) > 0
  {
    if f(workers[0]) > 0 {
      k := 0;
    } else {
      var j := SumPositive(workers[1..], f);
      k := j + 1;
    }
  }

  lemma {:induction false} SumBound(workers: seq<Worker>, f: Worker -> nat, b: nat)
    requires forall k :: 0 <= k < |workers| ==> f(workers[k]) <= b
    ensures Sum(workers, f) <= b * |workers|
  {
    if workers != [] { SumBound(workers[1..], f, b); }
  }

  predicate Busy(w: Worker) { w.Flushing? || w.Returning? }

  function BusyCount(w: Worker): nat { if Busy(w) then 1 else 0 }

  function InFlight(s: Pool): nat { Sum(s.workers, BusyCount) }

  /* ----- the invariant ----- */

  /** Index i is held by a worker that took it and has not stored its result. */
  ghost predicate Held(s: Pool, i: nat) {
    exists k :: 0 <= k < |s.workers| && Busy(s.workers[k]) && s.workers[k].i == i
  }

  ghost predicate WorkersOK(s: Pool) {
    forall k :: 0 <= k < |s.workers| ==> WorkerOK(s, k)
  }

  ghost predicate WorkerOK(s: Pool, k: nat)
    requires k < |s.workers|
  {
    && (Busy(s.workers[k]) ==> var i := s.workers[k].i; i < s.next && i < |s.takers| && s.takers[i] == k)
    && (s.workers[k].Flushing? ==> s.workers[k].i !in s.results)
    && (s.workers[k].Returning? ==> Said(s, s.workers[k].i, s.workers[k].err))
    && (s.workers[k] == Exited ==> s.stopping)
    && (s.workers[k] == Sleeping ==> !s.stopping && s.next >= s.n)
  }

  /** The descriptor at i was flushed, and fsync said err. */
  ghost predicate Said(s: Pool, i: nat, err: Err) {
    i in s.results && i < |s.fds| && s.results[i] == Flush(s.fds[i], err)
  }

  /** Every index that was taken is held, or its result is stored. */
  ghost predicate Stored(s: Pool) {
    && (forall i :: 0 <= i < s.next ==> Held(s, i) || (i < |s.errs| && Said(s, i, s.errs[i])))
    && (forall i :: i in s.results ==> 0 <= i < s.next)
  }

  /** The caller waits for its job. */
  predicate Running(s: Pool) { s.caller == Waiting || s.caller == Checking }

  ghost predicate Inv(s: Pool) {
    && |s.workers| <= MAX_WORKERS
    && |s.errs| == |s.fds| && InFlight(s) == (if Running(s) then s.next - s.done else 0)
    && s.next <= s.n <= |s.fds|
    && WorkersOK(s)
    && (s.stopping <==> s.caller == Joining)
    && match s.caller
       case Idle => s.n == 0
       case Joining => s.n == 0
       case Waiting => s.workers != [] && s.n == |s.fds| && |s.takers| == s.next && s.done < s.n && Stored(s)
       case Checking => s.workers != [] && s.n == |s.fds| && |s.takers| == s.next && Stored(s)
  }

  lemma InvEmpty()
    ensures Inv(Empty)
  {}

  /* ----- each step keeps it ----- */

  /** A worker that holds the lock and nothing else. */
  lemma LookKeeps(s: Pool, k: nat)
    requires k < |s.workers| <= MAX_WORKERS && !Busy(s.workers[k])
    requires |s.errs| == |s.fds| && s.next <= s.n <= |s.fds| && WorkersOK(s) && (s.stopping <==> s.caller == Joining)
    requires Running(s) ==> s.n == |s.fds| && |s.takers| == s.next && Stored(s) && (s.caller == Waiting ==> s.done < s.n)
    requires InFlight(s) == (if Running(s) then s.next - s.done else 0)
    requires !Running(s) ==> s.n == 0
    ensures Inv(LookForWork(s, k))
  {
    var s' := LookForWork(s, k);
    SumUpdate(s.workers, k, s'.workers[k], BusyCount);
    forall j | 0 <= j < |s'.workers| ensures WorkerOK(s', j) {
      assert WorkerOK(s, j);
    }
    if Running(s) { LookStored(s, k); }
  }

  lemma LookStored(s: Pool, k: nat)
    requires k < |s.workers| && !Busy(s.workers[k]) && Stored(s) && s.next <= s.n <= |s.errs| && |s.takers| == s.next
    ensures LookForWork(s, k).next <= |s.errs| && Stored(LookForWork(s, k))
  {
    var s' := LookForWork(s, k);
    forall i | 0 <= i < s'.next ensures Held(s', i) || (i < |s'.errs| && Said(s', i, s'.errs[i])) {
      if i == s.next {
        assert s'.workers[k] == Flushing(i);
      } else if Held(s, i) {
        StillHeld(s, s', k, i);
      }
    }
  }

  lemma StillHeld(s: Pool, s': Pool, k: nat, i: nat)
    requires Held(s, i) && |s'.workers| == |s.workers| && k < |s.workers| && (Busy(s.workers[k]) ==> s.workers[k].i != i)
    requires forall j :: 0 <= j < |s.workers| && j != k ==> s'.workers[j] == s.workers[j]
    ensures Held(s', i)
  {
    var j :| 0 <= j < |s.workers| && Busy(s.workers[j]) && s.workers[j].i == i;
    assert s'.workers[j] == s.workers[j];
  }

  /** The worker as it is once its result is stored, before it looks further. */
  function Freed(s: Pool, k: nat): Pool
    requires k < |s.workers| && s.workers[k].Returning? && s.workers[k].i < |s.errs|
  {
    StoreResult(s, s.workers[k].i, s.workers[k].err).(workers := s.workers[k := Ready])
  }

  lemma FreedStored(s: Pool, k: nat)
    requires Inv(s) && k < |s.workers| && s.workers[k].Returning? && Running(s)
    ensures s.workers[k].i < |s.errs| && Stored(Freed(s, k))
  {
    assert WorkerOK(s, k);
    var s' := Freed(s, k);
    var own := s.workers[k].i;
    forall i | 0 <= i < s'.next ensures Held(s', i) || (i < |s'.errs| && Said(s', i, s'.errs[i])) {
      if i != own && Held(s, i) { StillHeld(s, s', k, i); }
    }
  }

  lemma BusyRunning(s: Pool, k: nat)
    requires Inv(s) && k < |s.workers| && Busy(s.workers[k])
    ensures Running(s)
    ensures s.workers[k].i < |s.errs| && s.workers[k].i < |s.fds|
  {
    SumAt(s.workers, k, BusyCount);
    assert WorkerOK(s, k);
  }

  lemma WorkKeeps(s: Pool, k: nat)
    requires Inv(s) && Enabled(s, Work(k))
    ensures s.workers[k].Returning? ==> s.workers[k].i < |s.errs|
    ensures Inv(Apply(s, Work(k)))
  {
    if s.workers[k].Returning? {
      BusyRunning(s, k);
      FreedStored(s, k);
      var s1 := Freed(s, k);
      SumUpdate(s.workers, k, Ready, BusyCount);
      SumAt(s.workers, k, BusyCount);
      forall j | 0 <= j < |s1.workers| ensures WorkerOK(s1, j) {
        assert WorkerOK(s, j);
      }
      LookKeeps(s1, k);
      FreedLook(s, k);
    } else {
      LookKeeps(s, k);
    }
  }

  lemma FreedLook(s: Pool, k: nat)
    requires k < |s.workers| && s.workers[k].Returning? && s.workers[k].i < |s.errs|
    ensures LookForWork(StoreResult(s, s.workers[k].i, s.workers[k].err), k) == LookForWork(Freed(s, k), k)
  {
    assert s.workers[k := Ready][k := Sleeping] == s.workers[k := Sleeping];
    assert s.workers[k := Ready][k := Exited] == s.workers[k := Exited];
    assert s.workers[k := Ready][k := Flushing(s.next)] == s.workers[k := Flushing(s.next)];
  }

  lemma SyncKeeps(s: Pool, k: nat, err: Err)
    requires Inv(s) && Enabled(s, Sync(k, err))
    ensures Inv(Apply(s, Sync(k, err)))
  {
    BusyRunning(s, k);
    assert WorkerOK(s, k);
    var s' := Apply(s, Sync(k, err));
    SumUpdate(s.workers, k, s'.workers[k], BusyCount);
    forall j | 0 <= j < |s'.workers| ensures WorkerOK(s', j) {
      assert WorkerOK(s, j);
    }
    forall i | 0 <= i < s'.next ensures Held(s', i) || (i < |s'.errs| && Said(s', i, s'.errs[i])) {
      if i == s.workers[k].i {
        assert Busy(s'.workers[k]) && s'.workers[k].i == i;
      } else if Held(s, i) {
        StillHeld(s, s', k, i);
      }
    }
  }

  lemma BroadcastFacts(workers: seq<Worker>)
    ensures Sum(Broadcast(workers), BusyCount) == Sum(workers, BusyCount)
    ensures |Broadcast(workers)| == |workers|
    ensures forall k :: 0 <= k < |workers| ==> Broadcast(workers)[k] == Woken(workers[k])
  {
    SumSame(Broadcast(workers), workers, BusyCount);
  }

  lemma NoneBusy(s: Pool)
    requires Inv(s) && !Running(s)
    ensures forall k :: 0 <= k < |s.workers| ==> !Busy(s.workers[k])
  {
    forall k | 0 <= k < |s.workers| ensures !Busy(s.workers[k]) {
      SumAt(s.workers, k, BusyCount);
    }
  }

  lemma StartKeeps(s: Pool, fds: seq<Fd>, errs: seq<Err>)
    requires Inv(s) && Enabled(s, Start(fds, errs))
    ensures Inv(Apply(s, Start(fds, errs)))
  {
    NoneBusy(s);
    BroadcastFacts(s.workers);
    var s' := Apply(s, Start(fds, errs));
    forall j | 0 <= j < |s'.workers| ensures WorkerOK(s', j) {
      assert WorkerOK(s, j);
    }
  }

  lemma StopKeeps(s: Pool)
    requires Inv(s) && Enabled(s, Stop)
    ensures Inv(Apply(s, Stop))
  {
    NoneBusy(s);
    BroadcastFacts(s.workers);
    var s' := Apply(s, Stop);
    forall j | 0 <= j < |s'.workers| ensures WorkerOK(s', j) {
      assert WorkerOK(s, j);
    }
  }

  lemma GrowKeeps(s: Pool, n: nat, cpus: nat)
    requires Inv(s) && Enabled(s, Grow(n, cpus))
    ensures Inv(Apply(s, Grow(n, cpus)))
  {
    SumAppend(s.workers, [Ready], BusyCount);
    var s' := Apply(s, Grow(n, cpus));
    forall j | 0 <= j < |s'.workers| ensures WorkerOK(s', j) {
      if j < |s.workers| { assert WorkerOK(s, j); }
    }
  }

  lemma WakeKeeps(s: Pool, k: nat)
    requires Inv(s) && Enabled(s, WakeWorker(k))
    ensures Inv(Apply(s, WakeWorker(k)))
  {
    SumUpdate(s.workers, k, Ready, BusyCount);
    var s' := Apply(s, WakeWorker(k));
    forall j | 0 <= j < |s'.workers| ensures WorkerOK(s', j) {
      assert WorkerOK(s, j);
    }
    if Running(s) {
      forall i | 0 <= i < s'.next ensures Held(s', i) || (i < |s'.errs| && Said(s', i, s'.errs[i])) {
        if Held(s, i) { StillHeld(s, s', k, i); }
      }
    }
  }

  lemma CheckKeeps(s: Pool)
    requires Inv(s) && Enabled(s, Check)
    ensures Inv(Apply(s, Check))
  {
    var s' := Apply(s, Check);
    forall j | 0 <= j < |s'.workers| ensures WorkerOK(s', j) {
      assert WorkerOK(s, j);
      if !Running(s') && Busy(s.workers[j]) { SumAt(s.workers, j, BusyCount); }
    }
    assert s'.workers == s.workers;
    if Running(s') {
      forall i | 0 <= i < s'.next ensures Held(s', i) || (i < |s'.errs| && Said(s', i, s'.errs[i])) {
        if Held(s, i) { SameHeld(s, s', i); }
      }
    }
  }

  lemma SameHeld(s: Pool, s': Pool, i: nat)
    requires Held(s, i) && s'.workers == s.workers
    ensures Held(s', i)
  {}

  lemma WakeCallerKeeps(s: Pool)
    requires Inv(s) && Enabled(s, WakeCaller)
    ensures Inv(Apply(s, WakeCaller))
  {
    var s' := Apply(s, WakeCaller);
    forall j | 0 <= j < |s'.workers| ensures WorkerOK(s', j) {
      assert WorkerOK(s, j);
    }
    forall i | 0 <= i < s'.next ensures Held(s', i) || (i < |s'.errs| && Said(s', i, s'.errs[i])) {
      if Held(s, i) { SameHeld(s, s', i); }
    }
  }

  lemma StepKeeps(s: Pool, t: Step)
    requires Inv(s) && Enabled(s, t)
    ensures Inv(Apply(s, t))
  {
    hide Inv, Enabled, Apply;
    match t
    case Grow(n, cpus) => GrowKeeps(s, n, cpus);
    case Start(fds, errs) => StartKeeps(s, fds, errs);
    case Check => CheckKeeps(s);
    case Work(k) => WorkKeeps(s, k);
    case Sync(k, err) => SyncKeeps(s, k, err);
    case Stop => StopKeeps(s);
    case Join => JoinKeeps(s);
    case WakeWorker(k) => WakeKeeps(s, k);
    case WakeCaller => WakeCallerKeeps(s);
  }

  lemma JoinKeeps(s: Pool)
    requires Inv(s) && Enabled(s, Join)
    ensures Inv(Apply(s, Join))
  {}

  /* ----- runs ----- */

  /** The states of a run, whatever the order in which the threads get the lock. */
  ghost predicate Reaches(s: Pool, steps: seq<Step>, s': Pool)
    requires Inv(s)
    decreases |steps|
  {
    if steps == [] then s' == s
    else Enabled(s, steps[0]) && (StepKeeps(s, steps[0]); Reaches(Apply(s, steps[0]), steps[1..], s'))
  }

  lemma {:induction false} RunKeeps(s: Pool, steps: seq<Step>, s': Pool)
    requires Inv(s) && Reaches(s, steps, s')
    ensures Inv(s')
    decreases |steps|
  {
    hide Inv, Apply, Enabled;
    if steps != [] {
      StepKeeps(s, steps[0]);
      RunKeeps(Apply(s, steps[0]), steps[1..], s');
    }
  }

  /** One fsync was done of each descriptor, and errs has what each said. */
  ghost predicate Answered(fds: seq<Fd>, errs: seq<Err>, results: map<nat, Flush>) {
    && |errs| == |fds|
    && (forall i :: i in results <==> 0 <= i < |fds|)
    && (forall i :: 0 <= i < |fds| ==> results[i] == Flush(fds[i], errs[i]))
  }

  /** What flush_fds does without threads: one fsync after the other. */
  method FlushInOrder(fds: seq<Fd>) returns (errs: seq<Err>, results: map<nat, Flush>)
    ensures Answered(fds, errs, results)
  {
    errs, results := [], map[];
    var i := 0;
    while i < |fds|
      invariant 0 <= i <= |fds| && Answered(fds[..i], errs, results)
    {
      var err: Err := *;
      errs, results := errs + [err], results[i := Flush(fds[i], err)];
      i := i + 1;
    }
    assert fds[..i] == fds;
  }

  /** A state that some run from the start comes to. */
  ghost predicate Reachable(s: Pool) {
    InvEmpty();
    exists steps :: Reaches(Empty, steps, s)
  }

  lemma ReachableInv(s: Pool)
    requires Reachable(s)
    ensures Inv(s)
  {
    InvEmpty();
    var steps :| Reaches(Empty, steps, s);
    RunKeeps(Empty, steps, s);
  }

  /** While a job runs: the indices below next were each taken once, by the worker
      on record; those not in flight have their result stored; each fsync in
      flight is the first and only one for its index. */
  lemma TakenOnce(s: Pool)
    requires Reachable(s) && Running(s)
    ensures s.done + InFlight(s) == s.next == |s.takers| <= s.n == |s.fds| == |s.errs|
    ensures forall k :: 0 <= k < |s.workers| && Busy(s.workers[k]) ==> s.workers[k].i < s.next && s.takers[s.workers[k].i] == k
    ensures forall j, k :: 0 <= j < k < |s.workers| && Busy(s.workers[j]) && Busy(s.workers[k]) ==> s.workers[j].i != s.workers[k].i
    ensures forall i :: 0 <= i < s.next && !Held(s, i) ==> i in s.results && s.results[i] == Flush(s.fds[i], s.errs[i])
    ensures forall k :: 0 <= k < |s.workers| && s.workers[k].Flushing? ==> s.workers[k].i !in s.results
  {
    ReachableInv(s);
    forall k | 0 <= k < |s.workers|
      ensures Busy(s.workers[k]) ==> s.workers[k].i < s.next && s.takers[s.workers[k].i] == k
      ensures s.workers[k].Flushing? ==> s.workers[k].i !in s.results
    {
      assert WorkerOK(s, k);
    }
  }

  /** A worker touches the caller's arrays only while the caller is still there. */
  lemma ArraysAlive(s: Pool, t: Step)
    requires Reachable(s) && Enabled(s, t)
    requires t.Sync? || (t.Work? && s.workers[t.k].Returning?)
    ensures Running(s) && s.workers[t.k].i < |s.fds| == |s.errs|
  {
    ReachableInv(s);
    BusyRunning(s, t.k);
  }

  /** flush_threaded returns what the loop without threads would. */
  lemma ReturnsAll(s: Pool)
    requires Reachable(s) && s.caller == Checking && CheckDone(s).caller == Idle
    ensures Answered(s.fds, s.errs, s.results) && |s.takers| == |s.fds|
    ensures forall k :: 0 <= k < |s.workers| ==> !Busy(s.workers[k])
  {
    ReachableInv(s);
    forall k | 0 <= k < |s.workers| ensures !Busy(s.workers[k]) {
      SumAt(s.workers, k, BusyCount);
    }
    forall i: nat | i < |s.fds| ensures i in s.results && s.results[i] == Flush(s.fds[i], s.errs[i]) {
      assert !Held(s, i);
      assert Said(s, i, s.errs[i]);
    }
  }

  /** The threads never outnumber the array that names them. */
  lemma WorkersFit(s: Pool)
    requires Reachable(s)
    ensures |s.workers| <= MAX_WORKERS
  {
    ReachableInv(s);
  }

  /* ----- progress ----- */

  predicate Inner(t: Step) { t.Check? || t.Work? || t.Sync? || t.Join? }

  /** A step that brings the caller nearer to its return. */
  ghost predicate CanGoOn(s: Pool) {
    exists t :: Enabled(s, t) && Inner(t)
  }

  lemma Idlers(s: Pool)
    requires Inv(s) && s.workers != [] && InFlight(s) == 0 && (s.stopping || s.next < s.n)
    ensures s.workers[0] == Ready || (s.stopping && s.workers[0] == Exited)
  {
    SumAt(s.workers, 0, BusyCount);
    assert WorkerOK(s, 0);
  }

  /** No wakeup is lost: while a job is not over, or threads are to be joined, a
      step other than a spurious wakeup is possible. */
  lemma NeverStuck(s: Pool)
    requires Reachable(s) && s.caller != Idle
    ensures CanGoOn(s)
  {
    ReachableInv(s);
    if s.caller == Checking {
      assert Enabled(s, Check) && Inner(Check);
    } else if s.caller == Waiting {
      if InFlight(s) > 0 {
        var k := SumPositive(s.workers, BusyCount);
        if s.workers[k].Flushing? {
          assert Enabled(s, Sync(k, 0)) && Inner(Sync(k, 0));
        } else {
          assert Enabled(s, Work(k)) && Inner(Work(k));
        }
      } else {
        Idlers(s);
        assert Enabled(s, Work(0)) && Inner(Work(0));
      }
    } else {
      JoinGoesOn(s);
    }
  }

  lemma JoinGoesOn(s: Pool)
    requires Inv(s) && s.caller == Joining
    ensures CanGoOn(s)
  {
    NoneBusy(s);
    if forall k :: 0 <= k < |s.workers| ==> s.workers[k] == Exited {
      assert Enabled(s, Join) && Inner(Join);
    } else {
      var k :| 0 <= k < |s.workers| && s.workers[k] != Exited;
      assert WorkerOK(s, k);
      assert Enabled(s, Work(k)) && Inner(Work(k));
    }
  }

  function WorkerRank(w: Worker): nat {
    match w
    case Ready => 1
    case Sleeping => 0
    case Flushing(_) => 3
    case Returning(_, _) => 2
    case Exited => 0
  }

  function CallerRank(c: Caller): nat {
    match c
    case Idle => 0
    case Waiting => 1
    case Checking => 2
    case Joining => 1
  }

  /** What is left to do. */
  function Rank(s: Pool): nat
    requires s.next <= s.n
  {
    3 * (s.n - s.next) + Sum(s.workers, WorkerRank) + CallerRank(s.caller)
  }

  lemma LookRank(s: Pool, k: nat)
    requires k < |s.workers| && s.workers[k] == Ready && s.next <= s.n
    ensures LookForWork(s, k).next <= LookForWork(s, k).n && Rank(LookForWork(s, k)) < Rank(s)
  {
    SumUpdate(s.workers, k, LookForWork(s, k).workers[k], WorkerRank);
  }

  lemma WorkRank(s: Pool, k: nat)
    requires Inv(s) && Enabled(s, Work(k))
    ensures Inv(Apply(s, Work(k))) && Rank(Apply(s, Work(k))) < Rank(s)
  {
    WorkKeeps(s, k);
    if s.workers[k].Returning? {
      BusyRunning(s, k);
      FreedLook(s, k);
      SumUpdate(s.workers, k, Ready, WorkerRank);
      var s1 := Freed(s, k);
      if s1.caller != s.caller {
        AllDone(s, k);
        SumUpdate(s.workers, k, Sleeping, WorkerRank);
      } else {
        LookRank(s1, k);
      }
    } else {
      LookRank(s, k);
    }
  }

  /** The last result of a job finds nothing left to take. */
  lemma AllDone(s: Pool, k: nat)
    requires Inv(s) && k < |s.workers| && s.workers[k].Returning? && Running(s) && s.done + 1 == s.n
    ensures s.next == s.n && !s.stopping
  {
    SumAt(s.workers, k, BusyCount);
  }

  lemma {:induction false} InnerRank(s: Pool, t: Step)
    requires Inv(s) && Enabled(s, t) && Inner(t)
    ensures Inv(Apply(s, t)) && Rank(Apply(s, t)) < Rank(s)
  {
    StepKeeps(s, t);
    match t
    case Check =>
    case Work(k) => WorkRank(s, k);
    case Sync(k, err) => SumUpdate(s.workers, k, Returning(s.workers[k].i, err), WorkerRank);
    case Join =>
  }

  lemma SpuriousRank(s: Pool, t: Step)
    requires Inv(s) && Enabled(s, t) && Spurious(t)
    ensures Inv(Apply(s, t)) && Rank(Apply(s, t)) == Rank(s) + 1
  {
    StepKeeps(s, t);
    if t.WakeWorker? { SumUpdate(s.workers, t.k, Ready, WorkerRank); }
  }

  function Wakeups(steps: seq<Step>): nat {
    if steps == [] then 0 else (if Spurious(steps[0]) then 1 else 0) + Wakeups(steps[1..])
  }

  /** However the threads are scheduled, a call is over after that many steps. */
  lemma {:induction false} RunBound(s: Pool, steps: seq<Step>, s': Pool)
    requires Inv(s) && Reaches(s, steps, s')
    requires forall i :: 0 <= i < |steps| ==> Inner(steps[i]) || Spurious(steps[i])
    ensures |steps| <= Rank(s) + 2 * Wakeups(steps)
    decreases |steps|
  {
    hide Inv, Apply, Enabled, Rank, Inner, Spurious;
    if steps != [] {
      var t := steps[0];
      StepKeeps(s, t);
      assert forall i :: 0 <= i < |steps[1..]| ==> steps[1..][i] == steps[i + 1];
      RunBound(Apply(s, t), steps[1..], s');
      assert Wakeups(steps) == (if Spurious(t) then 1 else 0) + Wakeups(steps[1..]);
      if Inner(t) { InnerRank(s, t); } else { SpuriousRank(s, t); }
    }
  }

  /** For a job of n descriptors, with W threads: 3n + 3W + 2 and no more. */
  lemma JobBound(s: Pool, fds: seq<Fd>, errs: seq<Err>)
    requires Inv(s) && Enabled(s, Start(fds, errs))
    ensures Inv(Apply(s, Start(fds, errs))) && Rank(Apply(s, Start(fds, errs))) <= 3 * |fds| + 3 * |s.workers| + 2
  {
    StepKeeps(s, Start(fds, errs));
    BroadcastFacts(s.workers);
    SumBound(Broadcast(s.workers), WorkerRank, 3);
  }
}
