/**
 * Double-buffered dispatch: any number of workers share a task queue, and each overlaps the kernel on one half of its
 * device buffer with the copies into the other half.
 */
module DoubleBuffers {
  import opened QueryGraphs

  // ----- states -----

  /** Operations queued on the stream of one half; the stream carries them out in order, at any later time. */
  datatype DevOp = PutData(task: nat) | PutHeader | RunKernel | GetCounter

  /** Half of a device buffer with its stream: whose header and whose shards it holds, and the counter in the header. */
  datatype Half = Half(ops: seq<DevOp>, header: nat, data: nat, counter: nat)

  datatype Pc = Take | Fill | WaitFirst | Launch | TakeNext | FillNext | Fetch | SyncOther | SyncOwn | AddTotal | Done

  /** A worker: mine is the half of the current kernel; the roles of the halves swap from kernel to kernel. */
  datatype Worker = Worker(pc: Pc, cur: nat, next: Option<nat>, host: nat, mine: Half, other: Half, fetched: nat)

  /** launched and added record the tasks whose kernel was launched and whose counter was added. */
  datatype System = System(queue: seq<nat>, workers: seq<Worker>, total: nat, launched: seq<nat>, added: seq<nat>)

  // ----- steps -----

  /** What the stream of a half does next; host is the header in host memory, result what a kernel counts. */
  function Execute(h: Half, host: nat, result: (nat, nat) -> nat): Half
    requires h.ops != []
  {
    match h.ops[0]
    case PutData(t) => Half(h.ops[1..], h.header, t, h.counter)
    case PutHeader => Half(h.ops[1..], host, h.data, 0)
    case RunKernel => Half(h.ops[1..], h.header, h.data, h.counter + result(h.header, h.data))
    case GetCounter => h.(ops := h.ops[1..])
  }

  /** One asynchronous step of a worker's device. */
  function DeviceStep(w: Worker, onMine: bool, result: (nat, nat) -> nat): Worker
    requires if onMine then w.mine.ops != [] else w.other.ops != []
  {
    if onMine then
      w.(mine := Execute(w.mine, w.host, result), fetched := if w.mine.ops[0].GetCounter? then w.mine.counter
          else w.fetched)
    else
      w.(other := Execute(w.other, w.host, result), fetched := if w.other.ops[0].GetCounter? then w.other.counter
          else w.fetched)
  }

  function Enqueue(h: Half, ops: seq<DevOp>): Half {
    h.(ops := h.ops + ops)
  }

  /** The worker need not wait for a stream. */
  predicate Enabled(w: Worker) {
    match w.pc
    case WaitFirst => w.mine.ops == []
    case SyncOther => w.other.ops == []
    case SyncOwn => w.mine.ops == []
    case Done => false
    case _ => true
  }

  /** The worker's next host step, given the queue. */
  function HostStep(w: Worker, queue: seq<nat>): Worker
    requires Enabled(w)
  {
    match w.pc
    case Take => if queue == [] then w.(pc := Done) else w.(pc := Fill, cur := queue[0])
    case Fill => w.(pc := WaitFirst, host := w.cur, mine := Enqueue(w.mine, [PutData(w.cur), PutHeader]))
    case WaitFirst => w.(pc := Launch)
    case Launch => w.(pc := TakeNext, fetched := 0, mine := Enqueue(w.mine, [RunKernel]))
    case TakeNext => w.(pc := FillNext, next := if queue == [] then None else Some(queue[0]))
    case FillNext =>
      if w.next.None? then w.(pc := Fetch)
      else w.(pc := Fetch, host := w.next.value, other := Enqueue(w.other, [PutData(w.next.value), PutHeader]))
    case Fetch => w.(pc := SyncOther, mine := Enqueue(w.mine, [GetCounter]))
    case SyncOther => w.(pc := SyncOwn)
    case SyncOwn => w.(pc := AddTotal)
    case AddTotal =>
      if w.next.None? then w.(pc := Done)
      else w.(pc := Launch, cur := w.next.value, next := None, mine := w.other, other := w.mine)
  }

  function Pops(w: Worker): bool {
    w.pc.Take? || w.pc.TakeNext?
  }

  ghost predicate HostMoves(s: System, s': System, i: nat) {
    && i < |s.workers| && Enabled(s.workers[i])
    && var w := s.workers[i];
       s' == System(
               if Pops(w) && s.queue != [] then s.queue[1..] else s.queue,
               s.workers[i := HostStep(w, s.queue)],
               if w.pc.AddTotal? then s.total + w.fetched else s.total,
               if w.pc.Launch? then s.launched + [w.cur] else s.launched,
               if w.pc.AddTotal? then s.added + [w.cur] else s.added)
  }

  ghost predicate DeviceMoves(s: System, s': System, i: nat, onMine: bool, result: (nat, nat) -> nat) {
    && i < |s.workers|
    && var w := s.workers[i];
       && (if onMine then w.mine.ops != [] else w.other.ops != [])
       && s' == s.(workers := s.workers[i := DeviceStep(w, onMine, result)])
  }

  ghost predicate Next(s: System, s': System, result: (nat, nat) -> nat) {
    || (exists i: nat :: HostMoves(s, s', i))
    || (exists i: nat, onMine: bool :: DeviceMoves(s, s', i, onMine, result))
  }

  ghost predicate Initial(s: System, tasks: seq<nat>) {
    && s.queue == tasks && s.total == 0 && s.launched == [] && s.added == []
    && forall i {:trigger s.workers[i]} :: 0 <= i < |s.workers| ==>
         s.workers[i].pc.Take? && s.workers[i].next.None? && s.workers[i].mine.ops == [] && s.workers[i].other.ops == []
  }

  // ----- what holds of one worker -----

  /** The half holds task t, its kernel not started. */
  predicate Loaded(h: Half, t: nat) {
    h.data == t && h.header == t && h.counter == 0
  }

  predicate Loading(h: Half, t: nat, host: nat) {
    && host == t
    && (h.ops == [PutData(t), PutHeader] || (h.ops == [PutHeader] && h.data == t) || (h.ops == [] && Loaded(h, t)))
  }

  predicate Running(h: Half, t: nat, result: (nat, nat) -> nat) {
    (h.ops == [RunKernel] && Loaded(h, t)) || (h.ops == [] && h.counter == result(t, t))
  }

  predicate Fetching(h: Half, t: nat, fetched: nat, result: (nat, nat) -> nat) {
    || (h.ops == [RunKernel, GetCounter] && Loaded(h, t))
    || (h.ops == [GetCounter] && h.counter == result(t, t))
    || (h.ops == [] && fetched == result(t, t))
  }

  predicate OtherLoading(w: Worker) {
    if w.next.None? then w.other.ops == [] else Loading(w.other, w.next.value, w.host)
  }

  predicate OtherLoaded(w: Worker) {
    w.other.ops == [] && (w.next.Some? ==> Loaded(w.other, w.next.value))
  }

  predicate WorkerOk(w: Worker, result: (nat, nat) -> nat) {
    match w.pc
    case Take => w.mine.ops == [] && w.other.ops == [] && w.next.None?
    case Fill => w.mine.ops == [] && w.other.ops == [] && w.next.None?
    case WaitFirst => Loading(w.mine, w.cur, w.host) && w.other.ops == [] && w.next.None?
    case Launch => w.mine.ops == [] && Loaded(w.mine, w.cur) && w.other.ops == [] && w.next.None?
    case TakeNext => Running(w.mine, w.cur, result) && w.other.ops == [] && w.next.None?
    case FillNext => Running(w.mine, w.cur, result) && w.other.ops == []
    case Fetch => Running(w.mine, w.cur, result) && OtherLoading(w)
    case SyncOther => Fetching(w.mine, w.cur, w.fetched, result) && OtherLoading(w)
    case SyncOwn => Fetching(w.mine, w.cur, w.fetched, result) && OtherLoaded(w)
    case AddTotal => w.mine.ops == [] && w.fetched == result(w.cur, w.cur) && OtherLoaded(w)
    case Done => w.mine.ops == [] && w.other.ops == []
  }

  lemma {:induction false} HostKeepsWorker(w: Worker, queue: seq<nat>, result: (nat, nat) -> nat)
    requires Enabled(w) && WorkerOk(w, result)
    ensures WorkerOk(HostStep(w, queue), result)
  {
  }

  lemma {:induction false} DeviceKeepsWorker(w: Worker, onMine: bool, result: (nat, nat) -> nat)
    requires WorkerOk(w, result) && if onMine then w.mine.ops != [] else w.other.ops != []
    ensures WorkerOk(DeviceStep(w, onMine, result), result)
  {
  }

  /**
   * When a worker rewrites its host header, no copy from it is under way; when it queues copies into a half or a kernel
   * on it, nothing queued before still uses that half.
   */
  lemma {:induction false} NothingInFlight(w: Worker, result: (nat, nat) -> nat)
    requires WorkerOk(w, result)
    ensures w.pc.Fill? || w.pc.FillNext? ==> PutHeader !in w.mine.ops && PutHeader !in w.other.ops
    ensures w.pc.Fill? || w.pc.Launch? ==> w.mine.ops == []
    ensures w.pc.FillNext? ==> w.other.ops == []
  {
  }

  // ----- what holds of the system -----

  /** How often a task occurs among those the worker has taken and not finished. */
  function InHand(w: Worker, t: nat): nat {
    if w.pc.Take? || w.pc.Done? then 0
    else (if w.cur == t then 1 else 0) + if w.next == Some(t) then 1 else 0
  }

  /** The kernel of the worker's current task has been launched, its counter not been added. */
  predicate HasLaunched(w: Worker) {
    w.pc.TakeNext? || w.pc.FillNext? || w.pc.Fetch? || w.pc.SyncOther? || w.pc.SyncOwn? || w.pc.AddTotal?
  }

  function InFlight(w: Worker, t: nat): nat {
    if HasLaunched(w) && w.cur == t then 1 else 0
  }

  function AllInHand(ws: seq<Worker>, t: nat): nat {
    if ws == [] then 0 else AllInHand(ws[..|ws| - 1], t) + InHand(ws[|ws| - 1], t)
  }

  function AllInFlight(ws: seq<Worker>, t: nat): nat {
    if ws == [] then 0 else AllInFlight(ws[..|ws| - 1], t) + InFlight(ws[|ws| - 1], t)
  }

  lemma {:induction false} OneWorkerMoves(ws: seq<Worker>, i: nat, w: Worker, t: nat)
    requires i < |ws|
    ensures AllInHand(ws[i := w], t) + InHand(ws[i], t) == AllInHand(ws, t) + InHand(w, t)
    ensures AllInFlight(ws[i := w], t) + InFlight(ws[i], t) == AllInFlight(ws, t) + InFlight(w, t)
    decreases |ws|
  {
    var last := |ws| - 1;
    if i == last {
      assert ws[i := w][..last] == ws[..last];
    } else {
      OneWorkerMoves(ws[..last], i, w, t);
      assert ws[i := w][..last] == ws[..last][i := w];
    }
  }

  lemma {:induction false} NothingInHand(ws: seq<Worker>, t: nat)
    requires forall i {:trigger ws[i]} :: 0 <= i < |ws| ==> ws[i].pc.Take? || ws[i].pc.Done?
    ensures AllInHand(ws, t) == 0 && AllInFlight(ws, t) == 0
    decreases |ws|
  {
    if ws != [] {
      NothingInHand(ws[..|ws| - 1], t);
    }
  }

  /** How often t occurs. */
  function Times(tasks: seq<nat>, t: nat): nat {
    if tasks == [] then 0 else Times(tasks[..|tasks| - 1], t) + if tasks[|tasks| - 1] == t then 1 else 0
  }

  lemma {:induction false} TimesSnoc(tasks: seq<nat>, x: nat, t: nat)
    ensures Times(tasks + [x], t) == Times(tasks, t) + if x == t then 1 else 0
  {
    assert (tasks + [x])[..|tasks|] == tasks;
  }

  lemma {:induction false} TimesCut(tasks: seq<nat>, j: nat, t: nat)
    requires j < |tasks|
    ensures Times(tasks, t) == Times(tasks[..j] + tasks[j + 1..], t) + if tasks[j] == t then 1 else 0
    decreases |tasks|
  {
    var last := |tasks| - 1;
    var rest := tasks[..j] + tasks[j + 1..];
    if j == last {
      assert rest == tasks[..last];
    } else {
      TimesCut(tasks[..last], j, t);
      assert rest[..|rest| - 1] == tasks[..last][..j] + tasks[..last][j + 1..];
    }
  }

  /** What the kernels of the tasks count. */
  function SumOf(tasks: seq<nat>, result: (nat, nat) -> nat): nat {
    if tasks == [] then 0 else SumOf(tasks[..|tasks| - 1], result) + result(tasks[|tasks| - 1], tasks[|tasks| - 1])
  }

  /**
   * Every task is queued, in some worker's hands, or added, once; every launched kernel is in flight or added, once.
   */
  ghost predicate Accounted(s: System, tasks: seq<nat>, t: nat) {
    && Times(s.queue, t) + AllInHand(s.workers, t) + Times(s.added, t) == Times(tasks, t)
    && Times(s.launched, t) == AllInFlight(s.workers, t) + Times(s.added, t)
  }

  /** The worker has found the queue empty. */
  predicate SawEnd(w: Worker) {
    w.pc.Done? || (HasLaunched(w) && !w.pc.TakeNext? && w.next.None?)
  }

  ghost predicate WorkerAt(s: System, i: nat, result: (nat, nat) -> nat) {
    i < |s.workers| ==> WorkerOk(s.workers[i], result) && (SawEnd(s.workers[i]) ==> s.queue == [])
  }

  ghost predicate Inv(s: System, tasks: seq<nat>, result: (nat, nat) -> nat) {
    && (forall i: nat {:trigger WorkerAt(s, i, result)} :: WorkerAt(s, i, result))
    && (forall t: nat {:trigger Accounted(s, tasks, t)} :: Accounted(s, tasks, t))
    && s.total == SumOf(s.added, result)
  }

  lemma {:induction false} InitialInv(s: System, tasks: seq<nat>, result: (nat, nat) -> nat)
    requires Initial(s, tasks)
    ensures Inv(s, tasks, result)
  {
    forall t: nat
      ensures Accounted(s, tasks, t)
    {
      NothingInHand(s.workers, t);
    }
    forall i: nat
      ensures WorkerAt(s, i, result)
    {
    }
  }

  lemma {:induction false} SumSnoc(tasks: seq<nat>, t: nat, result: (nat, nat) -> nat)
    ensures SumOf(tasks + [t], result) == SumOf(tasks, result) + result(t, t)
  {
    assert (tasks + [t])[..|tasks|] == tasks;
  }

  /** What one host step does to the tasks in hand and in flight. */
  lemma {:induction false} HostAccounts(w: Worker, queue: seq<nat>, result: (nat, nat) -> nat, t: nat)
    requires Enabled(w) && WorkerOk(w, result)
    ensures
      var w' := HostStep(w, queue);
      && InHand(w, t) + (if Pops(w) && queue != [] && queue[0] == t then 1 else 0)
         == InHand(w', t) + (if w.pc.AddTotal? && w.cur == t then 1 else 0)
      && InFlight(w, t) + (if w.pc.Launch? && w.cur == t then 1 else 0)
         == InFlight(w', t) + (if w.pc.AddTotal? && w.cur == t then 1 else 0)
  {
  }

  lemma {:induction false} PopTimes(queue: seq<nat>, t: nat)
    ensures queue != [] ==> Times(queue, t) == Times(queue[1..], t) + if queue[0] == t then 1 else 0
  {
    if queue != [] {
      TimesCut(queue, 0, t);
      assert queue[..0] + queue[1..] == queue[1..];
    }
  }

  lemma {:induction false} HostKeepsAccount(s: System, s': System, i: nat, tasks: seq<nat>, result: (nat, nat) -> nat,
                                            t: nat)
    requires Accounted(s, tasks, t) && HostMoves(s, s', i) && WorkerOk(s.workers[i], result)
    ensures Accounted(s', tasks, t)
  {
    var w := s.workers[i];
    HostAccounts(w, s.queue, result, t);
    OneWorkerMoves(s.workers, i, HostStep(w, s.queue), t);
    PopTimes(s.queue, t);
    TimesSnoc(s.launched, w.cur, t);
    TimesSnoc(s.added, w.cur, t);
  }

  lemma {:induction false} HostKeepsInv(s: System, s': System, i: nat, tasks: seq<nat>, result: (nat, nat) -> nat)
    requires Inv(s, tasks, result) && HostMoves(s, s', i)
    ensures Inv(s', tasks, result)
  {
    assert WorkerAt(s, i, result);
    HostKeepsWorker(s.workers[i], s.queue, result);
    SumSnoc(s.added, s.workers[i].cur, result);
    forall t: nat
      ensures Accounted(s', tasks, t)
    {
      assert Accounted(s, tasks, t);
      HostKeepsAccount(s, s', i, tasks, result, t);
    }
    forall j: nat
      ensures WorkerAt(s', j, result)
    {
      assert WorkerAt(s, j, result);
    }
  }

  lemma {:induction false} DeviceKeepsInv(s: System, s': System, i: nat, onMine: bool, tasks: seq<nat>,
                                          result: (nat, nat) -> nat)
    requires Inv(s, tasks, result) && DeviceMoves(s, s', i, onMine, result)
    ensures Inv(s', tasks, result)
  {
    assert WorkerAt(s, i, result);
    var w' := DeviceStep(s.workers[i], onMine, result);
    DeviceKeepsWorker(s.workers[i], onMine, result);
    forall t: nat
      ensures Accounted(s', tasks, t)
    {
      assert Accounted(s, tasks, t);
      OneWorkerMoves(s.workers, i, w', t);
    }
    forall j: nat
      ensures WorkerAt(s', j, result)
    {
      assert WorkerAt(s, j, result);
    }
  }

  // ----- whole runs -----

  /** A run: consecutive states, each one step of some worker's host or device after the one before. */
  ghost predicate IsRun(run: seq<System>, tasks: seq<nat>, result: (nat, nat) -> nat) {
    && run != [] && Initial(run[0], tasks)
    && forall n: nat {:trigger StepAt(run, n, result)} :: n + 1 < |run| ==> StepAt(run, n, result)
  }

  ghost predicate StepAt(run: seq<System>, n: nat, result: (nat, nat) -> nat) {
    n + 1 < |run| && Next(run[n], run[n + 1], result)
  }

  lemma {:induction false} RunKeepsInv(run: seq<System>, tasks: seq<nat>, result: (nat, nat) -> nat, n: nat)
    requires IsRun(run, tasks, result) && n < |run|
    ensures Inv(run[n], tasks, result) && |run[n].workers| == |run[0].workers|
    decreases n
  {
    if n == 0 {
      InitialInv(run[0], tasks, result);
    } else {
      RunKeepsInv(run, tasks, result, n - 1);
      assert StepAt(run, n - 1, result);
      var s, s' := run[n - 1], run[n];
      if i: nat :| HostMoves(s, s', i) {
        HostKeepsInv(s, s', i, tasks, result);
      } else {
        var i: nat, onMine: bool :| DeviceMoves(s, s', i, onMine, result);
        DeviceKeepsInv(s, s', i, onMine, tasks, result);
      }
    }
  }

  /**
   * In every state of every run no worker is about to rewrite a host header or half of a device buffer that a queued
   * copy or kernel still uses.
   */
  lemma {:induction false} BuffersExclusive(run: seq<System>, tasks: seq<nat>, result: (nat, nat) -> nat, n: nat,
                                            i: nat)
    requires IsRun(run, tasks, result) && n < |run| && i < |run[n].workers|
    ensures
      var w := run[n].workers[i];
      && (w.pc.Fill? || w.pc.FillNext? ==> PutHeader !in w.mine.ops && PutHeader !in w.other.ops)
      && (w.pc.Fill? || w.pc.Launch? ==> w.mine.ops == [])
      && (w.pc.FillNext? ==> w.other.ops == [])
  {
    RunKeepsInv(run, tasks, result, n);
    assert WorkerAt(run[n], i, result);
    NothingInFlight(run[n].workers[i], result);
  }

  ghost predicate AllDone(s: System) {
    forall i {:trigger s.workers[i]} :: 0 <= i < |s.workers| ==> s.workers[i].pc.Done?
  }

  /** The same tasks in another order. */
  ghost predicate SameTasks(a: seq<nat>, b: seq<nat>) {
    forall t: nat {:trigger Times(a, t)} :: Times(a, t) == Times(b, t)
  }

  lemma {:induction false} TimesFound(tasks: seq<nat>, t: nat) returns (j: nat)
    requires Times(tasks, t) > 0
    ensures j < |tasks| && tasks[j] == t
    decreases |tasks|
  {
    j := |tasks| - 1;
    if tasks[j] != t {
      j := TimesFound(tasks[..j], t);
    }
  }

  lemma {:induction false} SumIsOrderFree(a: seq<nat>, b: seq<nat>, result: (nat, nat) -> nat)
    requires SameTasks(a, b)
    ensures SumOf(a, result) == SumOf(b, result)
    decreases |a|
  {
    if a == [] {
      if b != [] {
        assert Times(a, b[|b| - 1]) == 0;
      }
    } else {
      var last := |a| - 1;
      assert Times(a, a[last]) > 0;
      var j := TimesFound(b, a[last]);
      var rest := b[..j] + b[j + 1..];
      forall t: nat
        ensures Times(a[..last], t) == Times(rest, t)
      {
        assert Times(a, t) == Times(b, t);
        TimesCut(b, j, t);
      }
      SumIsOrderFree(a[..last], rest, result);
      SumWithout(b, j, result);
    }
  }

  lemma {:induction false} SumWithout(b: seq<nat>, j: nat, result: (nat, nat) -> nat)
    requires j < |b|
    ensures SumOf(b, result) == SumOf(b[..j] + b[j + 1..], result) + result(b[j], b[j])
    decreases |b|
  {
    var last := |b| - 1;
    var rest := b[..j] + b[j + 1..];
    if j == last {
      assert rest == b[..last];
    } else {
      SumWithout(b[..last], j, result);
      assert rest[..|rest| - 1] == b[..last][..j] + b[..last][j + 1..];
    }
  }

  /** When all workers are done, every task was launched once and the total is what the tasks' kernels count. */
  lemma {:induction false} DispatchedOnce(run: seq<System>, tasks: seq<nat>, result: (nat, nat) -> nat, n: nat)
    requires IsRun(run, tasks, result) && n < |run| && run[n].workers != [] && AllDone(run[n])
    ensures SameTasks(run[n].launched, tasks) && SameTasks(run[n].added, tasks)
    ensures run[n].total == SumOf(tasks, result)
  {
    var s := run[n];
    RunKeepsInv(run, tasks, result, n);
    assert WorkerAt(s, 0, result) && s.workers[0].pc.Done?;
    forall t: nat
      ensures Times(s.launched, t) == Times(tasks, t) == Times(s.added, t)
    {
      assert Accounted(s, tasks, t);
      NothingInHand(s.workers, t);
    }
    SumIsOrderFree(s.added, tasks, result);
  }

  // ----- the dispatch comes to an end -----

  function Rank(pc: Pc): nat {
    match pc
    case Done => 0
    case Take => 1
    case AddTotal => 1
    case SyncOwn => 2
    case SyncOther => 3
    case Fetch => 5
    case FillNext => 8
    case TakeNext => 9
    case Launch => 11
    case WaitFirst => 12
    case Fill => 15
  }

  /** What a worker may still do before it needs another task. */
  function Left(w: Worker): nat {
    Rank(w.pc) + |w.mine.ops| + |w.other.ops| + if w.next.Some? then 20 else 0
  }

  function LeftAll(ws: seq<Worker>): nat {
    if ws == [] then 0 else LeftAll(ws[..|ws| - 1]) + Left(ws[|ws| - 1])
  }

  function Measure(s: System): nat {
    40 * |s.queue| + LeftAll(s.workers)
  }

  lemma {:induction false} LeftUpdate(ws: seq<Worker>, i: nat, w: Worker)
    requires i < |ws|
    ensures LeftAll(ws[i := w]) + Left(ws[i]) == LeftAll(ws) + Left(w)
    decreases |ws|
  {
    var last := |ws| - 1;
    if i == last {
      assert ws[i := w][..last] == ws[..last];
    } else {
      LeftUpdate(ws[..last], i, w);
      assert ws[i := w][..last] == ws[..last][i := w];
    }
  }

  lemma {:induction false} HostLeaves(w: Worker, queue: seq<nat>, result: (nat, nat) -> nat)
    requires Enabled(w) && WorkerOk(w, result)
    ensures Left(HostStep(w, queue)) < Left(w) + if Pops(w) && queue != [] then 40 else 0
  {
  }

  /** Every step brings the end nearer, so no run goes on for ever. */
  lemma {:induction false} StepsDecrease(s: System, s': System, tasks: seq<nat>, result: (nat, nat) -> nat)
    requires Inv(s, tasks, result) && Next(s, s', result)
    ensures Measure(s') < Measure(s)
  {
    if i: nat :| HostMoves(s, s', i) {
      assert WorkerAt(s, i, result);
      HostLeaves(s.workers[i], s.queue, result);
      LeftUpdate(s.workers, i, HostStep(s.workers[i], s.queue));
    } else {
      var i: nat, onMine: bool :| DeviceMoves(s, s', i, onMine, result);
      LeftUpdate(s.workers, i, DeviceStep(s.workers[i], onMine, result));
    }
  }

  /** As long as a worker is not done, some step is possible. */
  lemma {:induction false} NeverStuck(s: System, i: nat, result: (nat, nat) -> nat) returns (s': System)
    requires i < |s.workers| && !s.workers[i].pc.Done?
    ensures Next(s, s', result)
  {
    var w := s.workers[i];
    if Enabled(w) {
      s' := System(
        if Pops(w) && s.queue != [] then s.queue[1..] else s.queue,
        s.workers[i := HostStep(w, s.queue)],
        if w.pc.AddTotal? then s.total + w.fetched else s.total,
        if w.pc.Launch? then s.launched + [w.cur] else s.launched,
        if w.pc.AddTotal? then s.added + [w.cur] else s.added);
      assert HostMoves(s, s', i);
    } else {
      var onMine := !w.pc.SyncOther?;
      s' := s.(workers := s.workers[i := DeviceStep(w, onMine, result)]);
      assert DeviceMoves(s, s', i, onMine, result);
    }
  }
}
