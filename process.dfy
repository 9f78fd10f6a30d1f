// The process manager (src/kernel/process.ts): the live process table, a `Map` from pid to
// record kept in insertion order; the `processes` collection of the entity store, which
// holds a copy of each record as last saved; and the handlers registered with `on`.
module Processes {
  import opened Wrappers
  import opened Seqs
  import opened KernelTypes

  /** The live `processes` Map, by pid. */
  type Table = map<Pid, Process>

  /** The store's `processes` collection, keyed by pid (`keyPath: 'pid'`). */
  type Store = map<Pid, Process>

  type HandlerId = nat

  /** `eventHandlers`: per event name, its `Set` of handlers in insertion order. */
  type Handlers = map<string, seq<HandlerId>>

  /** The errors the process manager throws. */
  datatype PmError =
    | ProcessNotFound(pid: Pid)
    | NotRunning
    | NotPaused
    /** The `RangeError` of a kill cascade deeper than the call stack allows. */
    | StackOverflow

  /** One call `handler(process)` made by `emit`. */
  datatype HandlerCall = HandlerCall(handler: HandlerId, event: string, process: Process)

  /** What the lifecycle operations change: the table with its order, the store, and the handler calls made. */
  datatype PmState = PmState(table: Table, order: seq<Pid>, stored: Store, calls: seq<HandlerCall>)

  /** `order` lists each key of the table once: a JavaScript Map's insertion order. */
  ghost predicate Ordered<V>(table: map<nat, V>, order: seq<nat>) {
    && Distinct(order)
    && (forall i :: 0 <= i < |order| ==> order[i] in table)
    && (forall k :: k in table ==> k in order)
  }

  /**
   * The manager's invariant: the table is ordered, records are keyed by their pid below the
   * next fresh pid, and no live record is stopped (kill removes what it stops).
   */
  ghost predicate WellFormed(s: PmState, bound: nat) {
    && Ordered(s.table, s.order)
    && (forall k :: k in s.table ==> s.table[k].pid == k && k < bound && s.table[k].status != Stopped)
    && (forall k :: k in s.stored ==> s.stored[k].pid == k && k < bound)
  }

  /** `Map.delete(key)` on the insertion order. */
  function Without(order: seq<nat>, pid: nat): seq<nat> {
    Filter(order, Other(pid))
  }

  function Other<T(==)>(x: T): T -> bool {
    y => y != x
  }

  lemma WithoutKeepsOrdered<V>(table: map<nat, V>, order: seq<nat>, pid: nat)
    requires Ordered(table, order)
    ensures Ordered(table - {pid}, Without(order, pid))
  {
    FilterDistinct(order, Other(pid));
    var order' := Without(order, pid);
    forall k | k in table - {pid} ensures k in order' {
      var i :| 0 <= i < |order| && order[i] == k;
    }
  }

  /** `map.set(key, value)` for a new key appends the key to the insertion order. */
  lemma AppendKeepsOrdered<V, U>(table: map<nat, V>, order: seq<nat>, key: nat, table': map<nat, U>)
    requires Ordered(table, order) && key !in table && table'.Keys == table.Keys + {key}
    ensures Ordered(table', order + [key])
  {
    forall i, j | 0 <= i < j < |order + [key]| ensures (order + [key])[i] != (order + [key])[j] {
      if j == |order| {
        assert (order + [key])[i] == order[i];
      }
    }
  }

  // ---------------------------------------------------------------------------
  // Events
  // ---------------------------------------------------------------------------

  /** `on(event, handler)`: the event's set gains the handler, created empty first if missing. */
  function Subscribed(hs: Handlers, event: string, h: HandlerId): Handlers {
    if event !in hs then hs[event := [h]]
    else if h in hs[event] then hs
    else hs[event := hs[event] + [h]]
  }

  /** `off(event, handler)`: the handler leaves the event's set, if there is one. */
  function Unsubscribed(hs: Handlers, event: string, h: HandlerId): Handlers {
    if event in hs then hs[event := WithoutHandler(hs[event], h)] else hs
  }

  /** `set.delete(handler)`. */
  function WithoutHandler(l: seq<HandlerId>, h: HandlerId): seq<HandlerId> {
    Filter(l, Other(h))
  }

  /** `emit(event, process)`: each handler of the event, in order, is called with the record. */
  function Emit(hs: Handlers, event: string, p: Process): seq<HandlerCall> {
    HandlerCalls(if event in hs then hs[event] else [], event, p)
  }

  function HandlerCalls(l: seq<HandlerId>, event: string, p: Process): seq<HandlerCall> {
    if |l| == 0 then [] else [HandlerCall(l[0], event, p)] + HandlerCalls(l[1..], event, p)
  }

  /** One call per handler, in the handlers' order. */
  lemma {:induction false} HandlerCallsShape(l: seq<HandlerId>, event: string, p: Process)
    ensures |HandlerCalls(l, event, p)| == |l|
    ensures forall i :: 0 <= i < |l| ==> HandlerCalls(l, event, p)[i] == HandlerCall(l[i], event, p)
  {
    if |l| > 0 {
      HandlerCallsShape(l[1..], event, p);
    }
  }

  /** A subscribed handler is called once per emit of its event, and subscribing twice changes nothing. */
  lemma SubscribeThenEmit(hs: Handlers, event: string, h: HandlerId, p: Process)
    requires forall e :: e in hs ==> Distinct(hs[e])
    ensures var hs' := Subscribed(hs, event, h);
      && (forall e :: e in hs' ==> Distinct(hs'[e]))
      && HandlerCall(h, event, p) in Emit(hs', event, p)
      && (forall i, j :: 0 <= i < j < |Emit(hs', event, p)| ==> Emit(hs', event, p)[i] != Emit(hs', event, p)[j])
      && Subscribed(hs', event, h) == hs'
  {
    var hs' := Subscribed(hs, event, h);
    var l := hs'[event];
    HandlerCallsShape(l, event, p);
    assert h in l;
    var k :| 0 <= k < |l| && l[k] == h;
    assert Emit(hs', event, p)[k] == HandlerCall(h, event, p);
  }

  /** After `off` the handler is no longer called; every other handler still is. */
  lemma UnsubscribeThenEmit(hs: Handlers, event: string, h: HandlerId, p: Process)
    ensures var calls := Emit(Unsubscribed(hs, event, h), event, p);
      && (forall i :: 0 <= i < |calls| ==> calls[i].handler != h)
      && (forall x :: x != h && HandlerCall(x, event, p) in Emit(hs, event, p) ==> HandlerCall(x, event, p) in calls)
  {
    var calls := Emit(Unsubscribed(hs, event, h), event, p);
    if event in hs {
      var l := WithoutHandler(hs[event], h);
      HandlerCallsShape(hs[event], event, p);
      HandlerCallsShape(l, event, p);
      forall x | x != h && HandlerCall(x, event, p) in Emit(hs, event, p) ensures HandlerCall(x, event, p) in calls {
        var i :| 0 <= i < |hs[event]| && Emit(hs, event, p)[i] == HandlerCall(x, event, p);
        assert hs[event][i] == x;
        assert x in l;
        var j :| 0 <= j < |l| && l[j] == x;
        assert calls[j] == HandlerCall(x, event, p);
      }
    }
  }

  /** `off` undoes an `on` of a handler that was not yet subscribed: every emit is as before. */
  lemma SubscribeUnsubscribe(hs: Handlers, event: string, h: HandlerId, other: string, p: Process)
    requires event in hs ==> h !in hs[event]
    ensures Emit(Unsubscribed(Subscribed(hs, event, h), event, h), other, p) == Emit(hs, other, p)
  {
    var hs' := Unsubscribed(Subscribed(hs, event, h), event, h);
    if other == event {
      if event in hs {
        FilterKeepsAll(hs[event], Other(h));
        FilterAppendOne(hs[event], h, Other(h));
        assert hs'[event] == hs[event];
      } else {
        assert hs'[event] == WithoutHandler([h], h) == [];
      }
    } else {
      assert (other in hs') == (other in hs);
      assert other in hs ==> hs'[other] == hs[other];
    }
  }

  lemma FilterAppendOne<T>(s: seq<T>, x: T, keep: T -> bool)
    requires !keep(x)
    ensures Filter(s + [x], keep) == Filter(s, keep)
    decreases |s|
  {
    if |s| == 0 {
      assert s + [x] == [x];
    } else {
      assert (s + [x])[1..] == s[1..] + [x];
      FilterAppendOne(s[1..], x, keep);
    }
  }

  // ---------------------------------------------------------------------------
  // Spawning
  // ---------------------------------------------------------------------------

  /** The fields of a `Partial<ProcessMetadata>` argument that were given. */
  datatype MetadataPatch = MetadataPatch(
    appId: Option<AppId>,
    windowId: Option<WindowId>,
    permissions: Option<seq<string>>,
    environment: Option<map<string, Value>>)

  /** `{ permissions: [], environment: {}, ...metadata }`. */
  function SpawnedMetadata(patch: MetadataPatch): ProcessMetadata {
    ProcessMetadata(patch.appId, patch.windowId, patch.permissions.GetOr([]), patch.environment.GetOr(map[]), None)
  }

  /** The record spawn builds: running, priority 5, the given parent or none. */
  function NewProcess(pid: Pid, name: string, ptype: ProcessType, patch: MetadataPatch, parentPid: Option<Pid>,
                      now: int): Process {
    Process(pid, name, ptype, Running, 5, parentPid, now, SpawnedMetadata(patch))
  }

  // ---------------------------------------------------------------------------
  // Queries
  // ---------------------------------------------------------------------------

  /** `Array.from(map.values())`: the values in insertion order. */
  function Values<V>(table: map<nat, V>, order: seq<nat>): seq<V>
    requires forall i :: 0 <= i < |order| ==> order[i] in table
  {
    seq(|order|, i requires 0 <= i < |order| => table[order[i]])
  }

  function GetProcess(table: Table, pid: Pid): Option<Process> {
    if pid in table then Some(table[pid]) else None
  }

  function ProcessesByType(table: Table, order: seq<Pid>, ptype: ProcessType): seq<Process>
    requires forall i :: 0 <= i < |order| ==> order[i] in table
  {
    Filter(Values(table, order), (p: Process) => p.ptype == ptype)
  }

  function WithStatus(ps: seq<Process>, status: ProcessStatus): seq<Process> {
    Filter(ps, (p: Process) => p.status == status)
  }

  function RunningProcesses(table: Table, order: seq<Pid>): seq<Process>
    requires forall i :: 0 <= i < |order| ==> order[i] in table
  {
    WithStatus(Values(table, order), Running)
  }

  /** getProcessByAppId: the first record with that app id that is running. */
  function ProcessByAppId(table: Table, order: seq<Pid>, appId: AppId): Option<Process>
    requires forall i :: 0 <= i < |order| ==> order[i] in table
  {
    Find(Values(table, order), (p: Process) => p.metadata.appId == Some(appId) && p.status == Running)
  }

  function ChildProcesses(table: Table, order: seq<Pid>, parentPid: Pid): seq<Process>
    requires forall i :: 0 <= i < |order| ==> order[i] in table
  {
    Filter(Values(table, order), (p: Process) => p.parentPid == Some(parentPid))
  }

  /** `Array.from(processes.values())` lists every live record and nothing else. */
  lemma ValuesMembers<V>(table: map<nat, V>, order: seq<nat>)
    requires Ordered(table, order)
    ensures forall k :: k in table ==> table[k] in Values(table, order)
    ensures forall p :: p in Values(table, order) ==> p in table.Values
  {
    var vs := Values(table, order);
    forall k | k in table ensures table[k] in vs {
      var i :| 0 <= i < |order| && order[i] == k;
      assert vs[i] == table[k];
    }
    forall p | p in vs ensures p in table.Values {
      var i :| 0 <= i < |vs| && vs[i] == p;
      assert order[i] in table;
    }
  }

  /** getRunningProcesses returns exactly the live records that are running. */
  lemma RunningMembers(table: Table, order: seq<Pid>)
    requires Ordered(table, order)
    ensures forall p :: p in RunningProcesses(table, order) ==> p.status == Running && p in table.Values
    ensures forall k :: k in table && table[k].status == Running ==> table[k] in RunningProcesses(table, order)
  {
    ValuesMembers(table, order);
  }

  /** getChildProcesses returns exactly the live records with that parent. */
  lemma ChildMembers(table: Table, order: seq<Pid>, parentPid: Pid)
    requires Ordered(table, order)
    ensures forall k :: k in table && table[k].parentPid == Some(parentPid) ==> table[k] in ChildProcesses(table, order, parentPid)
    ensures forall p :: p in ChildProcesses(table, order, parentPid) ==> p.parentPid == Some(parentPid) && p in table.Values
  {
    ValuesMembers(table, order);
  }

  /**
   * getProcessByAppId finds a record exactly when some live one with the app id is running,
   * and what it finds is such a record; a paused process of the app is never found.
   */
  lemma AppQuery(table: Table, order: seq<Pid>, appId: AppId)
    requires Ordered(table, order)
    ensures ProcessByAppId(table, order, appId).Some? <==>
      exists k :: k in table && table[k].metadata.appId == Some(appId) && table[k].status == Running
    ensures ProcessByAppId(table, order, appId).Some? ==>
      && ProcessByAppId(table, order, appId).value.status == Running
      && ProcessByAppId(table, order, appId).value.metadata.appId == Some(appId)
      && ProcessByAppId(table, order, appId).value in table.Values
  {
    ValuesMembers(table, order);
  }

  datatype ProcessStats = ProcessStats(total: nat, running: nat, paused: nat, crashed: nat)

  /** The counts of getSystemStats. */
  function SystemStats(table: Table, order: seq<Pid>): ProcessStats
    requires forall i :: 0 <= i < |order| ==> order[i] in table
  {
    var ps := Values(table, order);
    ProcessStats(|ps|, |WithStatus(ps, Running)|, |WithStatus(ps, Paused)|, |WithStatus(ps, Crashed)|)
  }

  lemma {:induction false} StatusCountsAddUp(ps: seq<Process>)
    requires forall i :: 0 <= i < |ps| ==> ps[i].status != Stopped
    ensures |WithStatus(ps, Running)| + |WithStatus(ps, Paused)| + |WithStatus(ps, Crashed)| == |ps|
  {
    if |ps| > 0 {
      StatusCountsAddUp(ps[1..]);
    }
  }

  /** Since the live table never holds a stopped record, the running, paused and crashed counts make up the total. */
  lemma StatsAddUp(s: PmState, bound: nat)
    requires WellFormed(s, bound)
    ensures var st := SystemStats(s.table, s.order); st.running + st.paused + st.crashed == st.total
  {
    StatusCountsAddUp(Values(s.table, s.order));
  }

  // ---------------------------------------------------------------------------
  // Status changes
  // ---------------------------------------------------------------------------

  /** pause: only a running process may pause. */
  function PauseStep(table: Table, pid: Pid): Result<Process, PmError> {
    if pid !in table then Err(ProcessNotFound(pid))
    else if table[pid].status != Running then Err(NotRunning)
    else Ok(table[pid].(status := Paused))
  }

  /** resume: only a paused process may resume. */
  function ResumeStep(table: Table, pid: Pid): Result<Process, PmError> {
    if pid !in table then Err(ProcessNotFound(pid))
    else if table[pid].status != Paused then Err(NotPaused)
    else Ok(table[pid].(status := Running))
  }

  /** An `Error` argument: its message and its stack, when it has one. */
  datatype ErrorValue = ErrorValue(message: string, stack: Option<string>)

  /** crash: any live process, whatever its status, becomes crashed and records the error. */
  function CrashStep(table: Table, pid: Pid, error: Option<ErrorValue>, now: int): Result<Process, PmError> {
    if pid !in table then Err(ProcessNotFound(pid))
    else
      var p := table[pid];
      var info := CrashInfo(if error.Some? then Some(error.value.message) else None,
                            if error.Some? then error.value.stack else None, now);
      Ok(p.(status := Crashed, metadata := p.metadata.(crashInfo := Some(info))))
  }

  /** `Math.max(0, Math.min(10, priority))`. */
  function ClampPriority(priority: int): (r: int)
    ensures 0 <= r <= 10
    ensures 0 <= priority <= 10 ==> r == priority
    ensures priority < 0 ==> r == 0
    ensures priority > 10 ==> r == 10
  {
    if priority > 10 then 10 else if priority < 0 then 0 else priority
  }

  function PriorityStep(table: Table, pid: Pid, priority: int): Result<Process, PmError> {
    if pid !in table then Err(ProcessNotFound(pid)) else Ok(table[pid].(priority := ClampPriority(priority)))
  }

  /** The status changes the lifecycle operations make. */
  predicate Transition(from: ProcessStatus, to: ProcessStatus) {
    || (from == Running && to == Paused)
    || (from == Paused && to == Running)
    || to == Crashed
    || to == Stopped
  }

  /**
   * Pause, resume and crash move a live record along the status machine and change nothing
   * else of it but, for a crash, its crash info; every refused pause or resume names the
   * reason, and unknown pids are refused by all four operations.
   */
  lemma StepsFollowMachine(table: Table, pid: Pid, error: Option<ErrorValue>, now: int, priority: int)
    ensures pid !in table ==>
      && PauseStep(table, pid) == Err(ProcessNotFound(pid)) && ResumeStep(table, pid) == Err(ProcessNotFound(pid))
      && CrashStep(table, pid, error, now) == Err(ProcessNotFound(pid))
      && PriorityStep(table, pid, priority) == Err(ProcessNotFound(pid))
    ensures PauseStep(table, pid).Ok? <==> pid in table && table[pid].status == Running
    ensures ResumeStep(table, pid).Ok? <==> pid in table && table[pid].status == Paused
    ensures pid in table ==> CrashStep(table, pid, error, now).Ok? && PriorityStep(table, pid, priority).Ok?
    ensures PauseStep(table, pid).Ok? ==>
      Transition(table[pid].status, PauseStep(table, pid).value.status)
      && PauseStep(table, pid).value.(status := table[pid].status) == table[pid]
    ensures ResumeStep(table, pid).Ok? ==>
      Transition(table[pid].status, ResumeStep(table, pid).value.status)
      && ResumeStep(table, pid).value.(status := table[pid].status) == table[pid]
    ensures pid in table ==>
      var c := CrashStep(table, pid, error, now).value;
      && Transition(table[pid].status, c.status) && c.metadata.crashInfo.Some?
      && c.metadata.crashInfo.value.timestamp == now
      && c.(status := table[pid].status, metadata := table[pid].metadata) == table[pid]
  {
  }

  /** A pause followed by a resume gives back the record, and so does a resume followed by a pause. */
  lemma PauseResumeRoundTrip(table: Table, pid: Pid)
    ensures PauseStep(table, pid).Ok? ==>
      ResumeStep(table[pid := PauseStep(table, pid).value], pid) == Ok(table[pid])
    ensures ResumeStep(table, pid).Ok? ==>
      PauseStep(table[pid := ResumeStep(table, pid).value], pid) == Ok(table[pid])
  {
  }

  /** A paused process cannot be paused again, nor a running one resumed. */
  lemma NoRepeatedPause(table: Table, pid: Pid)
    ensures PauseStep(table, pid).Ok? ==>
      PauseStep(table[pid := PauseStep(table, pid).value], pid) == Err(NotRunning)
    ensures ResumeStep(table, pid).Ok? ==>
      ResumeStep(table[pid := ResumeStep(table, pid).value], pid) == Err(NotPaused)
  {
  }

  // ---------------------------------------------------------------------------
  // Killing: the depth-first cascade over children
  // ---------------------------------------------------------------------------

  /** The pids of `Array.from(processes.values()).filter(p => p.parentPid === pid)`. */
  function ChildPids(table: Table, order: seq<Pid>, pid: Pid): seq<Pid> {
    if |order| == 0 then []
    else (if order[0] in table && table[order[0]].parentPid == Some(pid) then [order[0]] else [])
         + ChildPids(table, order[1..], pid)
  }

  /** The children listed are exactly the live records of the order whose parent is `pid`. */
  lemma {:induction false} ChildPidsMembers(table: Table, order: seq<Pid>, pid: Pid)
    ensures forall i :: 0 <= i < |ChildPids(table, order, pid)| ==>
      var c := ChildPids(table, order, pid)[i]; c in order && c in table && table[c].parentPid == Some(pid)
    ensures forall i :: 0 <= i < |order| && order[i] in table && table[order[i]].parentPid == Some(pid) ==>
      order[i] in ChildPids(table, order, pid)
  {
    if |order| > 0 {
      ChildPidsMembers(table, order[1..], pid);
      var head := if order[0] in table && table[order[0]].parentPid == Some(pid) then [order[0]] else [];
      var rest := ChildPids(table, order[1..], pid);
      var r := ChildPids(table, order, pid);
      assert r == head + rest;
      forall i | 0 <= i < |r| ensures r[i] in order && r[i] in table && table[r[i]].parentPid == Some(pid) {
        if i >= |head| {
          assert r[i] == rest[i - |head|] && rest[i - |head|] in order[1..];
        }
      }
      assert forall i :: 0 < i < |order| ==> order[i] == order[1..][i - 1];
    }
  }

  /**
   * kill(pid): the children as they are when the call starts are killed first, in table
   * order, one stack frame deeper; then the record is reaped. A failure anywhere on the way
   * is rethrown at once.
   */
  function KillEffect(s: PmState, h: Handlers, pid: Pid, fuel: nat): (Outcome<PmError>, PmState)
    decreases fuel, 0
  {
    if fuel == 0 then (Fail(StackOverflow), s)
    else if pid !in s.table then (Fail(ProcessNotFound(pid)), s)
    else
      var (r, s1) := KillEachEffect(s, h, ChildPids(s.table, s.order, pid), fuel - 1);
      if r.Fail? then (r, s1) else (Pass, Reap(s1, h, pid, s.table[pid].(status := Stopped)))
  }

  /** `for (const pid of pids) await this.kill(pid)`: stops at the first failure. */
  function KillEachEffect(s: PmState, h: Handlers, pids: seq<Pid>, fuel: nat): (Outcome<PmError>, PmState)
    decreases fuel, 1, |pids|
  {
    if |pids| == 0 then (Pass, s)
    else
      var (r, s1) := KillEffect(s, h, pids[0], fuel);
      if r.Fail? then (r, s1) else KillEachEffect(s1, h, pids[1..], fuel)
  }

  /** The end of a kill: the record saved as `stopped`, removed from the table, and the `kill` handlers called. */
  function Reap(s: PmState, h: Handlers, pid: Pid, stopped: Process): PmState {
    PmState(s.table - {pid}, Without(s.order, pid), s.stored[pid := stopped], s.calls + Emit(h, "kill", stopped))
  }

  lemma ReapKeepsWellFormed(s: PmState, bound: nat, h: Handlers, pid: Pid, stopped: Process)
    requires WellFormed(s, bound) && stopped.pid == pid && pid < bound
    ensures WellFormed(Reap(s, h, pid, stopped), bound)
  {
    WithoutKeepsOrdered(s.table, s.order, pid);
  }

  /** `q` was live before and is not live after. */
  ghost predicate Gone(s: PmState, s': PmState, q: Pid) {
    q in s.table && q !in s'.table
  }

  /** Every record live after was live before, unchanged. */
  ghost predicate Kept(s: PmState, s': PmState) {
    forall q :: q in s'.table ==> q in s.table && s'.table[q] == s.table[q]
  }

  /**
   * What kills can do: drop live records, each saved as stopped, keep the rest of the table
   * and its order, leave every other stored record alone and only add handler calls.
   */
  ghost predicate Shrunk(s: PmState, s': PmState) {
    && Kept(s, s')
    && Ordered(s'.table, s'.order)
    && (forall q :: Gone(s, s', q) ==> q in s'.stored && s'.stored[q] == s.table[q].(status := Stopped))
    && (forall q :: q in s.stored && !Gone(s, s', q) ==> q in s'.stored && s'.stored[q] == s.stored[q])
    && (forall q :: q in s'.stored ==> q in s.stored || Gone(s, s', q))
    && s.calls <= s'.calls
  }

  /** No live record has a removed record as its parent. */
  ghost predicate NoOrphans(s: PmState, s': PmState) {
    forall x: Pid, q: Pid :: x in s'.table && Gone(s, s', q) ==> s'.table[x].parentPid != Some(q)
  }

  /** Every removed record is one of `roots` or the child of a removed record. */
  ghost predicate OnlyDescendants(s: PmState, s': PmState, roots: seq<Pid>) {
    forall q :: Gone(s, s', q) ==>
      q in roots || (s.table[q].parentPid.Some? && Gone(s, s', s.table[q].parentPid.value))
  }

  lemma ShrunkReflexive(s: PmState)
    requires Ordered(s.table, s.order)
    ensures Shrunk(s, s)
  {
  }

  lemma ShrunkTransitive(a: PmState, b: PmState, c: PmState)
    requires Shrunk(a, b) && Shrunk(b, c)
    ensures Shrunk(a, c)
  {
    forall q | Gone(a, c, q) ensures q in c.stored && c.stored[q] == a.table[q].(status := Stopped) {
      if q in b.table {
        assert Gone(b, c, q);
      } else {
        assert Gone(a, b, q) && !Gone(b, c, q);
      }
    }
    forall q | q in c.stored ensures q in a.stored || Gone(a, c, q) {
      if !Gone(b, c, q) {
        assert q in b.stored;
      }
    }
  }

  /** Reaping a live record after earlier kills is one more kill. */
  lemma ReapFacts(s: PmState, s1: PmState, h: Handlers, pid: Pid)
    requires Shrunk(s, s1) && pid in s.table
    ensures var s2 := Reap(s1, h, pid, s.table[pid].(status := Stopped));
      Shrunk(s, s2) && Gone(s, s2, pid)
  {
    var s2 := Reap(s1, h, pid, s.table[pid].(status := Stopped));
    WithoutKeepsOrdered(s1.table, s1.order, pid);
    assert forall q :: Gone(s, s2, q) <==> Gone(s, s1, q) || q == pid;
  }

  /** The reaped record's children went before it, so its cascade leaves no orphan and removes only descendants. */
  lemma KillPassFacts(s: PmState, s1: PmState, s2: PmState, pid: Pid, kids: seq<Pid>)
    requires Ordered(s.table, s.order) && pid in s.table && kids == ChildPids(s.table, s.order, pid)
    requires Kept(s, s1) && NoOrphans(s, s1) && OnlyDescendants(s, s1, kids)
    requires forall i :: 0 <= i < |kids| ==> kids[i] !in s1.table
    requires s2.table == s1.table - {pid}
    ensures NoOrphans(s, s2) && OnlyDescendants(s, s2, [pid])
  {
    ChildPidsMembers(s.table, s.order, pid);
    forall x: Pid, q: Pid | x in s2.table && Gone(s, s2, q) ensures s2.table[x].parentPid != Some(q) {
      if q == pid {
        assert x !in kids;
        var i :| 0 <= i < |s.order| && s.order[i] == x;
      } else {
        assert Gone(s, s1, q);
      }
    }
    forall q | Gone(s, s2, q)
      ensures q in [pid] || (s.table[q].parentPid.Some? && Gone(s, s2, s.table[q].parentPid.value))
    {
      if q != pid {
        assert Gone(s, s1, q);
      }
    }
  }

  /** A kill followed by more kills: the facts of both put together. */
  lemma KillEachPassFacts(s: PmState, s1: PmState, s2: PmState, pids: seq<Pid>)
    requires |pids| > 0 && Kept(s, s1) && Kept(s1, s2)
    requires Gone(s, s1, pids[0]) && NoOrphans(s, s1) && OnlyDescendants(s, s1, [pids[0]])
    requires forall i :: 0 <= i < |pids[1..]| ==> pids[1..][i] !in s2.table
    requires NoOrphans(s1, s2) && OnlyDescendants(s1, s2, pids[1..])
    ensures forall i :: 0 <= i < |pids| ==> pids[i] !in s2.table
    ensures NoOrphans(s, s2) && OnlyDescendants(s, s2, pids)
  {
    forall i | 0 <= i < |pids| ensures pids[i] !in s2.table {
      if i > 0 {
        assert pids[i] == pids[1..][i - 1];
      }
    }
    forall x: Pid, q: Pid | x in s2.table && Gone(s, s2, q) ensures s2.table[x].parentPid != Some(q) {
      if q in s1.table {
        assert Gone(s1, s2, q);
      } else {
        assert Gone(s, s1, q);
      }
    }
    forall q | Gone(s, s2, q)
      ensures q in pids || (s.table[q].parentPid.Some? && Gone(s, s2, s.table[q].parentPid.value))
    {
      if q in s1.table {
        assert Gone(s1, s2, q);
        if q !in pids[1..] {
          var pq := s.table[q].parentPid.value;
          assert Gone(s1, s2, pq);
        }
      } else {
        assert Gone(s, s1, q);
      }
    }
  }

  /**
   * What a kill or a sequence of kills leaves: a shrunk state and, on success, none of the
   * roots live, no orphan left behind, and nothing removed but the roots and their descendants.
   */
  ghost predicate Killed(s: PmState, r: Outcome<PmError>, s': PmState, roots: seq<Pid>) {
    && Shrunk(s, s')
    && (r.Pass? ==> (forall i :: 0 <= i < |roots| ==> roots[i] !in s'.table)
                    && NoOrphans(s, s') && OnlyDescendants(s, s', roots))
  }

  /** Reaping a record whose children are all gone completes its kill. */
  lemma ReapStep(s: PmState, h: Handlers, pid: Pid, fuel: nat)
    requires Ordered(s.table, s.order) && pid in s.table && fuel > 0
    requires var e := KillEachEffect(s, h, ChildPids(s.table, s.order, pid), fuel - 1);
      e.0.Pass? && Killed(s, Pass, e.1, ChildPids(s.table, s.order, pid))
    ensures var e := KillEffect(s, h, pid, fuel); e.0.Pass? && Killed(s, Pass, e.1, [pid])
  {
    var kids := ChildPids(s.table, s.order, pid);
    var s1 := KillEachEffect(s, h, kids, fuel - 1).1;
    var s2 := Reap(s1, h, pid, s.table[pid].(status := Stopped));
    ReapFacts(s, s1, h, pid);
    KillPassFacts(s, s1, s2, pid, kids);
    assert KillEffect(s, h, pid, fuel) == (Pass, s2);
  }

  /** A kill followed by a sequence of kills is the sequence with the first pid in front. */
  lemma ChainStep(s: PmState, s1: PmState, r2: Outcome<PmError>, s2: PmState, pids: seq<Pid>)
    requires |pids| > 0 && pids[0] in s.table
    requires Killed(s, Pass, s1, [pids[0]]) && Killed(s1, r2, s2, pids[1..])
    ensures Killed(s, r2, s2, pids)
  {
    ShrunkTransitive(s, s1, s2);
    if r2.Pass? {
      assert [pids[0]][0] == pids[0];
      KillEachPassFacts(s, s1, s2, pids);
    }
  }

  /**
   * A kill only removes records, saving each as stopped. When it succeeds the target was
   * live and is gone, every descendant of a removed record is gone too, and nothing but the
   * target and its descendants was removed.
   */
  lemma {:induction false} KillFacts(s: PmState, h: Handlers, pid: Pid, fuel: nat)
    requires Ordered(s.table, s.order)
    ensures var e := KillEffect(s, h, pid, fuel);
      Killed(s, e.0, e.1, [pid]) && (e.0.Pass? ==> pid in s.table)
    decreases fuel, 0
  {
    if fuel == 0 {
      ShrunkReflexive(s);
      assert KillEffect(s, h, pid, fuel) == (Fail(StackOverflow), s);
    } else if pid !in s.table {
      ShrunkReflexive(s);
      assert KillEffect(s, h, pid, fuel) == (Fail(ProcessNotFound(pid)), s);
    } else {
      var kids := ChildPids(s.table, s.order, pid);
      KillEachFacts(s, h, kids, fuel - 1);
      var (r1, s1) := KillEachEffect(s, h, kids, fuel - 1);
      if r1.Fail? {
        assert KillEffect(s, h, pid, fuel) == (r1, s1);
      } else {
        ReapStep(s, h, pid, fuel);
      }
    }
  }

  /** The facts of KillFacts for a sequence of kills, with the listed pids as the roots. */
  lemma {:induction false} KillEachFacts(s: PmState, h: Handlers, pids: seq<Pid>, fuel: nat)
    requires Ordered(s.table, s.order)
    ensures var (r, s') := KillEachEffect(s, h, pids, fuel); Killed(s, r, s', pids)
    decreases fuel, 1, |pids|
  {
    if |pids| == 0 {
      ShrunkReflexive(s);
      assert KillEachEffect(s, h, pids, fuel) == (Pass, s);
    } else {
      KillFacts(s, h, pids[0], fuel);
      var (r1, s1) := KillEffect(s, h, pids[0], fuel);
      if r1.Fail? {
        assert KillEachEffect(s, h, pids, fuel) == (r1, s1);
      } else {
        KillEachFacts(s1, h, pids[1..], fuel);
        var (r2, s2) := KillEachEffect(s1, h, pids[1..], fuel);
        assert KillEachEffect(s, h, pids, fuel) == (r2, s2);
        ChainStep(s, s1, r2, s2, pids);
      }
    }
  }

  /** The part of KillFacts the failure lemmas use: what stays live is unchanged, and a successful kill leaves no child of its target. */
  lemma KillOutcome(s: PmState, h: Handlers, pid: Pid, fuel: nat)
    requires Ordered(s.table, s.order)
    ensures var e := KillEffect(s, h, pid, fuel);
      && Ordered(e.1.table, e.1.order) && Kept(s, e.1)
      && (e.0.Pass? ==> pid !in e.1.table && forall x :: x in e.1.table ==> e.1.table[x].parentPid != Some(pid))
  {
    KillFacts(s, h, pid, fuel);
    var e := KillEffect(s, h, pid, fuel);
    if e.0.Pass? {
      assert Gone(s, e.1, pid);
    }
  }

  /** A sequence of kills that reaches a pid no longer live fails. */
  lemma {:induction false} KillEachMissing(s: PmState, h: Handlers, pids: seq<Pid>, fuel: nat, j: nat)
    requires Ordered(s.table, s.order) && j < |pids| && pids[j] !in s.table
    ensures KillEachEffect(s, h, pids, fuel).0.Fail?
    decreases j
  {
    var e := KillEffect(s, h, pids[0], fuel);
    if j == 0 {
      assert e.0.Fail?;
    } else if e.0.Pass? {
      KillOutcome(s, h, pids[0], fuel);
      assert KillEachEffect(s, h, pids, fuel) == KillEachEffect(e.1, h, pids[1..], fuel);
      assert pids[1..][j - 1] == pids[j];
      KillEachMissing(e.1, h, pids[1..], fuel, j - 1);
    }
  }

  /** After the first kill of a sequence succeeds, the rest of the sequence runs on what it left. */
  lemma KillEachFirst(s: PmState, h: Handlers, pids: seq<Pid>, fuel: nat)
    requires Ordered(s.table, s.order) && |pids| > 0
    ensures var e := KillEffect(s, h, pids[0], fuel);
      && (e.0.Fail? ==> KillEachEffect(s, h, pids, fuel).0.Fail?)
      && (e.0.Pass? ==>
            && KillEachEffect(s, h, pids, fuel) == KillEachEffect(e.1, h, pids[1..], fuel)
            && Ordered(e.1.table, e.1.order) && Kept(s, e.1)
            && forall x :: x in e.1.table ==> e.1.table[x].parentPid != Some(pids[0]))
  {
    KillOutcome(s, h, pids[0], fuel);
  }

  /** The state the first kill of a sequence leaves, when it succeeds, and what the rest then does. */
  lemma KillEachStep(s: PmState, h: Handlers, pids: seq<Pid>, fuel: nat) returns (passed: bool, s1: PmState)
    requires Ordered(s.table, s.order) && |pids| > 0
    ensures !passed ==> KillEachEffect(s, h, pids, fuel).0.Fail?
    ensures passed ==>
      && KillEachEffect(s, h, pids, fuel) == KillEachEffect(s1, h, pids[1..], fuel)
      && Ordered(s1.table, s1.order) && Kept(s, s1)
      && forall x :: x in s1.table ==> s1.table[x].parentPid != Some(pids[0])
  {
    KillEachFirst(s, h, pids, fuel);
    var e := KillEffect(s, h, pids[0], fuel);
    passed, s1 := e.0.Pass?, e.1;
  }

  /** A sequence of kills fails when a listed live process's parent is listed before it. */
  lemma {:induction false} KillEachParentFirst(s: PmState, h: Handlers, pids: seq<Pid>, fuel: nat, i: nat, j: nat)
    requires Ordered(s.table, s.order)
    requires i < j < |pids| && pids[j] in s.table && s.table[pids[j]].parentPid == Some(pids[i])
    ensures KillEachEffect(s, h, pids, fuel).0.Fail?
    decreases |pids|
  {
    var passed, s1 := KillEachStep(s, h, pids, fuel);
    var rest := pids[1..];
    assert rest[j - 1] == pids[j];
    if passed {
      if pids[j] !in s1.table || i == 0 {
        KillEachMissing(s1, h, rest, fuel, j - 1);
      } else {
        assert s1.table[pids[j]] == s.table[pids[j]];
        assert rest[i - 1] == pids[i];
        KillEachParentFirst(s1, h, rest, fuel, i - 1, j - 1);
      }
    }
  }

  /**
   * killAll snapshots the pids in table order and kills each: when a process's parent comes
   * earlier in the snapshot, the parent's cascade removes it and its own kill throws.
   */
  lemma KillAllParentFirstFails(s: PmState, h: Handlers, fuel: nat, i: nat, j: nat)
    requires Ordered(s.table, s.order)
    requires i < j < |s.order| && s.table[s.order[j]].parentPid == Some(s.order[i])
    ensures KillEachEffect(s, h, s.order, fuel).0.Fail?
  {
    KillEachParentFirst(s, h, s.order, fuel, i, j);
  }

  /** No live process has a live parent. */
  ghost predicate Flat(table: Table) {
    forall x :: x in table && table[x].parentPid.Some? ==> table[x].parentPid.value !in table
  }

  /** In a flat table a live process has no live children. */
  lemma {:induction false} FlatNoChildren(table: Table, order: seq<Pid>, pid: Pid)
    requires Flat(table) && pid in table
    ensures ChildPids(table, order, pid) == []
  {
    if |order| > 0 {
      FlatNoChildren(table, order[1..], pid);
    }
  }

  /** On a flat table, killing distinct live pids one frame deep succeeds and removes exactly them. */
  lemma {:induction false} KillEachFlat(s: PmState, h: Handlers, pids: seq<Pid>, fuel: nat)
    requires Ordered(s.table, s.order) && Flat(s.table) && fuel >= 1
    requires Distinct(pids) && forall i :: 0 <= i < |pids| ==> pids[i] in s.table
    ensures var (r, s') := KillEachEffect(s, h, pids, fuel);
      r == Pass && forall q :: q in s'.table <==> q in s.table && q !in pids
    decreases |pids|
  {
    if |pids| > 0 {
      var pid := pids[0];
      FlatNoChildren(s.table, s.order, pid);
      var s1 := Reap(s, h, pid, s.table[pid].(status := Stopped));
      assert KillEachEffect(s, h, [], fuel - 1) == (Pass, s);
      assert KillEffect(s, h, pid, fuel) == (Pass, s1);
      var rest := pids[1..];
      assert KillEachEffect(s, h, pids, fuel) == KillEachEffect(s1, h, rest, fuel);
      WithoutKeepsOrdered(s.table, s.order, pid);
      forall i | 0 <= i < |rest| ensures rest[i] in s1.table {
        assert rest[i] == pids[i + 1];
      }
      KillEachFlat(s1, h, rest, fuel);
      forall q ensures q in pids <==> q == pid || q in rest {
        assert pids == [pid] + rest;
      }
    }
  }

  /** killAll on a flat table, with a frame to spare for the children, empties it. */
  lemma KillAllFlatEmpties(s: PmState, h: Handlers, fuel: nat)
    requires Ordered(s.table, s.order) && Flat(s.table) && fuel >= 1
    ensures var (r, s') := KillEachEffect(s, h, s.order, fuel);
      r == Pass && s'.table == map[] && Shrunk(s, s')
  {
    KillEachFlat(s, h, s.order, fuel);
    KillEachFacts(s, h, s.order, fuel);
    var s' := KillEachEffect(s, h, s.order, fuel).1;
    assert s'.table.Keys == {};
  }

  /** A freshly spawned child is the last of its parent's children, so its kill comes last in the cascade. */
  lemma {:induction false} SpawnAddsLastChild(table: Table, order: seq<Pid>, p: Process, parent: Pid)
    requires p.pid !in order && p.parentPid == Some(parent)
    requires forall i :: 0 <= i < |order| ==> order[i] in table
    ensures ChildPids(table[p.pid := p], order + [p.pid], parent) == ChildPids(table, order, parent) + [p.pid]
    decreases |order|
  {
    var t := table[p.pid := p];
    if |order| == 0 {
      assert [] + [p.pid] == [p.pid];
      assert ChildPids(t, [p.pid], parent) == [p.pid] + ChildPids(t, [], parent);
    } else {
      var head := if order[0] in table && table[order[0]].parentPid == Some(parent) then [order[0]] else [];
      assert (order + [p.pid])[1..] == order[1..] + [p.pid];
      assert order[0] != p.pid && t[order[0]] == table[order[0]];
      forall i | 0 <= i < |order[1..]| ensures order[1..][i] in table {
        assert order[1..][i] == order[i + 1];
      }
      SpawnAddsLastChild(table, order[1..], p, parent);
      assert ChildPids(t, order + [p.pid], parent) == head + ChildPids(t, order[1..] + [p.pid], parent);
      assert ChildPids(table, order, parent) == head + ChildPids(table, order[1..], parent);
    }
  }

  // ---------------------------------------------------------------------------
  // Cleanup, boot-time reclassification and the store's vacuum
  // ---------------------------------------------------------------------------

  /** `processes.delete(pid)` and `storage.delete('processes', pid)` for each record in turn. */
  function DropEach(s: PmState, ps: seq<Process>): PmState
    decreases |ps|
  {
    if |ps| == 0 then s else DropEach(Drop(s, ps[0].pid), ps[1..])
  }

  function Drop(s: PmState, pid: Pid): PmState {
    PmState(s.table - {pid}, Without(s.order, pid), s.stored - {pid}, s.calls)
  }

  lemma DropEachStep(s: PmState, ps: seq<Process>)
    requires |ps| > 0
    ensures DropEach(s, ps) == DropEach(Drop(s, ps[0].pid), ps[1..])
  {
  }

  lemma DropKeepsWellFormed(s: PmState, bound: nat, pid: Pid)
    requires WellFormed(s, bound)
    ensures WellFormed(Drop(s, pid), bound)
  {
    WithoutKeepsOrdered(s.table, s.order, pid);
  }

  /** Dropping a list of processes keeps the order invariant, drops exactly their pids and no calls. */
  lemma {:induction false} DropEachLive(s: PmState, ps: seq<Process>)
    requires Ordered(s.table, s.order)
    decreases |ps|
    ensures Ordered(DropEach(s, ps).table, DropEach(s, ps).order) && DropEach(s, ps).calls == s.calls
    ensures forall q :: q in DropEach(s, ps).table <==> q in s.table && forall i :: 0 <= i < |ps| ==> ps[i].pid != q
    ensures forall q :: q in DropEach(s, ps).table ==> DropEach(s, ps).table[q] == s.table[q]
  {
    if |ps| > 0 {
      var d := Drop(s, ps[0].pid);
      var rest := ps[1..];
      WithoutKeepsOrdered(s.table, s.order, ps[0].pid);
      DropEachLive(d, rest);
      assert DropEach(s, ps) == DropEach(d, rest);
      forall q ensures q in DropEach(d, rest).table <==> q in s.table && forall i :: 0 <= i < |ps| ==> ps[i].pid != q {
        assert (forall i :: 0 <= i < |ps| ==> ps[i].pid != q) <==>
               ps[0].pid != q && forall i :: 0 <= i < |rest| ==> rest[i].pid != q by {
          assert forall i :: 1 <= i < |ps| ==> ps[i] == rest[i - 1];
        }
      }
    }
  }

  /** Dropping a list of processes removes exactly their pids from the store. */
  lemma {:induction false} DropEachStored(s: PmState, ps: seq<Process>)
    decreases |ps|
    ensures forall q :: q in DropEach(s, ps).stored <==> q in s.stored && forall i :: 0 <= i < |ps| ==> ps[i].pid != q
    ensures forall q :: q in DropEach(s, ps).stored ==> DropEach(s, ps).stored[q] == s.stored[q]
  {
    if |ps| > 0 {
      DropEachStored(Drop(s, ps[0].pid), ps[1..]);
      assert forall i :: 1 <= i < |ps| ==> ps[i] == ps[1..][i - 1];
    }
  }

  /** cleanupCrashedProcesses removes from the table and the store exactly the live crashed processes. */
  lemma CleanupRemovesCrashed(s: PmState, bound: nat)
    requires WellFormed(s, bound)
    ensures var s' := DropEach(s, WithStatus(Values(s.table, s.order), Crashed));
      && WellFormed(s', bound) && s'.calls == s.calls
      && (forall q :: q in s'.table <==> q in s.table && s.table[q].status != Crashed)
      && (forall q :: q in s'.table ==> s'.table[q] == s.table[q])
      && (forall q :: q in s'.stored <==> q in s.stored && !(q in s.table && s.table[q].status == Crashed))
  {
    var vs := Values(s.table, s.order);
    var crashed := WithStatus(vs, Crashed);
    DropEachLive(s, crashed);
    DropEachStored(s, crashed);
    forall q | q in s.table && s.table[q].status == Crashed ensures exists i :: 0 <= i < |crashed| && crashed[i].pid == q {
      var i :| 0 <= i < |s.order| && s.order[i] == q;
      assert vs[i] == s.table[q];
      assert s.table[q] in crashed;
      var j :| 0 <= j < |crashed| && crashed[j] == s.table[q];
    }
    forall i | 0 <= i < |crashed| ensures crashed[i].pid in s.table && s.table[crashed[i].pid].status == Crashed {
      assert crashed[i] in vs;
      var j :| 0 <= j < |vs| && vs[j] == crashed[i];
      assert s.order[j] in s.table;
    }
  }

  /** initialize: every stored record that was running is rewritten as crashed. */
  function Reclassified(stored: Store): Store {
    map k | k in stored :: if stored[k].status == Running then stored[k].(status := Crashed) else stored[k]
  }

  /** After initialize no stored record is running; the others are unchanged and the keys are the same. */
  lemma ReclassifiedShape(stored: Store)
    ensures Reclassified(stored).Keys == stored.Keys
    ensures forall k :: k in stored ==> Reclassified(stored)[k].status != Running
    ensures forall k :: k in stored && stored[k].status != Running ==> Reclassified(stored)[k] == stored[k]
    ensures forall k :: k in stored ==> Reclassified(stored)[k].(status := stored[k].status) == stored[k]
    ensures Reclassified(Reclassified(stored)) == Reclassified(stored)
  {
  }

  lemma ReclassifiedKeepsWellFormed(s: PmState, bound: nat)
    requires WellFormed(s, bound)
    ensures WellFormed(s.(stored := Reclassified(s.stored)), bound)
  {
  }

  /** An hour, in milliseconds. */
  const VacuumAge := 3600000

  /** `storage.vacuum()`: the crashed records started more than an hour before `now` are deleted. */
  function Vacuumed(stored: Store, now: int): Store {
    map k | k in stored && !(stored[k].status == Crashed && now - stored[k].startedAt > VacuumAge) :: stored[k]
  }

  /** The vacuum deletes exactly the old crashed records. */
  lemma VacuumShape(stored: Store, now: int)
    ensures forall k :: k in Vacuumed(stored, now) ==> k in stored && Vacuumed(stored, now)[k] == stored[k]
    ensures forall k :: k in stored ==>
      (k in Vacuumed(stored, now) <==> stored[k].status != Crashed || now - stored[k].startedAt <= VacuumAge)
  {
  }

  // ---------------------------------------------------------------------------
  // The manager
  // ---------------------------------------------------------------------------

  class ProcessManager {
    var table: Table
    var order: seq<Pid>
    var stored: Store
    var handlers: Handlers
    var calls: seq<HandlerCall>
    /** The next fresh pid (stands for `uuidv4()`). */
    var nextPid: nat

    function State(): PmState
      reads this
    {
      PmState(table, order, stored, calls)
    }

    ghost predicate Valid()
      reads this
    {
      WellFormed(State(), nextPid)
    }

    /** The singleton over what the store holds, with an empty live table and no handlers. */
    constructor(saved: Store, firstFreePid: nat)
      requires forall k :: k in saved ==> saved[k].pid == k && k < firstFreePid
      ensures Valid()
      ensures table == map[] && order == [] && stored == saved && handlers == map[] && calls == [] && nextPid == firstFreePid
    {
      table := map[];
      order := [];
      stored := saved;
      handlers := map[];
      calls := [];
      nextPid := firstFreePid;
    }

    /** initialize: running records in the store become crashed; the live table is not loaded. */
    method Initialize()
      requires Valid()
      modifies this`stored
      ensures Valid() && stored == Reclassified(old(stored))
    {
      ReclassifiedKeepsWellFormed(State(), nextPid);
      var todo := stored.Keys;
      while todo != {}
        invariant todo <= stored.Keys && stored.Keys == old(stored).Keys
        invariant forall k :: k in stored ==> stored[k] == if k in todo then old(stored)[k] else Reclassified(old(stored))[k]
        decreases todo
      {
        var k :| k in todo;
        if stored[k].status == Running {
          stored := stored[k := stored[k].(status := Crashed)];
        }
        todo := todo - {k};
      }
    }

    method Spawn(name: string, ptype: ProcessType, metadata: MetadataPatch, parentPid: Option<Pid>, now: int)
      returns (p: Process)
      requires Valid()
      modifies this`table, this`order, this`stored, this`calls, this`nextPid
      ensures Valid()
      ensures p == NewProcess(old(nextPid), name, ptype, metadata, parentPid, now)
      ensures table == old(table)[p.pid := p] && order == old(order) + [p.pid] && stored == old(stored)[p.pid := p]
      ensures calls == old(calls) + Emit(handlers, "spawn", p) && nextPid == old(nextPid) + 1
    {
      p := NewProcess(nextPid, name, ptype, metadata, parentPid, now);
      assert p.pid !in order;
      table := table[p.pid := p];
      order := order + [p.pid];
      stored := stored[p.pid := p];
      nextPid := nextPid + 1;
      calls := calls + Emit(handlers, "spawn", p);
    }

    /** The live record and its stored copy become `p`, and when there is an event its handlers are called. */
    method Save(p: Process, event: Option<string>)
      requires Valid() && p.pid in table && p.status != Stopped
      modifies this`table, this`stored, this`calls
      ensures Valid()
      ensures table == old(table)[p.pid := p] && stored == old(stored)[p.pid := p]
      ensures calls == old(calls) + (if event.Some? then Emit(handlers, event.value, p) else [])
    {
      table := table[p.pid := p];
      stored := stored[p.pid := p];
      if event.Some? {
        calls := calls + Emit(handlers, event.value, p);
      }
    }

    method Pause(pid: Pid) returns (r: Outcome<PmError>)
      requires Valid()
      modifies this`table, this`stored, this`calls
      ensures Valid()
      ensures match PauseStep(old(table), pid)
        case Err(e) => r == Fail(e) && table == old(table) && stored == old(stored) && calls == old(calls)
        case Ok(p) => r == Pass && table == old(table)[pid := p] && stored == old(stored)[pid := p]
                      && calls == old(calls) + Emit(handlers, "pause", p)
    {
      var step := PauseStep(table, pid);
      if step.Err? {
        return Fail(step.error);
      }
      Save(step.value, Some("pause"));
      r := Pass;
    }

    method Resume(pid: Pid) returns (r: Outcome<PmError>)
      requires Valid()
      modifies this`table, this`stored, this`calls
      ensures Valid()
      ensures match ResumeStep(old(table), pid)
        case Err(e) => r == Fail(e) && table == old(table) && stored == old(stored) && calls == old(calls)
        case Ok(p) => r == Pass && table == old(table)[pid := p] && stored == old(stored)[pid := p]
                      && calls == old(calls) + Emit(handlers, "resume", p)
    {
      var step := ResumeStep(table, pid);
      if step.Err? {
        return Fail(step.error);
      }
      Save(step.value, Some("resume"));
      r := Pass;
    }

    method Crash(pid: Pid, error: Option<ErrorValue>, now: int) returns (r: Outcome<PmError>)
      requires Valid()
      modifies this`table, this`stored, this`calls
      ensures Valid()
      ensures match CrashStep(old(table), pid, error, now)
        case Err(e) => r == Fail(e) && table == old(table) && stored == old(stored) && calls == old(calls)
        case Ok(p) => r == Pass && table == old(table)[pid := p] && stored == old(stored)[pid := p]
                      && calls == old(calls) + Emit(handlers, "crash", p)
    {
      var step := CrashStep(table, pid, error, now);
      if step.Err? {
        return Fail(step.error);
      }
      Save(step.value, Some("crash"));
      r := Pass;
    }

    method SetPriority(pid: Pid, priority: int) returns (r: Outcome<PmError>)
      requires Valid()
      modifies this`table, this`stored, this`calls
      ensures Valid() && calls == old(calls)
      ensures match PriorityStep(old(table), pid, priority)
        case Err(e) => r == Fail(e) && table == old(table) && stored == old(stored)
        case Ok(p) => r == Pass && table == old(table)[pid := p] && stored == old(stored)[pid := p]
    {
      var step := PriorityStep(table, pid, priority);
      if step.Err? {
        return Fail(step.error);
      }
      Save(step.value, None);
      r := Pass;
    }

    method Kill(pid: Pid, fuel: nat) returns (r: Outcome<PmError>)
      requires Valid()
      modifies this`table, this`order, this`stored, this`calls
      ensures Valid()
      ensures (r, State()) == KillEffect(old(State()), handlers, pid, fuel)
      decreases fuel, 0
    {
      if fuel == 0 {
        return Fail(StackOverflow);
      }
      if pid !in table {
        return Fail(ProcessNotFound(pid));
      }
      var stopped := table[pid].(status := Stopped);
      var children := ChildPids(table, order, pid);
      r := KillEach(children, fuel - 1);
      if r.Fail? {
        return;
      }
      ghost var s1 := State();
      ReapKeepsWellFormed(s1, nextPid, handlers, pid, stopped);
      stored := stored[pid := stopped];
      table := table - {pid};
      order := Without(order, pid);
      calls := calls + Emit(handlers, "kill", stopped);
      assert State() == Reap(s1, handlers, pid, stopped);
    }

    method KillEach(pids: seq<Pid>, fuel: nat) returns (r: Outcome<PmError>)
      requires Valid()
      modifies this`table, this`order, this`stored, this`calls
      ensures Valid()
      ensures (r, State()) == KillEachEffect(old(State()), handlers, pids, fuel)
      decreases fuel, 1
    {
      var i := 0;
      while i < |pids|
        invariant 0 <= i <= |pids| && Valid()
        invariant KillEachEffect(old(State()), handlers, pids, fuel) == KillEachEffect(State(), handlers, pids[i..], fuel)
      {
        assert pids[i..][1..] == pids[i + 1..];
        r := Kill(pids[i], fuel);
        if r.Fail? {
          return;
        }
        i := i + 1;
      }
      r := Pass;
    }

    /** killAll: every pid of the table as it was at the call, killed in order. */
    method KillAll(fuel: nat) returns (r: Outcome<PmError>)
      requires Valid()
      modifies this`table, this`order, this`stored, this`calls
      ensures Valid()
      ensures (r, State()) == KillEachEffect(old(State()), handlers, old(order), fuel)
    {
      var pids := order;
      r := KillEach(pids, fuel);
    }

    /** `storage.vacuum()` on the 'processes' collection: old crashed records are deleted. */
    method Vacuum(now: int)
      requires Valid()
      modifies this`stored
      ensures Valid() && stored == Vacuumed(old(stored), now)
    {
      stored := Vacuumed(stored, now);
    }

    /** `processes.delete(pid)` and `storage.delete('processes', pid)`. */
    method Forget(pid: Pid)
      modifies this`table, this`order, this`stored
      ensures State() == Drop(old(State()), pid)
    {
      table := table - {pid};
      order := Without(order, pid);
      stored := stored - {pid};
    }

    method CleanupCrashedProcesses()
      requires Valid()
      modifies this`table, this`order, this`stored
      ensures Valid()
      ensures State() == DropEach(old(State()), WithStatus(Values(old(table), old(order)), Crashed))
    {
      var crashed := WithStatus(Values(table, order), Crashed);
      ghost var start := State();
      var i := 0;
      while i < |crashed|
        invariant 0 <= i <= |crashed|
        invariant DropEach(State(), crashed[i..]) == DropEach(old(State()), crashed)
      {
        assert crashed[i..][0] == crashed[i] && crashed[i..][1..] == crashed[i + 1..];
        DropEachStep(State(), crashed[i..]);
        Forget(crashed[i].pid);
        i := i + 1;
      }
      CleanupRemovesCrashed(start, nextPid);
    }

    method On(event: string, handler: HandlerId)
      modifies this`handlers
      ensures handlers == Subscribed(old(handlers), event, handler)
    {
      if event !in handlers {
        handlers := handlers[event := [handler]];
      } else if handler !in handlers[event] {
        handlers := handlers[event := handlers[event] + [handler]];
      }
    }

    method Off(event: string, handler: HandlerId)
      modifies this`handlers
      ensures handlers == Unsubscribed(old(handlers), event, handler)
    {
      if event in handlers {
        handlers := handlers[event := WithoutHandler(handlers[event], handler)];
      }
    }
  }
}
