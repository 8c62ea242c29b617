/** The manager's hash table of jobs, one per window, and the bulk operations that
    walk it: cycling, throttling, suspending, resuming and stopping. */
module JobTable {
  import opened Jobs

  type WindowId = nat

  datatype Table = Table(jobs: map<WindowId, Job>, kernel: Kernel)

  /** What the environment decides while jobs are being started: the pid each spawn
      would get (none, zero or a taken one means failure) and whether the theme that
      is picked for a window has a command. */
  datatype Spawns = Spawns(pid: map<WindowId, nat>, command: map<WindowId, bool>) {
    function PidFor(w: WindowId): nat { if w in pid then pid[w] else 0 }
    function CommandFor(w: WindowId): bool { w in command && command[w] }
  }

  /** What the manager knows while it walks the table: starting is held back while
      the dialog is up or savers are throttled, and for obscured windows. */
  datatype Walk = Walk(blocked: bool, obscured: set<WindowId>, spawns: Spawns)

  datatype JobOp = OpStop | OpSuspend | OpResume | OpStart | OpCycle

  function Put(t: Table, w: WindowId, r: JobIn): Table {
    Table(t.jobs[w := r.job], r.k)
  }

  function StopFor(t: Table, w: WindowId): Table {
    if w !in t.jobs then t else Put(t, w, Stop(t.jobs[w], t.kernel))
  }

  function SuspendFor(t: Table, w: WindowId, suspend: bool): Table {
    if w !in t.jobs then t else Put(t, w, Suspend(t.jobs[w], t.kernel, suspend))
  }

  function MaybeStart(t: Table, w: WindowId, c: Walk): Table {
    if w !in t.jobs || c.blocked || t.jobs[w].IsRunning() || w in c.obscured then t
    else Put(t, w, Start(t.jobs[w], t.kernel, c.spawns.PidFor(w)))
  }

  function SelectTheme(t: Table, w: WindowId, c: Walk): Table {
    if w !in t.jobs then t
    else t.(jobs := t.jobs[w := t.jobs[w].(hasCommand := c.spawns.CommandFor(w))])
  }

  function Apply(t: Table, op: JobOp, w: WindowId, c: Walk): Table {
    match op
    case OpStop => StopFor(t, w)
    case OpSuspend => SuspendFor(t, w, true)
    case OpResume => if w in t.jobs && t.jobs[w].IsRunning() then SuspendFor(t, w, false) else MaybeStart(t, w, c)
    case OpStart => MaybeStart(t, w, c)
    case OpCycle => MaybeStart(SelectTheme(StopFor(t, w), w, c), w, c)
  }

  /** The walk itself, in the order in which the hash table happens to list its keys. */
  function ApplyAll(t: Table, op: JobOp, order: seq<WindowId>, c: Walk): Table
    decreases |order|
  {
    if order == [] then t else ApplyAll(Apply(t, op, order[0], c), op, order[1..], c)
  }

  predicate Enumerates(order: seq<WindowId>, keys: set<WindowId>) {
    && (forall w :: w in keys ==> w in order)
    && (forall w :: w in order ==> w in keys)
    && (forall i, j :: 0 <= i < j < |order| ==> order[i] != order[j])
  }

  // ----- The table's invariant ------------------------------------------------

  /** Child-process conservation: the unreaped children are exactly the positive pids
      in the table, no two jobs share one, statuses agree with the kernel, no wait has
      hung, and an obscured window's job has no process. */
  ghost predicate TableOk(t: Table, obscured: set<WindowId>) {
    && !t.kernel.stuck && 0 !in t.kernel.children
    && JobsOk(t)
    && DistinctPids(t)
    && ChildrenHeld(t)
    && (forall w :: w in t.jobs && w in obscured ==> t.jobs[w].pid == 0)
  }

  ghost predicate JobsOk(t: Table) {
    forall w :: w in t.jobs ==> JobOk(t.jobs[w], t.kernel)
  }

  ghost predicate DistinctPids(t: Table) {
    forall v, w :: v in t.jobs && w in t.jobs && v != w && t.jobs[v].pid > 0 ==> t.jobs[v].pid != t.jobs[w].pid
  }

  ghost predicate ChildrenHeld(t: Table) {
    forall p {:trigger Held(t, p)} :: p in t.kernel.children ==> Held(t, p)
  }

  ghost predicate Held(t: Table, p: nat) {
    exists w :: w in t.jobs && t.jobs[w].pid == p
  }

  ghost predicate AllQuiet(t: Table) {
    forall w :: w in t.jobs ==> Quiet(t.jobs[w])
  }

  ghost predicate NoProcess(t: Table) {
    forall w :: w in t.jobs ==> t.jobs[w].pid == 0
  }

  ghost predicate ChangesOnly(before: map<nat, Proc>, after: map<nat, Proc>, pids: set<nat>) {
    forall p :: p !in pids ==>
      (p in after <==> p in before) && (p in before ==> after[p] == before[p])
  }

  /** What it takes to replace one job, the kernel changing at that job's pid only. */
  ghost predicate Replaceable(t: Table, w: WindowId, r: JobIn) {
    && w in t.jobs
    && JobOk(r.job, r.k) && r.k.stuck == t.kernel.stuck
    && (r.job.pid == t.jobs[w].pid || r.job.pid == 0 || (t.jobs[w].pid == 0 && SpawnOk(t.kernel, r.job.pid)))
    && ChangesOnly(t.kernel.children, r.k.children, {t.jobs[w].pid, r.job.pid})
    && (t.jobs[w].pid > 0 && r.job.pid == 0 ==> t.jobs[w].pid !in r.k.children)
    && 0 !in r.k.children
  }

  lemma OthersKeep(t: Table, w: WindowId, r: JobIn, v: WindowId)
    requires Replaceable(t, w, r) && JobsOk(t) && DistinctPids(t) && v in t.jobs && v != w
    ensures JobOk(t.jobs[v], r.k)
    ensures t.jobs[v].pid > 0 ==> t.jobs[v].pid != r.job.pid
  {
    assert JobOk(t.jobs[v], t.kernel);
  }

  lemma PutChildrenHeld(t: Table, w: WindowId, r: JobIn)
    requires Replaceable(t, w, r) && ChildrenHeld(t)
    ensures ChildrenHeld(Put(t, w, r))
  {
    var u := Put(t, w, r);
    forall p | p in r.k.children
      ensures Held(u, p)
    {
      if p == r.job.pid {
        assert u.jobs[w].pid == p;
      } else {
        assert p in t.kernel.children && Held(t, p);
        var x :| x in t.jobs && t.jobs[x].pid == p;
        assert u.jobs[x].pid == p;
      }
    }
  }

  lemma PutKeeps(t: Table, w: WindowId, r: JobIn, obscured: set<WindowId>)
    requires TableOk(t, obscured) && Replaceable(t, w, r)
    requires w in obscured ==> r.job.pid == 0
    ensures TableOk(Put(t, w, r), obscured)
  {
    var u := Put(t, w, r);
    PutChildrenHeld(t, w, r);
    forall v | v in t.jobs && v != w
      ensures JobOk(t.jobs[v], r.k)
      ensures t.jobs[v].pid > 0 ==> t.jobs[v].pid != r.job.pid
    {
      OthersKeep(t, w, r, v);
    }
    hide ChildrenHeld, ChangesOnly, JobOk;
    assert JobsOk(u) && DistinctPids(u);
  }

  lemma StopForKeeps(t: Table, w: WindowId, obscured: set<WindowId>)
    requires TableOk(t, obscured)
    ensures TableOk(StopFor(t, w), obscured)
    ensures w in t.jobs ==> StopFor(t, w).jobs[w].pid == 0
    ensures w in t.jobs ==> StopFor(t, w).kernel.children.Keys == t.kernel.children.Keys - {t.jobs[w].pid}
  {
    if w in t.jobs {
      StopReaps(t.jobs[w], t.kernel);
      PutKeeps(t, w, Stop(t.jobs[w], t.kernel), obscured);
    }
  }

  lemma SuspendForKeeps(t: Table, w: WindowId, suspend: bool, obscured: set<WindowId>)
    requires TableOk(t, obscured)
    ensures TableOk(SuspendFor(t, w, suspend), obscured)
  {
    if w in t.jobs {
      PutKeeps(t, w, Suspend(t.jobs[w], t.kernel, suspend), obscured);
    }
  }

  lemma MaybeStartKeeps(t: Table, w: WindowId, c: Walk)
    requires TableOk(t, c.obscured)
    ensures TableOk(MaybeStart(t, w, c), c.obscured)
  {
    if w in t.jobs && !c.blocked && !t.jobs[w].IsRunning() && w !in c.obscured {
      PutKeeps(t, w, Start(t.jobs[w], t.kernel, c.spawns.PidFor(w)), c.obscured);
    }
  }

  lemma SelectThemeKeeps(t: Table, w: WindowId, c: Walk)
    requires TableOk(t, c.obscured)
    ensures TableOk(SelectTheme(t, w, c), c.obscured)
  {
    if w in t.jobs {
      PutKeeps(t, w, JobIn(t.jobs[w].(hasCommand := c.spawns.CommandFor(w)), t.kernel), c.obscured);
      assert SelectTheme(t, w, c) == Put(t, w, JobIn(t.jobs[w].(hasCommand := c.spawns.CommandFor(w)), t.kernel));
    }
  }

  /** What one visit promises: the invariant, every other window's job untouched, and
      the visited job stopped, quiet or not woken, depending on the operation. */
  ghost predicate Visited(t: Table, u: Table, op: JobOp, w: WindowId, c: Walk) {
    && TableOk(u, c.obscured)
    && u.jobs.Keys == t.jobs.Keys
    && (forall v :: v in t.jobs && v != w ==> u.jobs[v] == t.jobs[v])
    && (w in t.jobs ==>
          && (op == OpStop ==> u.jobs[w].pid == 0)
          && (op == OpSuspend ==> Quiet(u.jobs[w]))
          && (c.blocked && op != OpResume && Quiet(t.jobs[w]) ==> Quiet(u.jobs[w])))
  }

  lemma CycleKeeps(t: Table, w: WindowId, c: Walk)
    requires TableOk(t, c.obscured)
    ensures Visited(t, Apply(t, OpCycle, w, c), OpCycle, w, c)
  {
    var a := StopFor(t, w);
    var b := SelectTheme(a, w, c);
    assert TableOk(MaybeStart(b, w, c), c.obscured) by {
      hide JobsOk, DistinctPids, ChildrenHeld;
      StopForKeeps(t, w, c.obscured);
      SelectThemeKeeps(a, w, c);
      MaybeStartKeeps(b, w, c);
    }
    hide TableOk;
  }

  lemma ApplyKeeps(t: Table, op: JobOp, w: WindowId, c: Walk)
    requires TableOk(t, c.obscured)
    ensures Visited(t, Apply(t, op, w, c), op, w, c)
  {
    hide TableOk;
    match op
    case OpStop => StopForKeeps(t, w, c.obscured);
    case OpSuspend => SuspendForKeeps(t, w, true, c.obscured);
    case OpResume =>
      if w in t.jobs && t.jobs[w].IsRunning() {
        SuspendForKeeps(t, w, false, c.obscured);
      } else {
        MaybeStartKeeps(t, w, c);
      }
    case OpStart => MaybeStartKeeps(t, w, c);
    case OpCycle => CycleKeeps(t, w, c);
  }

  /** One visit of a walk that starts jobs: a job that may start is running afterwards if
      and only if it was not suspended. */
  lemma StartWakesUnlessSuspended(t: Table, w: WindowId, c: Walk)
    requires TableOk(t, c.obscured) && w in t.jobs && !c.blocked && w !in c.obscured
    requires t.jobs[w].hasCommand && SpawnOk(t.kernel, c.spawns.PidFor(w))
    ensures var u := Apply(t, OpStart, w, c);
            u.jobs[w].pid > 0 && (u.jobs[w].status == Running <==> t.jobs[w].pid == 0 || t.jobs[w].status != Stopped)
  {
    assert JobOk(t.jobs[w], t.kernel);
  }

  /** A walk that starts jobs leaves those alone that have a process, suspended or not. */
  lemma {:induction false} StartLeavesRunning(t: Table, order: seq<WindowId>, c: Walk, w: WindowId)
    requires w in t.jobs && t.jobs[w].pid > 0
    ensures var u := ApplyAll(t, OpStart, order, c);
            w in u.jobs && u.jobs[w] == t.jobs[w]
    decreases |order|
  {
    if order != [] {
      StartLeavesRunning(Apply(t, OpStart, order[0], c), order[1..], c, w);
    }
  }

  /** Every job of the list that has no process may be started: its theme has a command,
      and the kernel grants pids that are free and distinct. */
  ghost predicate Startable(t: Table, order: seq<WindowId>, c: Walk) {
    && !c.blocked
    && (forall w :: w in order && w in t.jobs && t.jobs[w].pid == 0 && w !in c.obscured ==>
          t.jobs[w].hasCommand && SpawnOk(t.kernel, c.spawns.PidFor(w)))
    && (forall v, w :: v in t.jobs && w in t.jobs && v != w ==> c.spawns.PidFor(v) != c.spawns.PidFor(w))
  }

  lemma StartableNext(t: Table, order: seq<WindowId>, c: Walk)
    requires order != [] && Startable(t, order, c)
    ensures Startable(Apply(t, OpStart, order[0], c), order[1..], c)
  {
  }

  /** A whole walk: exactly the jobs that have a process are left as they are, all others
      that are not obscured get running. */
  lemma {:induction false} StartAll(t: Table, order: seq<WindowId>, c: Walk, w: WindowId)
    requires TableOk(t, c.obscured) && Startable(t, order, c) && w in t.jobs && w in order && w !in c.obscured
    ensures var u := ApplyAll(t, OpStart, order, c);
            && w in u.jobs && u.jobs[w].pid > 0
            && (u.jobs[w].status == Running <==> t.jobs[w].pid == 0 || t.jobs[w].status != Stopped)
    decreases |order|
  {
    if t.jobs[w].pid > 0 {
      StartLeavesRunning(t, order, c, w);
    } else {
      var t1 := Apply(t, OpStart, order[0], c);
      ApplyKeeps(t, OpStart, order[0], c);
      StartableNext(t, order, c);
      if order[0] == w {
        StartWakesUnlessSuspended(t, w, c);
        hide Apply, TableOk;
        StartLeavesRunning(t1, order[1..], c, w);
      } else {
        hide Apply, TableOk;
        StartAll(t1, order[1..], c, w);
      }
    }
  }

  /** What a whole walk promises: the invariant, jobs not listed untouched; stopping leaves
      no process, suspending leaves nothing executing, and nothing wakes while blocked. */
  ghost predicate Walked(t: Table, u: Table, op: JobOp, order: seq<WindowId>, c: Walk) {
    && TableOk(u, c.obscured)
    && u.jobs.Keys == t.jobs.Keys
    && (forall w :: w in t.jobs && w !in order ==> u.jobs[w] == t.jobs[w])
    && (op == OpStop ==> forall w :: w in t.jobs && (w in order || t.jobs[w].pid == 0) ==> u.jobs[w].pid == 0)
    && (op == OpSuspend ==> forall w :: w in t.jobs && (w in order || Quiet(t.jobs[w])) ==> Quiet(u.jobs[w]))
    && (c.blocked && op != OpResume && AllQuiet(t) ==> AllQuiet(u))
  }

  lemma WalkedOn(t: Table, t1: Table, u: Table, op: JobOp, order: seq<WindowId>, c: Walk)
    requires order != [] && Visited(t, t1, op, order[0], c) && Walked(t1, u, op, order[1..], c)
    ensures Walked(t, u, op, order, c)
  {
    hide TableOk;
    assert forall w :: w in order <==> w == order[0] || w in order[1..];
    if c.blocked && op != OpResume && AllQuiet(t) {
      assert forall w :: w in t.jobs ==> Quiet(t1.jobs[w]);
      assert AllQuiet(t1);
    }
    hide AllQuiet;
  }

  /** The walk keeps its promise for every operation in every order. */
  lemma {:induction false} ApplyAllKeeps(t: Table, op: JobOp, order: seq<WindowId>, c: Walk)
    requires TableOk(t, c.obscured)
    ensures Walked(t, ApplyAll(t, op, order, c), op, order, c)
    decreases |order|
  {
    if order != [] {
      hide TableOk, Apply, Walked;
      var t1 := Apply(t, op, order[0], c);
      ApplyKeeps(t, op, order[0], c);
      assert TableOk(t1, c.obscured);
      hide Visited;
      ApplyAllKeeps(t1, op, order[1..], c);
      WalkedOn(t, t1, ApplyAll(t, op, order, c), op, order, c);
    }
  }

  /** Destroying the table stops every job: no child is left behind. */
  lemma StopAllLeavesNone(t: Table, order: seq<WindowId>, c: Walk)
    requires TableOk(t, c.obscured)
    requires forall w :: w in t.jobs ==> w in order
    ensures var u := ApplyAll(t, OpStop, order, c);
            NoProcess(u) && u.kernel == Kernel(map[], false)
  {
    var u := ApplyAll(t, OpStop, order, c);
    ApplyAllKeeps(t, OpStop, order, c);
    assert forall p :: p in u.kernel.children ==> Held(u, p);
    assert u.kernel.children == map[];
  }

  /** With every job quiet, no saver process is executing anywhere. */
  lemma QuietTableHasNoExecutingChild(t: Table, obscured: set<WindowId>)
    requires TableOk(t, obscured) && AllQuiet(t)
    ensures forall p :: p in t.kernel.children ==> t.kernel.children[p] != Executing
  {
    forall p | p in t.kernel.children
      ensures t.kernel.children[p] != Executing
    {
      assert Held(t, p);
      var w :| w in t.jobs && t.jobs[w].pid == p;
      assert JobOk(t.jobs[w], t.kernel) && Quiet(t.jobs[w]);
    }
  }

  /** A child exits on its own; the job only notices later. */
  function ChildExits(t: Table, p: nat): Table {
    if p in t.kernel.children then t.(kernel := t.kernel.(children := t.kernel.children[p := Exited])) else t
  }

  lemma ChildExitsKeeps(t: Table, p: nat, obscured: set<WindowId>)
    requires TableOk(t, obscured)
    ensures TableOk(ChildExits(t, p), obscured)
  {
    var u := ChildExits(t, p);
    assert u.kernel.children.Keys == t.kernel.children.Keys;
    forall x | x in u.kernel.children ensures Held(u, x) {
      assert Held(t, x);
    }
  }

  /** The watch on a child's standard error fires once the child has exited. */
  function JobHup(t: Table, w: WindowId): Table {
    if w in t.jobs && t.jobs[w].watch && t.jobs[w].pid in t.kernel.children &&
       t.kernel.children[t.jobs[w].pid] == Exited
    then Put(t, w, CommandWatchDone(t.jobs[w], t.kernel))
    else t
  }

  /** A watched job whose child has exited lets go of exactly that child; otherwise nothing
      happens. */
  predicate Reaped(t: Table, w: WindowId, u: Table) {
    if w in t.jobs && t.jobs[w].watch && t.jobs[w].pid in t.kernel.children && t.kernel.children[t.jobs[w].pid] == Exited then
      && u.jobs.Keys == t.jobs.Keys && u.jobs[w].pid == 0 && !u.jobs[w].watch
      && u.kernel.children == t.kernel.children - {t.jobs[w].pid}
    else u == t
  }

  lemma JobHupKeeps(t: Table, w: WindowId, obscured: set<WindowId>)
    requires TableOk(t, obscured)
    ensures TableOk(JobHup(t, w), obscured) && Reaped(t, w, JobHup(t, w))
    ensures AllQuiet(t) ==> AllQuiet(JobHup(t, w))
  {
    if JobHup(t, w) != t {
      PutKeeps(t, w, CommandWatchDone(t.jobs[w], t.kernel), obscured);
    }
  }

  /** The obscured set may shrink, or grow by a window whose job has no process. */
  lemma ObscuredMayChange(t: Table, before: set<WindowId>, after: set<WindowId>)
    requires TableOk(t, before)
    requires forall w :: w in after && w !in before && w in t.jobs ==> t.jobs[w].pid == 0
    ensures TableOk(t, after)
  {
  }

  /** A fresh job has no process, so adding one changes nothing for the others. */
  lemma AddJobKeeps(t: Table, w: WindowId, hasCommand: bool, obscured: set<WindowId>)
    requires TableOk(t, obscured) && w !in t.jobs
    ensures TableOk(t.(jobs := t.jobs[w := NewJob(hasCommand)]), obscured)
    ensures AllQuiet(t) ==> AllQuiet(t.(jobs := t.jobs[w := NewJob(hasCommand)]))
  {
    var u := t.(jobs := t.jobs[w := NewJob(hasCommand)]);
    forall p | p in u.kernel.children
      ensures Held(u, p)
    {
      assert Held(t, p);
      var x :| x in t.jobs && t.jobs[x].pid == p;
      assert u.jobs[x].pid == p;
    }
  }

  /** Dropping a stopped job from the table loses no process. */
  lemma DropJobKeeps(t: Table, w: WindowId, obscured: set<WindowId>)
    requires TableOk(t, obscured)
    requires w in t.jobs ==> t.jobs[w].pid == 0
    ensures TableOk(t.(jobs := t.jobs - {w}), obscured)
    ensures AllQuiet(t) ==> AllQuiet(t.(jobs := t.jobs - {w}))
  {
    var u := t.(jobs := t.jobs - {w});
    forall p | p in u.kernel.children
      ensures Held(u, p)
    {
      assert Held(t, p);
      var x :| x in t.jobs && t.jobs[x].pid == p;
      assert u.jobs[x].pid == p;
    }
  }
}
