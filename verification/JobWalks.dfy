/** What the walks over the jobs do to each job: the counterpart of JobTable, which says
    what they keep. */
module JobWalks {
  import opened Jobs
  import opened JobTable

  predicate Runs(j: Job) {
    j.pid > 0 && j.status == Running
  }

  /** The same job, its process (if any) stopped or continued. */
  function Signalled(j: Job, suspend: bool): Job {
    if j.pid > 0 then j.(status := if suspend then Stopped else Running) else j
  }

  // ----- Suspending and resuming -------------------------------------------------

  /** Every listed job that has a process keeps it, suspended or running again; suspending
      leaves a job without a process alone. */
  lemma {:induction false} SignalAll(t: Table, op: JobOp, order: seq<WindowId>, c: Walk, w: WindowId)
    requires op == OpSuspend || op == OpResume
    requires TableOk(t, c.obscured) && w in t.jobs && w in order
    requires t.jobs[w].pid > 0 || op == OpSuspend
    ensures var u := ApplyAll(t, op, order, c);
            w in u.jobs && u.jobs[w] == Signalled(t.jobs[w], op == OpSuspend)
    decreases |order|
  {
    var t1 := Apply(t, op, order[0], c);
    ApplyKeeps(t, op, order[0], c);
    assert order[0] == w ==> t1.jobs[w] == Signalled(t.jobs[w], op == OpSuspend);
    hide Apply, TableOk;
    if w in order[1..] {
      SignalAll(t1, op, order[1..], c, w);
    } else {
      ApplyAllKeeps(t1, op, order[1..], c);
    }
  }

  lemma StartableResumed(t: Table, order: seq<WindowId>, c: Walk)
    requires order != [] && Startable(t, order, c)
    ensures Startable(Apply(t, OpResume, order[0], c), order[1..], c)
  {
  }

  lemma ResumeStarts(t: Table, w: WindowId, c: Walk)
    requires TableOk(t, c.obscured) && w in t.jobs && !c.blocked && w !in c.obscured && t.jobs[w].pid == 0
    requires t.jobs[w].hasCommand && SpawnOk(t.kernel, c.spawns.PidFor(w))
    ensures var u := Apply(t, OpResume, w, c);
            Runs(u.jobs[w]) && u.jobs[w].pid == c.spawns.PidFor(w)
  {
  }

  /** Resuming gets every job that is not obscured running: one that has a process keeps
      it, one that has none is started. */
  lemma {:induction false} ResumeAll(t: Table, order: seq<WindowId>, c: Walk, w: WindowId)
    requires TableOk(t, c.obscured) && Startable(t, order, c) && w in t.jobs && w in order && w !in c.obscured
    ensures var u := ApplyAll(t, OpResume, order, c);
            && w in u.jobs && Runs(u.jobs[w])
            && u.jobs[w].pid == (if t.jobs[w].pid > 0 then t.jobs[w].pid else c.spawns.PidFor(w))
    decreases |order|
  {
    if t.jobs[w].pid > 0 {
      SignalAll(t, OpResume, order, c, w);
    } else {
      var t1 := Apply(t, OpResume, order[0], c);
      ApplyKeeps(t, OpResume, order[0], c);
      StartableResumed(t, order, c);
      if order[0] == w {
        ResumeStarts(t, w, c);
        hide Apply, TableOk, Startable;
        if w in order[1..] {
          SignalAll(t1, OpResume, order[1..], c, w);
        } else {
          ApplyAllKeeps(t1, OpResume, order[1..], c);
        }
      } else {
        hide Apply, TableOk, Startable;
        ResumeAll(t1, order[1..], c, w);
      }
    }
  }

  // ----- Cycling -----------------------------------------------------------------

  /** Every listed window whose new theme has a command would get a pid of its own. */
  ghost predicate Cyclable(t: Table, order: seq<WindowId>, c: Walk) {
    && !c.blocked
    && (forall i, j :: 0 <= i < j < |order| ==> order[i] != order[j])
    && (forall w :: w in order && c.spawns.CommandFor(w) && w !in c.obscured ==> SpawnOk(t.kernel, c.spawns.PidFor(w)))
    && (forall v, w :: v in order && w in order && v != w ==> c.spawns.PidFor(v) != c.spawns.PidFor(w))
  }

  /** A job after cycling: its old process is gone, and it runs in a new one exactly if its
      new theme has a command and its window is not obscured. */
  predicate Cycled(j: Job, w: WindowId, c: Walk) {
    && j.hasCommand == c.spawns.CommandFor(w)
    && j.pid == (if c.spawns.CommandFor(w) && w !in c.obscured then c.spawns.PidFor(w) else 0)
    && (j.pid > 0 ==> j.status == Running)
  }

  /** What one visit does to the set of children. */
  lemma CycleVisit(t: Table, order: seq<WindowId>, c: Walk)
    requires order != [] && order[0] in t.jobs
    requires TableOk(t, c.obscured) && Cyclable(t, order, c)
    ensures var u := Apply(t, OpCycle, order[0], c);
            && Cycled(u.jobs[order[0]], order[0], c)
            && (forall p :: p in u.kernel.children ==> p in t.kernel.children || p == c.spawns.PidFor(order[0]))
  {
    var w := order[0];
    assert w in order;
    StopReaps(t.jobs[w], t.kernel);
  }

  lemma CyclableNext(t: Table, u: Table, order: seq<WindowId>, c: Walk)
    requires order != [] && Cyclable(t, order, c)
    requires forall p :: p in u.kernel.children ==> p in t.kernel.children || p == c.spawns.PidFor(order[0])
    ensures Cyclable(u, order[1..], c) && order[0] !in order[1..]
  {
    assert order[0] in order;
    assert forall w :: w in order[1..] ==> w in order;
    assert forall i :: 0 <= i < |order| - 1 ==> order[1..][i] == order[i + 1];
  }

  /** Cycling ends every saver and starts it afresh with a newly picked theme. */
  lemma {:induction false} CycleAll(t: Table, order: seq<WindowId>, c: Walk, w: WindowId)
    requires TableOk(t, c.obscured) && Cyclable(t, order, c) && w in t.jobs && w in order
    requires forall v :: v in order ==> v in t.jobs
    ensures var u := ApplyAll(t, OpCycle, order, c);
            w in u.jobs && Cycled(u.jobs[w], w, c)
    decreases |order|
  {
    var t1 := Apply(t, OpCycle, order[0], c);
    ApplyKeeps(t, OpCycle, order[0], c);
    CycleVisit(t, order, c);
    CyclableNext(t, t1, order, c);
    hide Apply, TableOk, Cyclable, Cycled;
    if order[0] == w {
      ApplyAllKeeps(t1, OpCycle, order[1..], c);
    } else {
      CycleAll(t1, order[1..], c, w);
    }
  }
}
