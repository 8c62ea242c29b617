/** The jobs table as the manager holds it: a hash table of job objects that share one
    kernel.  Its walks over the objects are the walks of JobTable over values. */
module JobObjects {
  import opened Jobs
  import opened JobTable

  class JobHash {
    const os: ProcessTable
    var jobs: map<WindowId, SaverJob>

    constructor (os: ProcessTable)
      ensures this.os == os && jobs == map[] && Valid()
    {
      this.os := os;
      jobs := map[];
    }

    /** No two windows share a job object, and all jobs act on the same kernel. */
    ghost predicate Valid()
      reads this
    {
      && (forall w :: w in jobs ==> jobs[w].os == os)
      && (forall v, w :: v in jobs && w in jobs && v != w ==> jobs[v] != jobs[w])
    }

    ghost function View(): Table
      reads this, os, jobs.Values
    {
      Table(map w | w in jobs :: jobs[w].View(), os.kernel)
    }

    method StopOne(w: WindowId)
      requires Valid() && w in jobs
      modifies jobs[w], os
      ensures View() == StopFor(old(View()), w)
    {
      var _ := jobs[w].StopJob();
      assert View().jobs == old(View()).jobs[w := jobs[w].View()];
    }

    method SuspendOne(w: WindowId, suspend: bool)
      requires Valid() && w in jobs
      modifies jobs[w], os
      ensures View() == SuspendFor(old(View()), w, suspend)
    {
      var _ := jobs[w].SuspendJob(suspend);
      assert View().jobs == old(View()).jobs[w := jobs[w].View()];
    }

    method MaybeStartOne(w: WindowId, c: Walk)
      requires Valid() && w in jobs
      modifies jobs[w], os
      ensures View() == MaybeStart(old(View()), w, c)
    {
      if !c.blocked && jobs[w].pid == 0 && w !in c.obscured {
        var _ := jobs[w].StartJob(c.spawns.PidFor(w));
        assert View().jobs == old(View()).jobs[w := jobs[w].View()];
      }
    }

    method SelectThemeOne(w: WindowId, c: Walk)
      requires Valid() && w in jobs
      modifies jobs[w]
      ensures View() == SelectTheme(old(View()), w, c)
    {
      jobs[w].hasCommand := c.spawns.CommandFor(w);
      assert View().jobs == old(View()).jobs[w := jobs[w].View()];
    }

    /** One visit of a walk. */
    method Visit(op: JobOp, w: WindowId, c: Walk)
      requires Valid() && w in jobs
      modifies jobs[w], os
      ensures View() == Apply(old(View()), op, w, c)
    {
      hide StopFor, SuspendFor, MaybeStart, SelectTheme;
      match op {
        case OpStop => StopOne(w);
        case OpSuspend => SuspendOne(w, true);
        case OpResume =>
          if jobs[w].pid > 0 {
            SuspendOne(w, false);
          } else {
            MaybeStartOne(w, c);
          }
        case OpStart => MaybeStartOne(w, c);
        case OpCycle =>
          StopOne(w);
          SelectThemeOne(w, c);
          MaybeStartOne(w, c);
      }
    }

    /** The walk over the objects is the walk over the values. */
    method VisitAll(op: JobOp, order: seq<WindowId>, c: Walk)
      requires Valid() && forall i :: 0 <= i < |order| ==> order[i] in jobs
      modifies jobs.Values, os
      ensures View() == ApplyAll(old(View()), op, order, c)
    {
      hide Apply;
      var i := 0;
      while i < |order|
        invariant i <= |order|
        invariant ApplyAll(View(), op, order[i..], c) == ApplyAll(old(View()), op, order, c)
      {
        assert order[i..][1..] == order[i + 1..];
        Visit(op, order[i], c);
        i := i + 1;
      }
    }

    /** The output of a job's child has closed. */
    method OutputClosed(w: WindowId)
      requires Valid() && w in jobs
      modifies jobs[w], os
      ensures View() == JobHup(old(View()), w)
    {
      var pid := jobs[w].pid;
      var done := jobs[w].watch && pid in os.kernel.children && os.kernel.children[pid] == Exited;
      var _ := jobs[w].CommandWatch(done);
      assert View().jobs == old(View()).jobs[w := jobs[w].View()];
      assert !done ==> View().jobs == old(View()).jobs;
    }

    method Add(w: WindowId, hasCommand: bool)
      requires Valid()
      modifies this
      ensures Valid() && View() == old(View()).(jobs := old(View()).jobs[w := NewJob(hasCommand)])
    {
      var job := new SaverJob(os, hasCommand);
      jobs := jobs[w := job];
    }

    /** Destroying the table stops every job: no child is left, and no wait has hung. */
    method Destroy(order: seq<WindowId>, c: Walk)
      requires Valid() && TableOk(View(), c.obscured)
      requires Enumerates(order, jobs.Keys)
      modifies this, jobs.Values, os
      ensures jobs == map[] && os.kernel == Kernel(map[], false)
    {
      StopAllLeavesNone(View(), order, c);
      hide TableOk;
      VisitAll(OpStop, order, c);
      jobs := map[];
    }
  }
}
