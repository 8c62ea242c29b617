/** Saver processes: one `GSJob` per screensaver window, and the kernel's view of
    the child processes that the jobs start, suspend, kill and wait for. */
module Jobs {

  // ----- The kernel's side ---------------------------------------------------

  /** A child that has not been waited for.  A stopped child keeps a SIGTERM
      pending until it is continued. */
  datatype Proc = Executing | Suspended(termPending: bool) | Exited

  /** `stuck` records a wait that can never return: one on a stopped child. */
  datatype Kernel = Kernel(children: map<nat, Proc>, stuck: bool)

  datatype Sig = SigStop | SigCont | SigTerm

  function Deliver(p: Proc, sig: Sig): Proc {
    match (p, sig)
    case (Executing, SigStop) => Suspended(false)
    case (Executing, SigTerm) => Exited
    case (Suspended(term), SigCont) => if term then Exited else Executing
    case (Suspended(_), SigTerm) => Suspended(true)
    case _ => p
  }

  function Signal(k: Kernel, pid: nat, sig: Sig): Kernel {
    if pid in k.children then k.(children := k.children[pid := Deliver(k.children[pid], sig)]) else k
  }

  /** A blocking `waitpid`: it returns once the child exits, and so never for a
      stopped one; an unknown pid fails at once. */
  function WaitOnChild(k: Kernel, pid: nat): Kernel {
    if pid !in k.children then k
    else if k.children[pid].Suspended? then k.(stuck := true)
    else k.(children := k.children - {pid})
  }

  /** The environment proposes a pid; zero or one that is in use means the spawn failed. */
  predicate SpawnOk(k: Kernel, pid: nat) {
    pid > 0 && pid !in k.children
  }

  // ----- The job's side ------------------------------------------------------

  datatype Status = Invalid | Running | Stopped | Killed | Dead

  datatype Job = Job(status: Status, pid: nat, watch: bool, hasCommand: bool) {
    predicate IsRunning() { pid > 0 }
  }

  /** A job together with the kernel it acts on. */
  datatype JobIn = JobIn(job: Job, k: Kernel)

  function NewJob(hasCommand: bool): Job {
    Job(Invalid, 0, false, hasCommand)
  }

  function Start(j: Job, k: Kernel, pid: nat): JobIn {
    if j.pid != 0 || !j.hasCommand || !SpawnOk(k, pid) then JobIn(j, k)
    else JobIn(j.(status := Running, pid := pid, watch := true), k.(children := k.children[pid := Executing]))
  }

  function Suspend(j: Job, k: Kernel, suspend: bool): JobIn {
    if j.pid == 0 then JobIn(j, k)
    else JobIn(j.(status := if suspend then Stopped else Running),
               Signal(k, j.pid, if suspend then SigStop else SigCont))
  }

  function Died(j: Job, k: Kernel): JobIn {
    if j.pid > 0 then JobIn(j.(status := Dead, pid := 0), WaitOnChild(k, j.pid)) else JobIn(j, k)
  }

  function Stop(j: Job, k: Kernel): JobIn {
    if j.pid == 0 then JobIn(j, k)
    else
      var r := if j.status == Stopped then Suspend(j, k, false) else JobIn(j, k);
      Died(r.job.(watch := false, status := Killed), Signal(r.k, j.pid, SigTerm))
  }

  /** The watch on the child's standard error reports end of file or hang-up. */
  function CommandWatchDone(j: Job, k: Kernel): JobIn {
    var r := Died(j, k);
    JobIn(r.job.(watch := false), r.k)
  }

  // ----- What every operation keeps ------------------------------------------

  /** The job's status agrees with what the kernel knows about its child. */
  predicate JobOk(j: Job, k: Kernel) {
    && (j.pid == 0 ==> !j.watch && (j.status == Invalid || j.status == Dead))
    && (j.pid > 0 ==>
          && j.watch
          && j.pid in k.children
          && (j.status == Running || j.status == Stopped)
          && (j.status == Running ==> !k.children[j.pid].Suspended?)
          && (j.status == Stopped ==> k.children[j.pid] == Suspended(false) || k.children[j.pid] == Exited))
  }

  /** No process, or a suspended one. */
  predicate Quiet(j: Job) {
    j.pid == 0 || j.status == Stopped
  }

  /** Stopping a job reaps exactly its child and never waits on a suspended one. */
  lemma StopReaps(j: Job, k: Kernel)
    requires JobOk(j, k)
    ensures var r := Stop(j, k);
            && JobOk(r.job, r.k)
            && r.job.pid == 0
            && r.job.hasCommand == j.hasCommand
            && r.k == if j.pid == 0 then k else k.(children := k.children - {j.pid})
  {
  }

  /** Without the continue that precedes it, the wait would hang: this is the
      reason `gs_job_stop` looks at the status first. */
  lemma StoppingWithoutContinueHangs(j: Job, k: Kernel)
    requires JobOk(j, k) && j.pid > 0 && k.children[j.pid].Suspended?
    ensures Died(j.(watch := false, status := Killed), Signal(k, j.pid, SigTerm)).k.stuck
    ensures Stop(j, k).k.stuck == k.stuck
  {
    StopReaps(j, k);
  }

  // ----- The object ----------------------------------------------------------

  /** The kernel as an object shared by the jobs. */
  class ProcessTable {
    var kernel: Kernel

    constructor ()
      ensures kernel == Kernel(map[], false)
    {
      kernel := Kernel(map[], false);
    }
  }

  class SaverJob {
    var status: Status
    var pid: nat
    var watch: bool
    var hasCommand: bool
    const os: ProcessTable

    constructor (os: ProcessTable, hasCommand: bool)
      ensures this.os == os && View() == NewJob(hasCommand)
    {
      this.os := os;
      status, pid, watch, this.hasCommand := Invalid, 0, false, hasCommand;
    }

    function View(): Job
      reads this
    {
      Job(status, pid, watch, hasCommand)
    }

    ghost function State(): JobIn
      reads this, os
    {
      JobIn(View(), os.kernel)
    }

    method StartJob(spawned: nat) returns (result: bool)
      modifies this, os
      ensures State() == old(Start(View(), os.kernel, spawned))
      ensures result == (old(pid) == 0 && pid > 0)
    {
      if pid != 0 {
        return false;
      }
      if !hasCommand {
        return false;
      }
      result := SpawnOk(os.kernel, spawned);
      if result {
        os.kernel := os.kernel.(children := os.kernel.children[spawned := Executing]);
        pid, watch := spawned, true;
        status := Running;
      }
    }

    method SuspendJob(suspend: bool) returns (result: bool)
      modifies this, os
      ensures State() == old(Suspend(View(), os.kernel, suspend))
      ensures result == (pid > 0)
    {
      if pid == 0 {
        return false;
      }
      os.kernel := Signal(os.kernel, pid, if suspend then SigStop else SigCont);
      status := if suspend then Stopped else Running;
      return true;
    }

    method JobDied()
      modifies this, os
      ensures State() == old(Died(View(), os.kernel))
    {
      if pid > 0 {
        os.kernel := WaitOnChild(os.kernel, pid);
        status := Dead;
      }
      pid := 0;
    }

    method StopJob() returns (result: bool)
      modifies this, os
      ensures State() == old(Stop(View(), os.kernel))
      ensures result == (old(pid) > 0)
      // no wait on a suspended child, and only this job's child is gone
      ensures old(JobOk(View(), os.kernel)) ==>
                && JobOk(View(), os.kernel) && pid == 0
                && os.kernel.stuck == old(os.kernel.stuck)
                && os.kernel.children.Keys == old(os.kernel.children.Keys - (if pid > 0 then {pid} else {}))
    {
      ghost var j, k := View(), os.kernel;
      if JobOk(j, k) {
        StopReaps(j, k);
      }
      if pid == 0 {
        return false;
      }
      if status == Stopped {
        var _ := SuspendJob(false);
      }
      watch := false;
      os.kernel := Signal(os.kernel, pid, SigTerm);
      status := Killed;
      JobDied();
      return true;
    }

    method CommandWatch(done: bool) returns (keep: bool)
      modifies this, os
      ensures keep == !done
      ensures State() == if done then old(CommandWatchDone(View(), os.kernel)) else old(State())
    {
      if done {
        JobDied();
        watch := false;
        return false;
      }
      return true;
    }
  }
}
