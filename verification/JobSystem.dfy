/** The worker pool and the per-job handshake of src/unix/lwt_unix_stubs.c, as interleaved atomic
    steps of the main thread and of any number of workers.

    A critical section is one step, except the one that ends a job: the write of `state` is visible
    to the main thread, which reads that field without the mutex, before the mutex is released.
    Condition waits return only after a signal.  Calls made by OCaml code are serialised by the
    runtime lock, so the main thread is one activity.  A caller takes the result of a job as soon as
    `start_job` returns true; otherwise it calls `check_job` once; if that returns false it waits for
    the notification.  After that it may free the job.

    The fields `place`, `reports`, `sent` and `largest` are bookkeeping; no step looks at them. */
module JobSystem {
  type Jid = nat
  type Wid = nat

  datatype JobState = Pending | Running | Done

  /** What the caller of the job is up to. */
  datatype Caller = Fresh | Starting | AwaitCheck | AwaitNote | Finished | Failed

  datatype Place = NotHanded | Queued | AtWorker(w: Wid) | Gone

  datatype Job = Job(state: JobState, fast: bool, id: int, locked: bool, caller: Caller, freed: bool,
                     place: Place, reports: nat)

  datatype Worker =
    | Idle                 // about to lock the pool mutex
    | Blocked              // waiting on the condition, not signalled
    | Signalled            // signalled, has not locked the pool mutex again
    | Taken(j: Jid)        // execute_job called
    | Working(j: Jid)      // the job is marked as running
    | Closing(j: Jid)      // the work is done, the mutex of the job is locked
    | Closed(j: Jid)       // the job is marked as done, the mutex still locked
    | Notifying(j: Jid)    // the mutex is released, a notification is to be sent

  predicate Holds(w: Worker) { !w.Idle? && !w.Blocked? && !w.Signalled? }

  datatype Main =
    | Ready
    | Checked(j: Jid)      // start_job has compared the counters, without the mutex
    | Handed(j: Jid)       // start_job has released the pool mutex
    | SawDone(j: Jid)      // start_job has read `state`, without the mutex, as done

  datatype System = System(
    jobs: map<Jid, Job>,
    workers: map<Wid, Worker>,
    main: Main,
    queue: seq<Jid>,                // pool_queue, oldest first
    waiting: int,                   // thread_waiting_count
    threads: int,                   // thread_count
    size: int,                      // pool_size
    inbox: seq<(Jid, int)>,         // notifications sent and not received
    useAfterFree: bool,             // a worker touched a job that may have been freed
    sent: seq<(Jid, int)>,
    largest: int)                   // largest pool size so far

  const INITIAL := System(map[], map[], Ready, [], 0, 0, 1000, [], false, [], 1000)

  const FRESH_JOB := Job(Pending, true, 0, false, Fresh, false, NotHanded, 0)

  datatype Step =
    | NewJob(j: Jid)
    | StartSync(j: Jid)                         // method NONE, asked for or fallen back to
    | StartDetached(j: Jid)
    | HandOver(w: Wid, launched: bool)          // critical section of start_job
    | ReadState
    | WaitForMutex
    | Check(j: Jid, id: int)
    | Receive
    | SetSize(size: int)
    | Enter(w: Wid)                             // critical section of worker_loop
    | MarkRunning(w: Wid)
    | LockJob(w: Wid)
    | MarkDone(w: Wid)
    | UnlockJob(w: Wid)
    | Send(w: Wid)

  predicate At(s: System, w: Wid, phase: Worker -> bool) {
    w in s.workers && phase(s.workers[w]) && (Holds(s.workers[w]) ==> s.workers[w].j in s.jobs)
  }

  predicate Unlocked(s: System, j: Jid) { j in s.jobs && !s.jobs[j].locked }

  ghost predicate Enabled(s: System, a: Step) {
    match a
    case NewJob(j) => s.main.Ready? && j !in s.jobs
    case StartSync(j) => s.main.Ready? && j in s.jobs && s.jobs[j].caller.Fresh?
    case StartDetached(j) =>
      && s.main.Ready? && j in s.jobs && s.jobs[j].caller.Fresh?
      && !(s.waiting == 0 && s.threads >= s.size)
    case HandOver(w, launched) =>
      && s.main.Checked? && s.main.j in s.jobs
      && if s.waiting == 0 then w !in s.workers
         else (w in s.workers && s.workers[w].Blocked?) || (forall v :: v in s.workers ==> !s.workers[v].Blocked?)
    case ReadState => s.main.Handed? && s.main.j in s.jobs
    case WaitForMutex => s.main.SawDone? && Unlocked(s, s.main.j)
    case Check(j, _) => s.main.Ready? && Unlocked(s, j) && s.jobs[j].caller.AwaitCheck?
    case Receive => s.main.Ready? && s.inbox != [] && s.inbox[0].0 in s.jobs
    case SetSize(_) => s.main.Ready?
    case Enter(w) => At(s, w, (x: Worker) => x.Idle? || x.Signalled?) && (s.queue != [] ==> s.queue[0] in s.jobs)
    case MarkRunning(w) => At(s, w, (x: Worker) => x.Taken?) && Unlocked(s, s.workers[w].j)
    case LockJob(w) => At(s, w, (x: Worker) => x.Working?) && Unlocked(s, s.workers[w].j)
    case MarkDone(w) => At(s, w, (x: Worker) => x.Closing?)
    case UnlockJob(w) => At(s, w, (x: Worker) => x.Closed?)
    case Send(w) => At(s, w, (x: Worker) => x.Notifying?)
  }

  function SetJob(s: System, j: Jid, job: Job): System { s.(jobs := s.jobs[j := job]) }

  function SetWorker(s: System, w: Wid, x: Worker): System { s.(workers := s.workers[w := x]) }

  /** A worker touches job `j`. */
  function Touch(s: System, j: Jid): System {
    s.(useAfterFree := s.useAfterFree || j !in s.jobs || s.jobs[j].freed)
  }

  function DoHandOver(s: System, w: Wid, launched: bool): System
    requires s.main.Checked? && s.main.j in s.jobs
  {
    var j := s.main.j;
    if s.waiting == 0 then
      if launched then
        SetJob(SetWorker(s, w, Taken(j)), j, s.jobs[j].(place := AtWorker(w)))
          .(threads := s.threads + 1, main := Handed(j))
      else
        SetJob(s, j, s.jobs[j].(caller := Failed)).(main := Ready)
    else
      var touched := if s.queue == [] then s else Touch(s, s.queue[|s.queue| - 1]);
      var signalled :=
        if w in s.workers && s.workers[w].Blocked? then SetWorker(touched, w, Signalled) else touched;
      SetJob(signalled, j, s.jobs[j].(place := Queued))
        .(queue := s.queue + [j], waiting := s.waiting - 1, main := Handed(j))
  }

  function DoEnter(s: System, w: Wid): System
    requires s.queue != [] ==> s.queue[0] in s.jobs
  {
    if s.queue == [] then SetWorker(s, w, Blocked).(waiting := s.waiting + 1)
    else
      var j := s.queue[0];
      SetJob(SetWorker(Touch(Touch(s, j), s.queue[|s.queue| - 1]), w, Taken(j)), j, s.jobs[j].(place := AtWorker(w)))
        .(queue := s.queue[1..])
  }

  function Apply(s: System, a: Step): System
    requires Enabled(s, a)
  {
    match a
    case NewJob(j) => SetJob(s, j, FRESH_JOB)
    case StartSync(j) => SetJob(s, j, s.jobs[j].(caller := Finished, freed := true, reports := s.jobs[j].reports + 1))
    case StartDetached(j) =>
      SetJob(s, j, s.jobs[j].(state := Pending, fast := true, caller := Starting)).(main := Checked(j))
    case HandOver(w, launched) => DoHandOver(s, w, launched)
    case ReadState =>
      var j := s.main.j;
      if s.jobs[j].state.Done? then s.(main := SawDone(j))
      else SetJob(s, j, s.jobs[j].(caller := AwaitCheck)).(main := Ready)
    case WaitForMutex =>
      var j := s.main.j;
      SetJob(s, j, s.jobs[j].(caller := Finished, freed := true, reports := s.jobs[j].reports + 1)).(main := Ready)
    case Check(j, id) =>
      var job := s.jobs[j].(fast := false, id := id);
      if job.state.Done? then
        SetJob(s, j, job.(caller := Finished, freed := true, reports := job.reports + 1))
      else SetJob(s, j, job.(caller := AwaitNote))
    case Receive =>
      var j := s.inbox[0].0;
      SetJob(s, j, s.jobs[j].(caller := Finished, freed := true)).(inbox := s.inbox[1..])
    case SetSize(size) => s.(size := size, largest := if size > s.largest then size else s.largest)
    case Enter(w) => DoEnter(s, w)
    case MarkRunning(w) =>
      var j := s.workers[w].j;
      SetJob(SetWorker(Touch(s, j), w, Working(j)), j, s.jobs[j].(state := Running))
    case LockJob(w) =>
      var j := s.workers[w].j;
      SetJob(SetWorker(Touch(s, j), w, Closing(j)), j, s.jobs[j].(locked := true))
    case MarkDone(w) =>
      var j := s.workers[w].j;
      SetJob(SetWorker(Touch(s, j), w, Closed(j)), j, s.jobs[j].(state := Done))
    case UnlockJob(w) =>
      var j := s.workers[w].j;
      if s.jobs[j].fast then
        SetJob(SetWorker(Touch(s, j), w, Idle), j, s.jobs[j].(locked := false, place := Gone))
      else SetJob(SetWorker(Touch(s, j), w, Notifying(j)), j, s.jobs[j].(locked := false))
    case Send(w) =>
      var j := s.workers[w].j;
      var note := (j, s.jobs[j].id);
      SetJob(SetWorker(Touch(s, j), w, Idle), j, s.jobs[j].(place := Gone, reports := s.jobs[j].reports + 1))
        .(inbox := s.inbox + [note], sent := s.sent + [note])
  }

  ghost predicate Next(s: System, s': System) {
    exists a :: Enabled(s, a) && s' == Apply(s, a)
  }

  ghost predicate IsRun(ss: seq<System>) {
    && |ss| > 0 && ss[0] == INITIAL
    && forall i :: 0 <= i < |ss| - 1 ==> Next(ss[i], ss[i + 1])
  }

  // ------------------------------------------------------------------------------------------
  // The invariant
  // ------------------------------------------------------------------------------------------

  ghost function BlockedWorkers(ws: map<Wid, Worker>): set<Wid> { set w | w in ws && ws[w].Blocked? }

  ghost function SignalledWorkers(ws: map<Wid, Worker>): set<Wid> { set w | w in ws && ws[w].Signalled? }

  /** The counters of the pool. */
  ghost predicate PoolOk(s: System) {
    && s.waiting == |BlockedWorkers(s.workers)|
    && |s.queue| <= |SignalledWorkers(s.workers)|
    && s.threads == |s.workers|
    && s.threads <= s.largest && s.size <= s.largest
    && (s.main.Checked? ==> s.waiting > 0 || s.threads < s.largest)
  }

  /** A handed job is in exactly one place. */
  ghost predicate PlacesOk(jobs: map<Jid, Job>, queue: seq<Jid>, workers: map<Wid, Worker>) {
    && (forall i :: 0 <= i < |queue| ==> queue[i] in jobs && jobs[queue[i]].place.Queued?)
    && (forall i, k :: 0 <= i < k < |queue| ==> queue[i] != queue[k])
    && (forall j :: j in jobs && jobs[j].place.Queued? ==> j in queue)
    && (forall w :: w in workers && Holds(workers[w]) ==>
          workers[w].j in jobs && jobs[workers[w].j].place == AtWorker(w))
    && (forall j :: j in jobs && jobs[j].place.AtWorker? ==>
          var w := jobs[j].place.w; w in workers && Holds(workers[w]) && workers[w].j == j)
  }

  /** The main thread starts the job it is busy with, and no other. */
  ghost predicate MainOk(main: Main, jobs: map<Jid, Job>) {
    && (!main.Ready? ==> main.j in jobs && jobs[main.j].caller.Starting?)
    && (forall j :: j in jobs && jobs[j].caller.Starting? ==> !main.Ready? && main.j == j)
    && (main.Checked? ==> jobs[main.j].place.NotHanded?)
    && (main.Handed? ==> !jobs[main.j].place.NotHanded?)
    && (main.SawDone? ==> !jobs[main.j].place.NotHanded? && jobs[main.j].state.Done?)
  }

  /** What the caller of a job can read of it while a worker has it. */
  function StateAt(w: Worker): JobState {
    if w.Taken? then Pending else if w.Working? || w.Closing? then Running else Done
  }

  /** The handshake, by the place of the job; `noted` says that a notification for it is underway. */
  ghost predicate JobOk(job: Job, workers: map<Wid, Worker>, noted: bool) {
    && (job.freed <==> job.caller.Finished?)
    && (job.fast || job.caller.AwaitNote? || job.caller.Finished?)
    && (noted ==> job.place.Gone? && job.caller.AwaitNote?)
    && match job.place
       case NotHanded =>
         && !job.locked && job.fast && (job.caller.Starting? ==> job.state.Pending?)
         && (job.caller.Fresh? || job.caller.Starting? || job.caller.Failed? || job.caller.Finished?)
         && job.reports == if job.caller.Finished? then 1 else 0
       case Queued =>
         && !job.locked && job.state.Pending? && job.reports == 0
         && (job.caller.Starting? || job.caller.AwaitCheck? || job.caller.AwaitNote?)
         && (job.fast <==> !job.caller.AwaitNote?)
       case AtWorker(w) =>
         && w in workers && job.reports == 0
         && (job.caller.Starting? || job.caller.AwaitCheck? || job.caller.AwaitNote?)
         && (job.fast <==> !job.caller.AwaitNote?)
         && job.state == StateAt(workers[w])
         && (workers[w].Closing? || workers[w].Closed? <==> job.locked)
         && (workers[w].Notifying? ==> job.caller.AwaitNote?)
       case Gone =>
         && !job.locked && job.state.Done?
         && (job.caller.Starting? || job.caller.AwaitCheck? || job.caller.AwaitNote? || job.caller.Finished?)
         && (job.caller.AwaitNote? ==> noted && !job.fast)
         && job.reports == if job.caller.AwaitNote? || job.caller.Finished? then 1 else 0
  }

  ghost predicate Noted(inbox: seq<(Jid, int)>, j: Jid) {
    exists i :: 0 <= i < |inbox| && inbox[i].0 == j
  }

  ghost predicate JobsOk(jobs: map<Jid, Job>, workers: map<Wid, Worker>, inbox: seq<(Jid, int)>) {
    forall j :: j in jobs ==> JobOk(jobs[j], workers, Noted(inbox, j))
  }

  /** Notifications carry the id that check_job stored, one per job. */
  ghost predicate NotesOk(jobs: map<Jid, Job>, inbox: seq<(Jid, int)>, sent: seq<(Jid, int)>) {
    && (forall i :: 0 <= i < |inbox| ==> inbox[i].0 in jobs && inbox[i].1 == jobs[inbox[i].0].id)
    && (forall i, k :: 0 <= i < k < |inbox| ==> inbox[i].0 != inbox[k].0)
    && (forall i :: 0 <= i < |sent| ==>
          sent[i].0 in jobs && sent[i].1 == jobs[sent[i].0].id && jobs[sent[i].0].place.Gone? &&
          !jobs[sent[i].0].fast)
    && (forall i, k :: 0 <= i < k < |sent| ==> sent[i].0 != sent[k].0)
  }

  ghost predicate Inv(s: System) {
    && !s.useAfterFree
    && PoolOk(s)
    && PlacesOk(s.jobs, s.queue, s.workers)
    && MainOk(s.main, s.jobs)
    && JobsOk(s.jobs, s.workers, s.inbox)
    && NotesOk(s.jobs, s.inbox, s.sent)
  }
}
