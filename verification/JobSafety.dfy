/** What every step of the worker pool keeps, and what follows for every run. */
module JobSafety {
  import opened JobSystem

  // ------------------------------------------------------------------------------------------
  // Updates of one job and one worker, one part of the invariant at a time
  // ------------------------------------------------------------------------------------------

  /** Worker `w` goes from `x` to `x'` without blocking, being signalled or entering. */
  predicate SameRole(x: Worker, x': Worker) {
    (x.Blocked? <==> x'.Blocked?) && (x.Signalled? <==> x'.Signalled?)
  }

  lemma RolesKept(ws: map<Wid, Worker>, w: Wid, x: Worker)
    requires w in ws && SameRole(ws[w], x)
    ensures BlockedWorkers(ws[w := x]) == BlockedWorkers(ws) && SignalledWorkers(ws[w := x]) == SignalledWorkers(ws)
    ensures |ws[w := x]| == |ws|
  {
    assert ws[w := x].Keys == ws.Keys;
  }

  /** The job keeps its place and the worker what it holds. */
  lemma SamePlaces(jobs: map<Jid, Job>, queue: seq<Jid>, ws: map<Wid, Worker>, j: Jid, job: Job, w: Wid, x: Worker)
    requires PlacesOk(jobs, queue, ws) && j in jobs && job.place == jobs[j].place
    requires w in ws && Holds(x) == Holds(ws[w]) && (Holds(x) ==> x.j == ws[w].j)
    ensures PlacesOk(jobs[j := job], queue, ws[w := x])
  {
  }

  lemma SameJobPlaces(jobs: map<Jid, Job>, queue: seq<Jid>, ws: map<Wid, Worker>, j: Jid, job: Job)
    requires PlacesOk(jobs, queue, ws)
    requires if j in jobs then job.place == jobs[j].place else job.place.NotHanded?
    ensures PlacesOk(jobs[j := job], queue, ws)
  {
  }

  lemma LeavePlaces(jobs: map<Jid, Job>, queue: seq<Jid>, ws: map<Wid, Worker>, w: Wid, job: Job)
    requires PlacesOk(jobs, queue, ws) && w in ws && Holds(ws[w]) && job.place.Gone?
    ensures PlacesOk(jobs[ws[w].j := job], queue, ws[w := Idle])
  {
  }

  lemma TakePlaces(jobs: map<Jid, Job>, queue: seq<Jid>, ws: map<Wid, Worker>, w: Wid, job: Job)
    requires PlacesOk(jobs, queue, ws) && queue != [] && job.place == AtWorker(w)
    requires w in ws ==> !Holds(ws[w])
    ensures PlacesOk(jobs[queue[0] := job], queue[1..], ws[w := Taken(queue[0])])
  {
    var jobs', queue' := jobs[queue[0] := job], queue[1..];
    forall j | j in jobs' && jobs'[j].place.Queued? ensures j in queue' {
      var i :| 0 <= i < |queue| && queue[i] == j;
      assert queue'[i - 1] == j;
    }
  }

  lemma LaunchPlaces(jobs: map<Jid, Job>, queue: seq<Jid>, ws: map<Wid, Worker>, w: Wid, j: Jid, job: Job)
    requires PlacesOk(jobs, queue, ws) && j in jobs && jobs[j].place.NotHanded? && job.place == AtWorker(w)
    requires w !in ws
    ensures PlacesOk(jobs[j := job], queue, ws[w := Taken(j)])
  {
  }

  lemma EnqueuePlaces(jobs: map<Jid, Job>, queue: seq<Jid>, ws: map<Wid, Worker>, j: Jid, job: Job)
    requires PlacesOk(jobs, queue, ws) && j in jobs && jobs[j].place.NotHanded? && job.place.Queued?
    ensures PlacesOk(jobs[j := job], queue + [j], ws)
  {
    forall k | k in jobs[j := job] && jobs[j := job][k].place.Queued? ensures k in queue + [j] {
    }
  }

  /** The other jobs neither move nor see their worker change. */
  lemma OtherJobs(jobs: map<Jid, Job>, queue: seq<Jid>, ws: map<Wid, Worker>, inbox: seq<(Jid, int)>,
                  j: Jid, job: Job, ws': map<Wid, Worker>, inbox': seq<(Jid, int)>)
    requires JobsOk(jobs, ws, inbox) && PlacesOk(jobs, queue, ws) && JobOk(job, ws', Noted(inbox', j))
    requires forall w :: w in ws && Holds(ws[w]) && ws[w].j != j ==> w in ws' && ws'[w] == ws[w]
    requires forall k :: k != j ==> (Noted(inbox', k) <==> Noted(inbox, k))
    ensures JobsOk(jobs[j := job], ws', inbox')
  {
    forall k | k in jobs && k != j ensures JobOk(jobs[k], ws', Noted(inbox', k)) {
      assert JobOk(jobs[k], ws, Noted(inbox, k));
    }
  }

  lemma SameNotes(jobs: map<Jid, Job>, inbox: seq<(Jid, int)>, sent: seq<(Jid, int)>, j: Jid, job: Job)
    requires NotesOk(jobs, inbox, sent)
    requires j in jobs ==>
               || (job.id == jobs[j].id && job.fast == jobs[j].fast && job.place == jobs[j].place)
               || (!Noted(inbox, j) && !Noted(sent, j))
    ensures NotesOk(jobs[j := job], inbox, sent)
  {
  }

  /** A job that is not gone, or still fast, has sent nothing. */
  lemma NotSent(s: System, j: Jid)
    requires Inv(s) && j in s.jobs && (!s.jobs[j].place.Gone? || s.jobs[j].fast)
    ensures !Noted(s.sent, j) && !Noted(s.inbox, j)
  {
    hide PoolOk, PlacesOk, MainOk;
    assert JobOk(s.jobs[j], s.workers, Noted(s.inbox, j));
  }

  lemma SameMain(main: Main, jobs: map<Jid, Job>, j: Jid, job: Job)
    requires MainOk(main, jobs)
    requires if j in jobs then
               (job.caller.Starting? <==> jobs[j].caller.Starting?) &&
               (job.place.NotHanded? <==> jobs[j].place.NotHanded?) && (jobs[j].state.Done? ==> job.state.Done?)
             else !job.caller.Starting?
    ensures MainOk(main, jobs[j := job])
  {
  }

  // ------------------------------------------------------------------------------------------
  // Steps of a worker
  // ------------------------------------------------------------------------------------------

  predicate WorkerStep(a: Step) {
    a.MarkRunning? || a.LockJob? || a.MarkDone? || a.UnlockJob? || a.Send?
  }

  /** The job a worker holds is not freed, and its fields agree with the phase of the worker. */
  lemma HeldJob(s: System, w: Wid)
    requires Inv(s) && w in s.workers && Holds(s.workers[w])
    ensures
      var j := s.workers[w].j;
      j in s.jobs && s.jobs[j].place == AtWorker(w) && !s.jobs[j].freed &&
      JobOk(s.jobs[j], s.workers, false) && !Noted(s.inbox, j)
  {
    hide PoolOk, MainOk, NotesOk;
    var j := s.workers[w].j;
    assert JobOk(s.jobs[j], s.workers, Noted(s.inbox, j));
  }

  lemma WorkerStepKeepsInv(s: System, a: Step)
    requires Inv(s) && Enabled(s, a) && WorkerStep(a) && !a.Send? && !(a.UnlockJob? && s.jobs[s.workers[a.w].j].fast)
    ensures Inv(Apply(s, a))
  {
    var w := a.w;
    var j := s.workers[w].j;
    HeldJob(s, w);
    var s' := Apply(s, a);
    var job, x := s'.jobs[j], s'.workers[w];
    assert JobOk(job, s'.workers, false);
    hide JobOk;
    RolesKept(s.workers, w, x);
    SamePlaces(s.jobs, s.queue, s.workers, j, job, w, x);
    OtherJobs(s.jobs, s.queue, s.workers, s.inbox, j, job, s'.workers, s.inbox);
    SameNotes(s.jobs, s.inbox, s.sent, j, job);
    SameMain(s.main, s.jobs, j, job);
    hide PlacesOk, JobsOk, NotesOk, MainOk, BlockedWorkers, SignalledWorkers;
  }

  lemma NotedAppend(inbox: seq<(Jid, int)>, j: Jid, id: int)
    ensures Noted(inbox + [(j, id)], j)
    ensures forall k :: k != j ==> (Noted(inbox + [(j, id)], k) <==> Noted(inbox, k))
  {
    var inbox' := inbox + [(j, id)];
    assert inbox'[|inbox|] == (j, id);
    forall k | k != j ensures Noted(inbox', k) <==> Noted(inbox, k) {
      if i :| 0 <= i < |inbox| && inbox[i].0 == k {
        assert inbox'[i].0 == k;
      }
    }
  }

  lemma SendNotes(jobs: map<Jid, Job>, inbox: seq<(Jid, int)>, sent: seq<(Jid, int)>, j: Jid, job: Job)
    requires NotesOk(jobs, inbox, sent) && j in jobs && !Noted(inbox, j) && !Noted(sent, j)
    requires job.place.Gone? && !job.fast
    ensures NotesOk(jobs[j := job], inbox + [(j, job.id)], sent + [(j, job.id)])
  {
  }

  /** The worker is done with the job: it leaves without a word if the caller has not checked, and
      sends one notification if it has. */
  lemma LeaveKeepsInv(s: System, a: Step)
    requires Inv(s) && Enabled(s, a) && (a.Send? || (a.UnlockJob? && s.jobs[s.workers[a.w].j].fast))
    ensures Inv(Apply(s, a))
  {
    var w := a.w;
    var j := s.workers[w].j;
    HeldJob(s, w);
    NotSent(s, j);
    var s' := Apply(s, a);
    var job := s'.jobs[j];
    if a.Send? {
      NotedAppend(s.inbox, j, job.id);
      SendNotes(s.jobs, s.inbox, s.sent, j, job);
    } else {
      SameNotes(s.jobs, s.inbox, s.sent, j, job);
    }
    assert JobOk(job, s'.workers, Noted(s'.inbox, j));
    hide JobOk;
    RolesKept(s.workers, w, Idle);
    LeavePlaces(s.jobs, s.queue, s.workers, w, job);
    OtherJobs(s.jobs, s.queue, s.workers, s.inbox, j, job, s'.workers, s'.inbox);
    SameMain(s.main, s.jobs, j, job);
    hide PlacesOk, JobsOk, NotesOk, MainOk, BlockedWorkers, SignalledWorkers;
  }

  lemma QueuedJob(s: System, i: nat)
    requires Inv(s) && i < |s.queue|
    ensures
      var j := s.queue[i];
      && j in s.jobs && s.jobs[j].place.Queued? && !s.jobs[j].freed
      && JobOk(s.jobs[j], s.workers, false) && !Noted(s.inbox, j)
  {
    hide PoolOk, MainOk, NotesOk;
    assert JobOk(s.jobs[s.queue[i]], s.workers, Noted(s.inbox, s.queue[i]));
  }

  lemma EnterTakes(s: System, w: Wid)
    requires Inv(s) && Enabled(s, Enter(w)) && s.queue != []
    ensures Inv(Apply(s, Enter(w)))
  {
    hide PlacesOk, JobsOk, NotesOk, MainOk;
    QueuedJob(s, 0);
    QueuedJob(s, |s.queue| - 1);
    var s' := Apply(s, Enter(w));
    var j := s.queue[0];
    var job := s'.jobs[j];
    NotSent(s, j);
    assert JobOk(job, s'.workers, false);
    hide JobOk;
    TakePlaces(s.jobs, s.queue, s.workers, w, job);
    OtherJobs(s.jobs, s.queue, s.workers, s.inbox, j, job, s'.workers, s.inbox);
    SameNotes(s.jobs, s.inbox, s.sent, j, job);
    SameMain(s.main, s.jobs, j, job);
    assert PoolOk(s') by {
      hide PlacesOk, JobsOk, NotesOk, MainOk;
      assert s'.workers.Keys == s.workers.Keys;
      assert BlockedWorkers(s'.workers) == BlockedWorkers(s.workers);
      assert SignalledWorkers(s'.workers) == SignalledWorkers(s.workers) - {w};
    }
    hide PlacesOk, JobsOk, NotesOk, MainOk, PoolOk;
  }

  lemma EnterBlocks(s: System, w: Wid)
    requires Inv(s) && Enabled(s, Enter(w)) && s.queue == []
    ensures Inv(Apply(s, Enter(w)))
  {
    var s' := Apply(s, Enter(w));
    assert PoolOk(s') by {
      hide PlacesOk, JobsOk, NotesOk, MainOk;
      assert s'.workers.Keys == s.workers.Keys;
      assert BlockedWorkers(s'.workers) == BlockedWorkers(s.workers) + {w};
    }
    assert PlacesOk(s'.jobs, s'.queue, s'.workers) by {
      hide JobsOk, NotesOk, MainOk, PoolOk;
    }
    assert JobsOk(s'.jobs, s'.workers, s'.inbox) by {
      hide NotesOk, MainOk, PoolOk;
      forall j | j in s.jobs ensures JobOk(s.jobs[j], s'.workers, Noted(s.inbox, j)) {
        assert JobOk(s.jobs[j], s.workers, Noted(s.inbox, j));
      }
    }
    hide PlacesOk, JobsOk, NotesOk, MainOk, PoolOk;
  }

  // ------------------------------------------------------------------------------------------
  // Steps of the main thread
  // ------------------------------------------------------------------------------------------

  lemma JobAt(s: System, j: Jid)
    requires Inv(s) && j in s.jobs
    ensures JobOk(s.jobs[j], s.workers, Noted(s.inbox, j))
  {
  }

  lemma NoJobYet(s: System, j: Jid)
    requires Inv(s) && j !in s.jobs
    ensures !Noted(s.inbox, j) && !Noted(s.sent, j)
  {
  }

  /** Steps that change one job, not its place, and possibly what the main thread is doing. */
  lemma MainStepKeepsInv(s: System, j: Jid, job: Job, main: Main)
    requires Inv(s) && (if j in s.jobs then job.place == s.jobs[j].place else job.place.NotHanded?)
    requires JobOk(job, s.workers, Noted(s.inbox, j))
    requires j in s.jobs ==>
               (job.id == s.jobs[j].id && job.fast == s.jobs[j].fast) || (!Noted(s.inbox, j) && !Noted(s.sent, j))
    requires MainOk(main, s.jobs[j := job])
    requires main.Checked? ==> s.waiting > 0 || s.threads < s.largest
    ensures Inv(s.(jobs := s.jobs[j := job], main := main))
  {
    SameJobPlaces(s.jobs, s.queue, s.workers, j, job);
    OtherJobs(s.jobs, s.queue, s.workers, s.inbox, j, job, s.workers, s.inbox);
    SameNotes(s.jobs, s.inbox, s.sent, j, job);
    hide PlacesOk, JobsOk, NotesOk, MainOk, BlockedWorkers, SignalledWorkers, JobOk;
  }

  lemma NewJobKeepsInv(s: System, j: Jid)
    requires Inv(s) && Enabled(s, NewJob(j))
    ensures Inv(Apply(s, NewJob(j)))
  {
    NoJobYet(s, j);
    hide PlacesOk, JobsOk, NotesOk, PoolOk;
    MainStepKeepsInv(s, j, FRESH_JOB, Ready);
  }

  lemma StartSyncKeepsInv(s: System, j: Jid)
    requires Inv(s) && Enabled(s, StartSync(j))
    ensures Inv(Apply(s, StartSync(j)))
  {
    JobAt(s, j);
    hide PlacesOk, JobsOk, NotesOk, PoolOk;
    MainStepKeepsInv(s, j, Apply(s, StartSync(j)).jobs[j], Ready);
  }

  lemma StartDetachedKeepsInv(s: System, j: Jid)
    requires Inv(s) && Enabled(s, StartDetached(j))
    ensures Inv(Apply(s, StartDetached(j)))
  {
    JobAt(s, j);
    NotSent(s, j);
    hide PlacesOk, JobsOk, NotesOk, BlockedWorkers, SignalledWorkers;
    MainStepKeepsInv(s, j, Apply(s, StartDetached(j)).jobs[j], Checked(j));
  }

  lemma ReadStateKeepsInv(s: System)
    requires Inv(s) && Enabled(s, ReadState)
    ensures Inv(Apply(s, ReadState))
  {
    var j := s.main.j;
    JobAt(s, j);
    hide PlacesOk, JobsOk, NotesOk, PoolOk;
    var s' := Apply(s, ReadState);
    MainStepKeepsInv(s, j, s'.jobs[j], s'.main);
    assert s'.jobs == s.jobs[j := s'.jobs[j]];
  }

  /** The mutex of a job seen done is free only when the worker has left it for good. */
  lemma WaitForMutexKeepsInv(s: System)
    requires Inv(s) && Enabled(s, WaitForMutex)
    ensures Inv(Apply(s, WaitForMutex))
  {
    var j := s.main.j;
    JobAt(s, j);
    hide JobsOk, NotesOk, PoolOk;
    MainStepKeepsInv(s, j, Apply(s, WaitForMutex).jobs[j], Ready);
  }

  lemma CheckKeepsInv(s: System, j: Jid, id: int)
    requires Inv(s) && Enabled(s, Check(j, id))
    ensures Inv(Apply(s, Check(j, id)))
  {
    JobAt(s, j);
    NotSent(s, j);
    hide JobsOk, NotesOk, PoolOk;
    MainStepKeepsInv(s, j, Apply(s, Check(j, id)).jobs[j], Ready);
  }

  lemma NotedTail(inbox: seq<(Jid, int)>)
    requires inbox != [] && forall i, k :: 0 <= i < k < |inbox| ==> inbox[i].0 != inbox[k].0
    ensures !Noted(inbox[1..], inbox[0].0) && Noted(inbox, inbox[0].0)
    ensures forall k :: k != inbox[0].0 ==> (Noted(inbox[1..], k) <==> Noted(inbox, k))
  {
    forall k | k != inbox[0].0 ensures Noted(inbox[1..], k) <==> Noted(inbox, k) {
      if i :| 0 <= i < |inbox| && inbox[i].0 == k {
        assert inbox[1..][i - 1].0 == k;
      }
    }
  }

  lemma ReceiveKeepsInv(s: System)
    requires Inv(s) && Enabled(s, Receive)
    ensures Inv(Apply(s, Receive))
  {
    var j := s.inbox[0].0;
    var s' := Apply(s, Receive);
    var job := s'.jobs[j];
    JobAt(s, j);
    NotedTail(s.inbox);
    assert JobOk(job, s.workers, Noted(s'.inbox, j));
    hide JobOk;
    SameJobPlaces(s.jobs, s.queue, s.workers, j, job);
    OtherJobs(s.jobs, s.queue, s.workers, s.inbox, j, job, s.workers, s'.inbox);
    SameNotes(s.jobs, s.inbox, s.sent, j, job);
    SameMain(s.main, s.jobs, j, job);
    assert NotesOk(s'.jobs, s'.inbox, s'.sent);
    hide PlacesOk, JobsOk, NotesOk, MainOk, BlockedWorkers, SignalledWorkers;
  }

  lemma LaunchKeepsInv(s: System, w: Wid, launched: bool)
    requires Inv(s) && Enabled(s, HandOver(w, launched)) && s.waiting == 0
    ensures Inv(Apply(s, HandOver(w, launched)))
  {
    hide PlacesOk, JobsOk, NotesOk;
    var j := s.main.j;
    JobAt(s, j);
    NotSent(s, j);
    var s' := Apply(s, HandOver(w, launched));
    var job := s'.jobs[j];
    if launched {
      assert JobOk(job, s'.workers, false);
      hide JobOk;
      LaunchPlaces(s.jobs, s.queue, s.workers, w, j, job);
      OtherJobs(s.jobs, s.queue, s.workers, s.inbox, j, job, s'.workers, s.inbox);
      SameNotes(s.jobs, s.inbox, s.sent, j, job);
      assert MainOk(s'.main, s'.jobs);
      assert PoolOk(s') by {
        hide PlacesOk, JobsOk, NotesOk, MainOk;
        assert s'.workers.Keys == s.workers.Keys + {w};
        assert BlockedWorkers(s'.workers) == BlockedWorkers(s.workers);
        assert SignalledWorkers(s'.workers) == SignalledWorkers(s.workers);
      }
      hide PlacesOk, JobsOk, NotesOk, MainOk, PoolOk;
    } else {
      hide PlacesOk, JobsOk, NotesOk, PoolOk;
      MainStepKeepsInv(s, j, job, Ready);
    }
  }

  /** A worker is counted as waiting, so one is blocked and takes the signal. */
  lemma SignalIsTaken(s: System, w: Wid, launched: bool)
    requires Inv(s) && Enabled(s, HandOver(w, launched)) && s.waiting != 0
    ensures w in s.workers && s.workers[w].Blocked? && PoolOk(Apply(s, HandOver(w, launched)))
  {
    hide PlacesOk, JobsOk, NotesOk, MainOk;
    var v :| v in BlockedWorkers(s.workers);
    var s' := Apply(s, HandOver(w, launched));
    assert s'.workers.Keys == s.workers.Keys;
    assert BlockedWorkers(s'.workers) == BlockedWorkers(s.workers) - {w};
    assert SignalledWorkers(s'.workers) == SignalledWorkers(s.workers) + {w};
  }

  lemma SignalPlaces(s: System, w: Wid, launched: bool)
    requires Inv(s) && Enabled(s, HandOver(w, launched)) && s.waiting != 0
    requires w in s.workers && s.workers[w].Blocked?
    ensures
      var s' := Apply(s, HandOver(w, launched));
      PlacesOk(s'.jobs, s'.queue, s'.workers) && MainOk(s'.main, s'.jobs) && !s'.useAfterFree
  {
    var j := s.main.j;
    if s.queue != [] {
      QueuedJob(s, |s.queue| - 1);
    }
    hide JobsOk, NotesOk, PoolOk, JobOk;
    var job := s.jobs[j].(place := Queued);
    EnqueuePlaces(s.jobs, s.queue, s.workers, j, job);
    SamePlaces(s.jobs[j := job], s.queue + [j], s.workers, j, job, w, Signalled);
    assert s.jobs[j := job][j := job] == s.jobs[j := job];
    hide PlacesOk;
  }

  lemma SignalKeepsInv(s: System, w: Wid, launched: bool)
    requires Inv(s) && Enabled(s, HandOver(w, launched)) && s.waiting != 0
    ensures Inv(Apply(s, HandOver(w, launched)))
  {
    var j := s.main.j;
    SignalIsTaken(s, w, launched);
    SignalPlaces(s, w, launched);
    JobAt(s, j);
    NotSent(s, j);
    var s' := Apply(s, HandOver(w, launched));
    var job := s'.jobs[j];
    assert JobOk(job, s'.workers, false);
    hide JobOk, PoolOk;
    OtherJobs(s.jobs, s.queue, s.workers, s.inbox, j, job, s'.workers, s.inbox);
    SameNotes(s.jobs, s.inbox, s.sent, j, job);
    hide PlacesOk, JobsOk, NotesOk, MainOk;
  }

  lemma StepKeepsInv(s: System, a: Step)
    requires Inv(s) && Enabled(s, a)
    ensures Inv(Apply(s, a))
  {
    hide PlacesOk, JobsOk, NotesOk, MainOk, JobOk, BlockedWorkers, SignalledWorkers;
    match a
    case NewJob(j) => NewJobKeepsInv(s, j);
    case StartSync(j) => StartSyncKeepsInv(s, j);
    case StartDetached(j) => StartDetachedKeepsInv(s, j);
    case HandOver(w, launched) =>
      if s.waiting == 0 { LaunchKeepsInv(s, w, launched); } else { SignalKeepsInv(s, w, launched); }
    case ReadState => ReadStateKeepsInv(s);
    case WaitForMutex => WaitForMutexKeepsInv(s);
    case Check(j, id) => CheckKeepsInv(s, j, id);
    case Receive => ReceiveKeepsInv(s);
    case SetSize(size) =>
    case Enter(w) => if s.queue == [] { EnterBlocks(s, w); } else { EnterTakes(s, w); }
    case MarkRunning(_) => WorkerStepKeepsInv(s, a);
    case LockJob(_) => WorkerStepKeepsInv(s, a);
    case MarkDone(_) => WorkerStepKeepsInv(s, a);
    case UnlockJob(w) => if s.jobs[s.workers[w].j].fast { LeaveKeepsInv(s, a); } else { WorkerStepKeepsInv(s, a); }
    case Send(_) => LeaveKeepsInv(s, a);
  }

  // ------------------------------------------------------------------------------------------
  // Every run
  // ------------------------------------------------------------------------------------------

  lemma InitialInv()
    ensures Inv(INITIAL)
  {
    assert BlockedWorkers(map[]) == {} && SignalledWorkers(map[]) == {};
  }

  lemma {:induction false} RunInv(ss: seq<System>, n: nat)
    requires IsRun(ss) && n < |ss|
    ensures Inv(ss[n])
  {
    hide Inv, Enabled, Apply;
    if n == 0 {
      InitialInv();
    } else {
      RunInv(ss, n - 1);
      assert Next(ss[n - 1], ss[n]);
      var a :| Enabled(ss[n - 1], a) && ss[n] == Apply(ss[n - 1], a);
      StepKeepsInv(ss[n - 1], a);
    }
  }

  /** In every run, no worker touches a job that its caller may have freed, and the waiting count,
      the thread count and the queue are what they are meant to be. */
  lemma PoolIsSafe(ss: seq<System>, n: nat)
    requires IsRun(ss) && n < |ss|
    ensures !ss[n].useAfterFree
    ensures ss[n].waiting == |BlockedWorkers(ss[n].workers)|
    ensures |ss[n].queue| <= |SignalledWorkers(ss[n].workers)|
    ensures ss[n].threads == |ss[n].workers| <= ss[n].largest
  {
    RunInv(ss, n);
  }

  /** In every run, a handed job is in exactly one place: queued, once; held by one worker; or done.  So
      none is lost.  Whenever a job is queued, a worker that will take one has been signalled. */
  lemma NoJobIsLost(ss: seq<System>, n: nat, j: Jid)
    requires IsRun(ss) && n < |ss| && j in ss[n].jobs && !ss[n].jobs[j].place.NotHanded?
    ensures
      var s := ss[n];
      && (j in s.queue <==> s.jobs[j].place.Queued?)
      && (forall w :: w in s.workers && Holds(s.workers[w]) && s.workers[w].j == j <==> s.jobs[j].place == AtWorker(w))
      && (j in s.queue ==> exists w :: w in s.workers && s.workers[w].Signalled? && Enabled(s, Enter(w)))
      && (s.jobs[j].place.Queued? ==> s.jobs[j].state.Pending?)
      && (s.jobs[j].place.AtWorker? ==> s.jobs[j].state == StateAt(s.workers[s.jobs[j].place.w]))
      && (s.jobs[j].place.Gone? ==> s.jobs[j].state.Done?)
    ensures forall i, k :: 0 <= i < k < |ss[n].queue| ==> ss[n].queue[i] != ss[n].queue[k]
  {
    RunInv(ss, n);
    var s := ss[n];
    JobAt(s, j);
    hide JobsOk, NotesOk, MainOk;
    if j in s.queue {
      assert |SignalledWorkers(s.workers)| > 0;
      var w :| w in SignalledWorkers(s.workers);
      assert Enabled(s, Enter(w));
    }
  }

  /** In every run a job is reported at most once; exactly once when its worker has left it and its
      caller has checked it, and then, if the caller waits for a notification, one with the id that
      it gave to check_job has been sent and is underway. */
  lemma ReportedOnce(ss: seq<System>, n: nat, j: Jid)
    requires IsRun(ss) && n < |ss| && j in ss[n].jobs
    ensures ss[n].jobs[j].reports <= 1
    ensures ss[n].jobs[j].caller.Finished? ==> ss[n].jobs[j].reports == 1
    ensures ss[n].jobs[j].place.Gone? && ss[n].jobs[j].caller.AwaitNote? ==>
              ss[n].jobs[j].reports == 1 && (j, ss[n].jobs[j].id) in ss[n].inbox
    ensures forall i, k :: 0 <= i < k < |ss[n].sent| ==> ss[n].sent[i].0 != ss[n].sent[k].0
    ensures forall i :: 0 <= i < |ss[n].sent| && ss[n].sent[i].0 == j ==> ss[n].sent[i].1 == ss[n].jobs[j].id
  {
    RunInv(ss, n);
    var s := ss[n];
    JobAt(s, j);
    hide JobsOk, PlacesOk, MainOk, PoolOk;
    if s.jobs[j].place.Gone? && s.jobs[j].caller.AwaitNote? {
      var i :| 0 <= i < |s.inbox| && s.inbox[i].0 == j;
      assert s.inbox[i] == (j, s.jobs[j].id);
    }
  }

  // ------------------------------------------------------------------------------------------
  // The queue is first-in first-out
  // ------------------------------------------------------------------------------------------

  /** From `s` to `s'` job `j` has come to wait for a worker. */
  predicate Queues(s: System, s': System, j: Jid) {
    j in s'.jobs && s'.jobs[j].place.Queued? && !(j in s.jobs && s.jobs[j].place.Queued?)
  }

  /** From `s` to `s'` a worker has taken job `j`, which waited for one. */
  predicate Takes(s: System, s': System, j: Jid) {
    && j in s.jobs && s.jobs[j].place.Queued? && j in s'.jobs && s'.jobs[j].place.AtWorker?
    && s'.jobs[j].place.w in s'.workers && s'.workers[s'.jobs[j].place.w] == Worker.Taken(j)
  }

  ghost function QueuedBy(s: System, s': System): seq<Jid> {
    if exists j :: Queues(s, s', j) then (var j :| Queues(s, s', j); [j]) else []
  }

  ghost function TakenBy(s: System, s': System): seq<Jid> {
    if exists j :: Takes(s, s', j) then (var j :| Takes(s, s', j); [j]) else []
  }

  /** The jobs that have come to wait in the first `n` steps, in order. */
  ghost function QueuedSoFar(ss: seq<System>, n: nat): seq<Jid>
    requires n < |ss|
  {
    if n == 0 then [] else QueuedSoFar(ss, n - 1) + QueuedBy(ss[n - 1], ss[n])
  }

  /** The jobs among them that workers have taken in the first `n` steps, in order. */
  ghost function TakenSoFar(ss: seq<System>, n: nat): seq<Jid>
    requires n < |ss|
  {
    if n == 0 then [] else TakenSoFar(ss, n - 1) + TakenBy(ss[n - 1], ss[n])
  }

  lemma NothingQueued(s: System, s': System)
    requires forall j :: !Queues(s, s', j)
    ensures QueuedBy(s, s') == []
  {
  }

  lemma NothingTaken(s: System, s': System)
    requires forall j :: !Takes(s, s', j)
    ensures TakenBy(s, s') == []
  {
  }

  /** No job goes to the queue or leaves it. */
  ghost predicate SamePlace(s: System, s': System) {
    && s'.queue == s.queue
    && (forall j :: j in s'.jobs && s'.jobs[j].place.Queued? ==> j in s.jobs && s.jobs[j].place.Queued?)
    && (forall j :: j in s.jobs && s.jobs[j].place.Queued? && j in s'.jobs ==> s'.jobs[j].place.Queued?)
  }

  lemma QuietStep(s: System, s': System)
    requires SamePlace(s, s')
    ensures s.queue + QueuedBy(s, s') == TakenBy(s, s') + s'.queue
  {
    NothingQueued(s, s');
    NothingTaken(s, s');
  }

  lemma HandOverOrder(s: System, w: Wid, launched: bool)
    requires Inv(s) && Enabled(s, HandOver(w, launched)) && s.waiting != 0
    ensures
      var s' := Apply(s, HandOver(w, launched));
      s.queue + QueuedBy(s, s') == TakenBy(s, s') + s'.queue
  {
    hide PoolOk, PlacesOk, JobsOk, NotesOk;
    var s' := Apply(s, HandOver(w, launched));
    assert Queues(s, s', s.main.j);
    assert forall j :: Queues(s, s', j) ==> j == s.main.j;
    NothingTaken(s, s');
  }

  lemma EnterOrder(s: System, w: Wid)
    requires Inv(s) && Enabled(s, Enter(w)) && s.queue != []
    ensures
      var s' := Apply(s, Enter(w));
      s.queue + QueuedBy(s, s') == TakenBy(s, s') + s'.queue
  {
    hide PoolOk, MainOk, JobsOk, NotesOk;
    var s' := Apply(s, Enter(w));
    assert s.jobs[s.queue[0]].place.Queued?;
    hide PlacesOk;
    assert Takes(s, s', s.queue[0]);
    assert forall j :: Takes(s, s', j) ==> j == s.queue[0];
    NothingQueued(s, s');
  }

  /** What comes to wait goes to the end of the queue, and what is taken comes from its front. */
  lemma StepOrder(s: System, a: Step)
    requires Inv(s) && Enabled(s, a)
    ensures s.queue + QueuedBy(s, Apply(s, a)) == TakenBy(s, Apply(s, a)) + Apply(s, a).queue
  {
    if a.HandOver? && s.waiting != 0 {
      HandOverOrder(s, a.w, a.launched);
    } else if a.Enter? && s.queue != [] {
      EnterOrder(s, a.w);
    } else {
      hide Inv, Apply, Enabled, SamePlace;
      if WorkerStep(a) {
        QuietWorker(s, a);
      } else {
        QuietMain(s, a);
      }
      QuietStep(s, Apply(s, a));
    }
  }

  lemma QuietWorker(s: System, a: Step)
    requires Inv(s) && Enabled(s, a) && WorkerStep(a)
    ensures SamePlace(s, Apply(s, a))
  {
    hide Inv, JobOk;
    HeldJob(s, a.w);
  }

  lemma QuietMain(s: System, a: Step)
    requires Inv(s) && Enabled(s, a) && !WorkerStep(a)
    requires !(a.HandOver? && s.waiting != 0) && !(a.Enter? && s.queue != [])
    ensures SamePlace(s, Apply(s, a))
  {
    hide Inv, JobOk;
    if a.HandOver? {
      CheckedJob(s);
    }
  }

  lemma CheckedJob(s: System)
    requires Inv(s) && s.main.Checked?
    ensures s.main.j in s.jobs && s.jobs[s.main.j].place.NotHanded?
  {
    hide PoolOk, PlacesOk, JobsOk, NotesOk;
  }

  /** In every run, the jobs that have come to wait are those that workers have taken from the queue followed by those
      still in it, in order: workers take the oldest job first. */
  lemma {:induction false} FirstInFirstOut(ss: seq<System>, n: nat)
    requires IsRun(ss) && n < |ss|
    ensures QueuedSoFar(ss, n) == TakenSoFar(ss, n) + ss[n].queue
  {
    hide Inv, Enabled, Apply, QueuedBy, TakenBy;
    if n > 0 {
      FirstInFirstOut(ss, n - 1);
      RunInv(ss, n - 1);
      assert Next(ss[n - 1], ss[n]);
      var a :| Enabled(ss[n - 1], a) && ss[n] == Apply(ss[n - 1], a);
      StepOrder(ss[n - 1], a);
      var taken, joined := TakenSoFar(ss, n - 1), QueuedBy(ss[n - 1], ss[n]);
      assert taken + ss[n - 1].queue + joined == taken + (ss[n - 1].queue + joined);
    }
  }

  /** A job is handed to a new worker if none waits, and else queued, and one that waits is signalled.  If no worker can
      be launched the job has failed, and is not handed to anybody. */
  lemma HandOverLaw(s: System, w: Wid, launched: bool)
    requires Inv(s) && Enabled(s, HandOver(w, launched))
    ensures
      var s', j := Apply(s, HandOver(w, launched)), s.main.j;
      && j in s.jobs && s.jobs[j].place.NotHanded? && j in s'.jobs
      && if s.waiting > 0 then
           && w in s.workers && s.workers[w].Blocked? && s'.workers == s.workers[w := Signalled]
           && s'.waiting == s.waiting - 1 && s'.threads == s.threads && Queues(s, s', j) && s'.main == Handed(j)
         else if launched then
           && w !in s.workers && s'.workers == s.workers[w := Worker.Taken(j)] && s'.threads == s.threads + 1
           && s'.jobs[j].place == AtWorker(w) && s'.queue == s.queue && s'.main == Handed(j)
         else
           && s' == s.(jobs := s'.jobs, main := Ready) && s'.jobs == s.jobs[j := s.jobs[j].(caller := Failed)]
  {
    CheckedJob(s);
    if s.waiting > 0 {
      SignalIsTaken(s, w, launched);
    }
    hide PlacesOk, JobsOk, NotesOk, MainOk;
  }

  /** The pool size is what was set last. */
  lemma SizeIsSet(s: System, a: Step)
    requires Enabled(s, a)
    ensures Apply(s, a).size == if a.SetSize? then a.size else s.size
  {
  }
}
