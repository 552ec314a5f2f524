/**
 The worker as an object: every method is one stretch of its code between two awaits, updating the fields in place.
 A worker object is always in a state some run of the model reaches.
 */
module WorkerObject {
  import opened Wrappers
  import Journal
  import opened ApplyWorker
  import WorkerCalls
  import WorkerTheorems

  class DomainRuleApplyWorker {
    var status: Status
    var started: bool
    var queue: seq<Task>
    var activity: Activity
    var drainScheduled: bool
    var wakeRequested: bool
    var admissionEpoch: nat
    var aborted: bool
    var stopRequested: bool
    var submissions: nat
    var enabled: bool
    var journal: map<string, Journal.Phase>
    ghost var history: History

    ghost function View(): Worker
      reads this
    {
      Worker(status, started, queue, activity, drainScheduled, wakeRequested, admissionEpoch, aborted, stopRequested,
          enabled, journal,
        submissions, history)
    }

    ghost predicate Valid()
      reads this
    {
      WorkerTheorems.Inv(View())
    }

    constructor (enabled: bool, journal: map<string, Journal.Phase>)
      ensures Valid() && View() == Initial(enabled, journal)
    {
      WorkerTheorems.InitialInv(enabled, journal);
      status, started, queue, activity, drainScheduled, wakeRequested := Disabled, false, [], Resting, false, false;
      admissionEpoch, aborted, stopRequested, submissions, this.enabled, this.journal :=
          0, false, false, 0, enabled, journal;
      history := History([], [], {}, false, false, 0);
    }

    method Append(task: Task)
      modifies this`queue, this`history
      ensures View() == Enqueue(old(View()), task)
    {
      queue := queue + [task];
      history := history.(enqueued := history.enqueued + [task]);
    }

    method Start()
      requires Valid()
      modifies this`started, this`status, this`queue, this`history
      ensures Valid() && View() == StartCall(old(View()))
    {
      hide WorkerTheorems.Inv, Still, Keeps;
      ghost var before := View();
      if !started && !status.Stopping? && !status.Stopped? {
        started := true;
        if !enabled {
          status := Disabled;
        } else {
          status := Recovering;
          Append(Recovery);
        }
      }
      WorkerTheorems.StartKeeps(before);
    }

    method ScheduleDrainPass()
      modifies this`drainScheduled, this`status, this`history, this`queue
      ensures View() == ScheduleDrain(old(View()))
    {
      if !drainScheduled {
        drainScheduled := true;
        status := Recovering;
        history := history.(wokenAt := admissionEpoch);
        Append(Drain);
      }
    }

    method WakeUp() returns (accepted: bool)
      requires Valid()
      modifies this`wakeRequested, this`status, this`history, this`drainScheduled, this`queue
      ensures accepted <==> enabled && old(status) in {Ready, Recovering, RecoveryRequired}
      ensures accepted ==> WorkerCalls.Woken(View())
      ensures Valid() && View() == WakeCall(old(View()))
    {
      hide WorkerTheorems.Inv, Still, Keeps, WorkerCalls.Woken;
      ghost var before := View();
      accepted := (status.Ready? || status.Recovering? || status.RecoveryRequired?) && enabled;
      if accepted {
        wakeRequested := true;
        status := Recovering;
        history := history.(unserved := true, disabledSinceWake := false, wokenAt := admissionEpoch);
        ScheduleDrainPass();
      }
      WorkerTheorems.WakeKeeps(before);
      WorkerCalls.CallWakes(before);
    }

    method SubmitWork() returns (number: Option<nat>)
      requires Valid()
      modifies this`queue, this`history, this`submissions
      ensures number.Some? <==> old(status).Ready? && old(enabled)
      ensures number.Some? ==> queue == old(queue) + [Submission(number.value, old(admissionEpoch))]
      ensures Valid() && View() == SubmitCall(old(View()))
    {
      hide WorkerTheorems.Inv, Still, Keeps;
      ghost var before := View();
      if !status.Ready? || !enabled {
        number := None;
      } else {
        number := Some(submissions);
        Append(Submission(submissions, admissionEpoch));
        submissions := submissions + 1;
      }
      WorkerTheorems.SubmitKeeps(before);
    }

    method SerializeMutationWork() returns (accepted: bool)
      requires Valid()
      modifies this`queue, this`history
      ensures accepted <==> !old(status).Stopping? && !old(status).Stopped?
      ensures Valid() && View() == MutationCall(old(View()))
    {
      hide WorkerTheorems.Inv, Still, Keeps;
      ghost var before := View();
      accepted := !status.Stopping? && !status.Stopped?;
      if accepted {
        Append(Mutation);
      }
      WorkerTheorems.MutationKeeps(before);
    }

    method RequestStop()
      requires Valid()
      modifies this`status, this`wakeRequested, this`aborted, this`stopRequested
      ensures Valid() && View() == StopCall(old(View()))
    {
      hide WorkerTheorems.Inv, Still, Keeps;
      ghost var before := View();
      if !status.Stopped? {
        status := Stopping;
        wakeRequested := false;
        aborted := true;
        stopRequested := true;
      }
      WorkerTheorems.StopKeeps(before);
    }

    method FailWith()
      modifies this`status, this`wakeRequested, this`aborted
      ensures View() == Fail(old(View()))
    {
      if status.Failed? || status.Stopping? || status.Stopped? {
        return;
      }
      status := Failed;
      wakeRequested := false;
      aborted := true;
    }

    method RequireRecoveryPass()
      modifies this`status, this`admissionEpoch
      ensures View() == RequireRecovery(old(View()))
    {
      admissionEpoch := admissionEpoch + 1;
      status := RecoveryRequired;
    }

    method RejectTask(task: Task)
      modifies this`activity
      ensures View() == Reject(old(View()), task)
    {
      activity := if task.Recovery? || task.Drain? then Settled(task, false) else Resting;
    }

    method EndDrainPass()
      modifies this`status, this`activity
      ensures View() == EndDrain(old(View()))
    {
      if status.Recovering? {
        status := Ready;
      }
      activity := Settled(Drain, true);
    }

    /** The next operation of a snapshot, or its end. */
    method Advance(task: Task, ids: seq<string>)
      modifies this`status, this`activity
      ensures View() == NextOperation(old(View()), task, ids)
    {
      if ids != [] {
        if aborted {
          RejectTask(task);
        } else {
          activity := Executing(task, ids[0], ids[1..]);
        }
      } else if !task.Drain? {
        activity := Settled(task, true);
      } else if wakeRequested {
        activity := Waiting;
      } else {
        EndDrainPass();
      }
    }

    method TakeHead() returns (task: Task)
      requires queue != []
      modifies this`queue, this`history
      ensures task == old(queue)[0]
      ensures View() == old(View()).(queue := old(queue)[1..],
          history := old(history).(begun := old(history).begun + [task]))
    {
      task := queue[0];
      queue := queue[1..];
      history := history.(begun := history.begun + [task]);
    }

    method StartSnapshot(task: Task, listed: seq<string>)
      modifies this`history, this`status, this`activity
      ensures View() == Snapshot(old(View()), task, listed)
    {
      hide NextOperation;
      history := history.(unserved := false);
      Advance(task, listed);
    }

    method BeginNext(listed: seq<string>)
      requires Valid() && activity.Resting? && queue != [] && Lists(journal, listed)
      modifies this`queue, this`history, this`activity, this`status
      ensures Valid() && View() == BeginTask(old(View()), listed)
    {
      hide WorkerTheorems.Inv, Still, Keeps, Snapshot, Lists;
      ghost var before := View();
      var task := TakeHead();
      if task.Recovery? {
        StartSnapshot(Recovery, listed);
      } else if task.Drain? {
        activity := Waiting;
      } else if task.Mutation? {
        activity := Mutating;
      } else if !aborted && enabled && task.admittedAt == admissionEpoch {
        activity := Preparing(task);
        history := history.(prepared := history.prepared + {task.number});
      }
      WorkerTheorems.BeginKeeps(before, listed);
    }

    method TimerBoundary(listed: seq<string>)
      requires Valid() && activity.Waiting? && Lists(journal, listed)
      modifies this`status, this`activity, this`wakeRequested, this`history
      ensures Valid() && View() == DrainLoop(old(View()), listed)
    {
      hide WorkerTheorems.Inv, Still, Keeps, Snapshot, Lists;
      ghost var before := View();
      if aborted {
        RejectTask(Drain);
      } else if !wakeRequested {
        EndDrainPass();
      } else if !enabled {
        status := Disabled;
        activity := Settled(Drain, true);
      } else {
        wakeRequested := false;
        StartSnapshot(Drain, listed);
      }
      WorkerTheorems.TimerKeeps(before, listed);
    }

    method PrepareEnded(id: Option<string>)
      requires Valid() && activity.Preparing?
      modifies this`activity, this`journal
      ensures Valid() && View() == EndPrepare(old(View()), id)
    {
      hide WorkerTheorems.Inv, Still, Keeps;
      ghost var before := View();
      var task := activity.task;
      activity := Resting;
      if id.Some? {
        if id.value !in journal {
          journal := journal[id.value := Journal.Prepared];
        }
        if !aborted {
          activity := Executing(task, id.value, []);
        }
      }
      WorkerTheorems.PrepareKeeps(before, id);
    }

    method ResolveTask(task: Task)
      modifies this`activity
      ensures View() == Resolve(old(View()), task)
    {
      activity := if task.Submission? then Resting else Settled(task, true);
    }

    method ConcludeTask(task: Task, rest: seq<string>, execution: Execution)
      modifies this`activity, this`status, this`wakeRequested, this`aborted, this`admissionEpoch
      ensures View() == Conclude(old(View()), task, rest, execution)
    {
      hide NextOperation, Resolve, RequireRecovery, Reject, Fail, Still;
      if execution.Threw? {
        FailWith();
        RejectTask(task);
      } else if execution.Deferred? {
        RequireRecoveryPass();
        ResolveTask(task);
      } else if aborted {
        RejectTask(task);
      } else if execution.phase.Partial? {
        RequireRecoveryPass();
        ResolveTask(task);
      } else if task.Submission? {
        ResolveTask(task);
      } else {
        Advance(task, rest);
      }
    }

    method ExecutionEnded(execution: Execution)
      requires Valid() && activity.Executing? && ReturnsTerminal(execution)
      modifies this`activity, this`journal, this`status, this`wakeRequested, this`aborted, this`admissionEpoch
      ensures Valid() && View() == EndExecution(old(View()), execution)
    {
      hide WorkerTheorems.Inv, Conclude, Still, Keeps;
      ghost var before := View();
      var task, rest := activity.task, activity.rest;
      journal := journal[activity.id := execution.phase];
      ConcludeTask(task, rest, execution);
      WorkerTheorems.ExecuteKeeps(before, execution);
    }

    method ContinueDrain(ok: bool)
      modifies this`drainScheduled, this`status, this`wakeRequested, this`aborted, this`queue, this`history
      ensures var done := old(View()).(drainScheduled := false);
        View() == if !ok then Fail(done) else if done.wakeRequested && CanWake(done) then ScheduleDrain(done) else done
    {
      hide Fail, ScheduleDrain;
      drainScheduled := false;
      if !ok {
        FailWith();
      } else if wakeRequested && (status.Ready? || status.Recovering? || status.RecoveryRequired?) && enabled {
        ScheduleDrainPass();
      }
    }

    method Continuation()
      requires Valid() && activity.Settled?
      modifies this`activity, this`drainScheduled, this`status, this`wakeRequested, this`aborted, this`queue,
          this`history
      ensures Valid() && View() == ContinueSettled(old(View()))
    {
      hide WorkerTheorems.Inv, Still, Keeps, Fail, ScheduleDrain, CanWake;
      ghost var before := View();
      var task, ok := activity.task, activity.ok;
      activity := Resting;
      if task.Drain? {
        ContinueDrain(ok);
        assert View() == ContinueSettled(before);
      } else if !ok {
        FailWith();
        assert View() == ContinueSettled(before);
      } else if status.Recovering? && !drainScheduled && !wakeRequested {
        status := Ready;
      }
      assert View() == ContinueSettled(before);
      hide ContinueSettled;
      WorkerTheorems.ContinueKeeps(before);
    }
  }
}
