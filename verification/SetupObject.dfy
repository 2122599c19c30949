/**
 The setup registry as the object requests share. Each method is the code of one critical
 section between two awaits, or the end of a background task, tied to `SetupExclusion`.
 */
module SetupObject {
  import opened Common
  import opened SetupExclusion

  class SetupRegistry {
    var backgroundInstalls: map<TrainerId, TaskId>
    var launchFailure: map<TrainerId, string>
    var nextTask: TaskId
    ghost var rest: System    // the lock, the tasks in progress and the job table

    ghost function State(): System
      reads this
    {
      rest.(installs := backgroundInstalls, failures := launchFailure, nextTask := nextTask)
    }

    constructor ()
      ensures State() == INITIAL
    {
      backgroundInstalls, launchFailure, nextTask, rest := map[], map[], 0, INITIAL;
    }

    function Failure(trainer: TrainerId): Option<string>
      reads this
    {
      if trainer in launchFailure then Some(launchFailure[trainer]) else None
    }

    /** `allow_job_submission` once it holds the lock; false stands for the error it raises. */
    method AllowJobSubmission(trainer: TrainerId) returns (admitted: bool)
      requires rest.section.Free?
      modifies this
      ensures State() == Next(old(State()), EnterSubmit(trainer))
      ensures admitted <==> State().section == Submitting(trainer)
      ensures admitted <==> trainer !in old(backgroundInstalls) && !NeedsTheUser(old(Failure(trainer)))
    {
      var failure := Failure(trainer);
      if trainer in backgroundInstalls || (failure.Some? && failure.value in REFUSING_FAILURES) {
        return false;
      }
      rest := rest.(section := Submitting(trainer));
      return true;
    }

    /** The first checks of an install or a reboot once it holds the lock. */
    method RequestSetup(trainer: TrainerId, kind: Kind, ssh: bool) returns (accepted: bool)
      requires rest.section.Free?
      modifies this
      ensures State() == Next(old(State()), EnterSetup(trainer, kind, ssh))
      ensures accepted <==> State().section == Requested(trainer, kind)
      ensures accepted <==> ssh && trainer !in old(backgroundInstalls)
                            && (kind == Rebooting ==> AsksForReboot(old(Failure(trainer))))
    {
      var failure := Failure(trainer);
      if !ssh || trainer in backgroundInstalls {
        return false;
      }
      if kind.Rebooting? && !(failure.Some? && failure.value in REBOOTABLE_FAILURES) {
        return false;
      }
      rest := rest.(section := Requested(trainer, kind));
      return true;
    }

    /** The end of an install's or a reboot's critical section: the task is created and recorded. */
    method StartTask(trainer: TrainerId, kind: Kind) returns (task: TaskId)
      requires rest.section == Approved(trainer, kind)
      modifies this
      ensures State() == Next(old(State()), CreateTask) && task == old(nextTask)
    {
      if kind.Installing? {
        launchFailure := launchFailure - {trainer};
      }
      task := nextTask;
      backgroundInstalls := backgroundInstalls[trainer := task];
      nextTask := nextTask + 1;
      rest := rest.(section := Free, tasks := rest.tasks[task := Task(trainer, kind)]);
    }

    /** The `finally` of a setup task: it removes its own registration. */
    method EndTask(task: TaskId, trainer: TrainerId)
      requires task in rest.tasks && rest.tasks[task].trainer == trainer
      modifies this
      ensures State() == Next(old(State()), TaskEnds(task))
    {
      if trainer in backgroundInstalls && backgroundInstalls[trainer] == task {
        backgroundInstalls := backgroundInstalls - {trainer};
      }
      rest := rest.(tasks := rest.tasks - {task});
    }
  }
}
