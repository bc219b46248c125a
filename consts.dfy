/** The task life-cycle ordinals and shared constants of the service. */
module MiscConsts {
  /** A task's life-cycle state; Go declares it as `uint8`. */
  newtype TaskStatus = x: int | 0 <= x < 256

  const OPEN: TaskStatus := 0
  const REGISTERED: TaskStatus := 1
  const SCHEDULED: TaskStatus := 2
  const STARTED: TaskStatus := 3
  const FAILED: TaskStatus := 4
  const TIMEOUT: TaskStatus := 5
  const DONE: TaskStatus := 6

  /** Branches of CI tasks are named by this prefix followed by the task id. */
  const TASKPREFIX := "tfci-"
  /** Reported to GitHub in place of an empty task output. */
  const NOOUTPUT := "---NO OUTPUT AVAILABLE---"
  /** The directory name that marks the root of a checked-out repository. */
  const PROD42 := "production_42"
  /** The error text Go's exec package gives when a command's context times out. */
  const DEADLINE_EXCEEDED := "context deadline exceeded"
}
