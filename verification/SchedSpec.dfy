/** The scheduler of task.c on values: run queue, registry and task accounting. */
module SchedSpec {
  import opened Util

  /**
   The globals of task.c.  `log` is a history variable: the tasks dispatched so far.
   `system` holds the tasks whose system flag is set.
   */
  datatype Sched<T> = Sched(
    running: Option<T>, runq: seq<T>, nswitch: nat, log: seq<T>,
    all: seq<T>, system: set<T>, count: int, exitval: int, idgen: nat)

  /** taskready, for several tasks in turn. */
  function ReadyAll<T>(s: Sched<T>, us: seq<T>): Sched<T> {
    s.(runq := s.runq + us)
  }

  /** taskcreate: a fresh task `t`. */
  function Create<T>(s: Sched<T>, t: T): Sched<T> {
    s.(count := s.count + 1, all := s.all + [t], runq := s.runq + [t], idgen := s.idgen + 1)
  }

  /** tasksystem. */
  ghost function MarkSystem<T>(s: Sched<T>): Sched<T>
    requires s.running.Some?
  {
    if s.running.value in s.system then s
    else s.(system := s.system + {s.running.value}, count := s.count - 1)
  }

  /** taskswitch, seen from the scheduler: nobody runs. */
  function Switch<T>(s: Sched<T>): Sched<T> {
    s.(running := None)
  }

  datatype Pick<T> = ProgramExit(val: int) | NoRunnable | Run(s: Sched<T>)

  /** The scheduler loop from its head to the switch into a task. */
  function Dispatch<T>(s: Sched<T>): Pick<T> {
    if s.count == 0 then ProgramExit(s.exitval)
    else if s.runq == [] then NoRunnable
    else Run(s.(running := Some(s.runq[0]), runq := s.runq[1..],
                nswitch := s.nswitch + 1, log := s.log + [s.runq[0]]))
  }

  /** The scheduler loop after task `t`, which is exiting, has switched out. */
  ghost function Reap<T>(s: Sched<T>, t: T): Sched<T>
    requires t in s.all
  {
    s.(count := if t in s.system then s.count else s.count - 1,
       all := SwapDelete(s.all, IndexOf(s.all, t)), system := s.system - {t})
  }
}
