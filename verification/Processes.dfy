/** The process table both simulators work on. */
module Processes {
  /** A process as it is submitted. */
  datatype Job = Job(arrival: int, burst: int)

  /** A process as a simulator keeps it; -1 stands for a time that is not known yet. */
  datatype Proc = Proc(
    arrival: int, burst: int, remaining: int, start: int, finish: int,
    waiting: int, turnaround: int, response: int, priority: int, inQueue: int)

  /** The table before anything has run. */
  function InitProcs(jobs: seq<Job>): seq<Proc> {
    seq(|jobs|, p requires 0 <= p < |jobs| =>
      Proc(jobs[p].arrival, jobs[p].burst, jobs[p].burst, -1, -1, 0, 0, 0, 0, 0))
  }
}
