/**
 * The bookkeeping every agent shares (agents/base_agent.py): a status machine
 * (initializing, then ready and working in turn, or error after a failed task), a task
 * counter, the accumulated execution time and the time of the last activity. Clock
 * readings are parameters (seconds); durations are in milliseconds.
 */
module Agent {
  import opened Common
  import Metrics

  datatype Status = Initializing | Ready | Working | Error

  /** What `get_status` reports. */
  datatype AgentStatus = AgentStatus(
    name: string,
    status: Status,
    tasksCompleted: nat,
    avgExecutionTimeMs: real,
    lastActive: Option<real>)

  /** Mean time per completed task, 0 before the first one. */
  function AverageTime(total: real, tasks: nat): (r: real)
    ensures tasks == 0 ==> r == 0.0
    ensures tasks > 0 ==> r * tasks as real == total
  {
    if tasks == 0 then 0.0 else total / tasks as real
  }

  /** The agent state after a task that ran from `t0` to `t1` and completed. */
  twostate predicate CompletedTask(a: BaseAgent, t0: real, t1: real)
    reads a, a.metrics
  {
    && a.status == Ready && a.lastActive == Some(t1)
    && a.tasksCompleted == old(a.tasksCompleted) + 1
    && a.totalExecutionTime == old(a.totalExecutionTime) + (t1 - t0) * 1000.0
    && (a.metrics != null ==>
        && a.metrics.agentExecutions == old(a.metrics.agentExecutions)[a.name :=
             (if a.name in old(a.metrics.agentExecutions) then old(a.metrics.agentExecutions)[a.name] else [])
             + [Metrics.Execution((t1 - t0) * 1000.0, t1)]]
        && a.metrics.totalSearches == old(a.metrics.totalSearches)
        && a.metrics.errorCount == old(a.metrics.errorCount)
        && a.metrics.searchHistory == old(a.metrics.searchHistory))
  }

  /** The agent state after a task started at `t0` and left before `end_task`: nothing
      is counted or reported, and the status is `final`. */
  twostate predicate LeftTask(a: BaseAgent, t0: real, final: Status)
    reads a, a.metrics
  {
    && a.status == final && a.lastActive == Some(t0)
    && a.tasksCompleted == old(a.tasksCompleted)
    && a.totalExecutionTime == old(a.totalExecutionTime)
    && (a.metrics != null ==>
        && a.metrics.agentExecutions == old(a.metrics.agentExecutions)
        && a.metrics.totalSearches == old(a.metrics.totalSearches)
        && a.metrics.errorCount == old(a.metrics.errorCount)
        && a.metrics.searchHistory == old(a.metrics.searchHistory))
  }

  class BaseAgent {
    const name: string
    var status: Status
    var tasksCompleted: nat
    var totalExecutionTime: real
    var lastActive: Option<real>
    /** The collector the agent reports to, if any. */
    const metrics: Metrics.MetricsCollector?

    constructor (name: string, metrics: Metrics.MetricsCollector?)
      ensures this.name == name && this.metrics == metrics
      ensures status == Initializing && tasksCompleted == 0
      ensures totalExecutionTime == 0.0 && lastActive == None
    {
      this.name := name;
      status := Initializing;
      tasksCompleted := 0;
      totalExecutionTime := 0.0;
      lastActive := None;
      this.metrics := metrics;
    }

    method Initialize()
      modifies this`status
      ensures status == Ready
    {
      status := Ready;
    }

    /** Marks the agent busy and returns the start time of the task. */
    method StartTask(now: real) returns (startTime: real)
      modifies this`status, this`lastActive
      ensures status == Working && lastActive == Some(now) && startTime == now
    {
      status := Working;
      lastActive := Some(now);
      startTime := now;
    }

    /** Completes a task: counts it, adds its duration, goes back to ready and reports the
        duration to the attached collector (one sample, under this agent's name). */
    method EndTask(startTime: real, now: real) returns (executionTimeMs: real)
      modifies this`tasksCompleted, this`totalExecutionTime, this`status, this`lastActive, metrics
      ensures executionTimeMs == (now - startTime) * 1000.0
      ensures CompletedTask(this, startTime, now)
    {
      executionTimeMs := (now - startTime) * 1000.0;
      tasksCompleted := tasksCompleted + 1;
      totalExecutionTime := totalExecutionTime + executionTimeMs;
      status := Ready;
      lastActive := Some(now);
      if metrics != null {
        metrics.RecordAgentExecution(name, executionTimeMs, now);
      }
    }

    /** The except-branch of every agent's task: the agent is left in the error state. */
    method FailTask()
      modifies this`status
      ensures status == Error
    {
      status := Error;
    }

    function GetAvgExecutionTime(): (r: real)
      reads this
      ensures tasksCompleted == 0 ==> r == 0.0
      ensures tasksCompleted > 0 ==> r * tasksCompleted as real == totalExecutionTime
    {
      AverageTime(totalExecutionTime, tasksCompleted)
    }

    function GetStatus(): (r: AgentStatus)
      reads this
      ensures r.name == name && r.status == status && r.tasksCompleted == tasksCompleted
      ensures r.lastActive == lastActive
      ensures tasksCompleted == 0 ==> r.avgExecutionTimeMs == 0.0
      ensures tasksCompleted > 0 ==> r.avgExecutionTimeMs * tasksCompleted as real == totalExecutionTime
    {
      AgentStatus(name, status, tasksCompleted, GetAvgExecutionTime(), lastActive)
    }
  }
}
