/**
 * The CPU-load history that `getSystemUsage` keeps in the `cpuLoads` field of
 * the CMS service (system/server/src/services/cms.service.ts:102-105, 757-778).
 */
module SystemUsage {
  import opened Wrappers

  /** How many samples the history keeps. */
  const MaxLoadHistory: nat := 30

  /** One sample: when it was taken (a clock reading) and the load reported. */
  datatype CpuLoad = CpuLoad(time: int, load: real)

  /** The part of the monitor's usage report the history reads. */
  datatype CpuUsage = CpuUsage(currentLoad: Option<real>)

  /** The re-slice of cms.service.ts:771: the latest samples, at most `MaxLoadHistory` of them. */
  function RecentWindow(loads: seq<CpuLoad>): (r: seq<CpuLoad>)
    ensures |r| <= MaxLoadHistory
    ensures |loads| <= MaxLoadHistory ==> r == loads
    ensures |loads| > MaxLoadHistory ==> |r| == MaxLoadHistory
    ensures r == loads[|loads| - |r|..]
  {
    if |loads| > MaxLoadHistory then loads[|loads| - MaxLoadHistory..] else loads
  }

  /**
   * After a sample the newest entry is that sample, and the older entries are
   * the newest samples of the previous history, in their order.
   */
  lemma RecordedSampleIsLast(loads: seq<CpuLoad>, x: CpuLoad)
    ensures var r := RecentWindow(loads + [x]);
      && 0 < |r| <= MaxLoadHistory && r[|r| - 1] == x
      && r[..|r| - 1] == loads[|loads| - (|r| - 1)..]
  {
    var r := RecentWindow(loads + [x]);
    assert (loads + [x])[|loads| + 1 - |r|..][..|r| - 1] == loads[|loads| - (|r| - 1)..];
  }

  /** The history depends only on the samples taken: the last (at most) 30 of all of them. */
  lemma WindowOfWindow(loads: seq<CpuLoad>, x: CpuLoad)
    ensures RecentWindow(RecentWindow(loads) + [x]) == RecentWindow(loads + [x])
  {
    var w := RecentWindow(loads);
    var all := loads + [x];
    if |loads| > MaxLoadHistory {
      assert w + [x] == all[|all| - (MaxLoadHistory + 1)..];
      assert (w + [x])[1..] == all[|all| - MaxLoadHistory..];
    }
  }

  /** The service object's `cpuLoads` field. */
  class SystemMonitor {
    var cpuLoads: seq<CpuLoad>

    constructor ()
      ensures cpuLoads == []
    {
      cpuLoads := [];
    }

    /**
     * The history part of `getSystemUsage`: `usage` is the monitor's report and
     * `now` the clock. Returns the report's `previousLoads`, set when it has a CPU part.
     */
    method GetSystemUsage(usage: Option<CpuUsage>, now: int) returns (previousLoads: Option<seq<CpuLoad>>)
      modifies this
      ensures usage.Some? && usage.value.currentLoad.Some? ==>
        cpuLoads == RecentWindow(old(cpuLoads) + [CpuLoad(now, usage.value.currentLoad.value)])
      ensures !(usage.Some? && usage.value.currentLoad.Some?) ==> cpuLoads == old(cpuLoads)
      ensures usage.Some? && usage.value.currentLoad.Some? ==> |cpuLoads| <= MaxLoadHistory
      ensures previousLoads == if usage.Some? then Some(cpuLoads) else None
    {
      if usage.Some? && usage.value.currentLoad.Some? {
        cpuLoads := cpuLoads + [CpuLoad(now, usage.value.currentLoad.value)];
        if |cpuLoads| > MaxLoadHistory {
          cpuLoads := cpuLoads[|cpuLoads| - MaxLoadHistory..|cpuLoads|];
        }
      }
      previousLoads := if usage.Some? then Some(cpuLoads) else None;
    }
  }
}
