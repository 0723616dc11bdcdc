/** The workshop-analysis view: one work order per part with its status,
    progress and priority derived from the index, the counters, the status
    distribution of the pie chart and the search box. */
module WorkshopAnalysisView {
  import opened Common

  datatype TaskStatus = Running | Queued | Paused | Completed

  datatype Priority = High | Medium | Low

  datatype WorkshopTask = WorkshopTask(
    id: string,
    workshop: string,
    itemName: string,
    progress: int,
    resource: string,
    priority: Priority,
    status: TaskStatus,
    lastUpdate: string)

  datatype Stats = Stats(total: nat, running: nat, completed: nat)

  /** One slice of the status pie chart. */
  datatype Slice = Slice(name: string, value: nat)

  /** Completed when 5 divides the index, else Paused when 7 does, else
      Queued when 3 does, else Running. */
  function StatusOf(i: nat): TaskStatus {
    if i % 5 == 0 then Completed else if i % 7 == 0 then Paused else if i % 3 == 0 then Queued else Running
  }

  /** 100 for a completed task, 0 for a queued one, otherwise the draw `r`
      standing for `Math.floor(20 + Math.random() * 60)`. */
  function ProgressOf(status: TaskStatus, r: int): int {
    if status == Completed then 100 else if status == Queued then 0 else r
  }

  function PriorityOf(i: nat): Priority {
    if i % 10 == 0 then High else if i % 3 == 0 then Medium else Low
  }

  const Workshops: seq<string> := ["Machining", "Assembly", "Electronic", "Painting"]
  const Resources: seq<string> := ["CNC-01", "Line-A", "Solder-X", "Robo-P", "Mill-05", "Press-02"]
  const Parts: seq<string> := [
    "齿轮 A-12", "传动轴 B-05", "密封圈 S-88", "控制板 V-2", "轴承 Z-9",
    "连接销 P-1", "液压泵 H-5", "传感器 C-0", "法兰盘 F-2", "紧固件 K-8",
    "外壳 J-3", "线束 L-9", "散热器 R-4", "阀门 G-6", "弹簧 T-1",
    "主控芯片 IC-10", "铝合金框架 FR-2", "绝缘垫片 IN-01", "微型马达 MT-5", "高压管路 HP-8", "显示模组 LCD-V2"
  ]

  function TaskId(i: nat): string {
    "WO-2026" + NatToString(200 + i)
  }

  /** Task `i` of the mock data. Its date is built as the view builds it
      (`DateStampAsWritten`), so for days 1-9 the year is shifted. */
  function Task(i: nat, r: int): WorkshopTask
    requires i < |Parts|
  {
    var status := StatusOf(i);
    WorkshopTask(
      TaskId(i),
      Workshops[i % |Workshops|],
      Parts[i],
      ProgressOf(status, r),
      Resources[i % |Resources|],
      PriorityOf(i),
      status,
      DateStampAsWritten("2026-02-", (i % 28) + 1))
  }

  function MockTasks(rs: seq<int>): (ts: seq<WorkshopTask>)
    requires |rs| == |Parts|
  {
    seq(|Parts|, i requires 0 <= i < |Parts| => Task(i, rs[i]))
  }

  /** The status and priority chains, case by case. */
  lemma StatusAndPriorityCases(i: nat)
    ensures StatusOf(i) == Completed <==> i % 5 == 0
    ensures StatusOf(i) == Paused <==> i % 5 != 0 && i % 7 == 0
    ensures StatusOf(i) == Queued <==> i % 5 != 0 && i % 7 != 0 && i % 3 == 0
    ensures PriorityOf(i) == High <==> i % 10 == 0
    ensures PriorityOf(i) == Medium <==> i % 10 != 0 && i % 3 == 0
  {
  }

  /** With draws in [20, 79], progress reads 100 exactly on completed tasks
      and 0 exactly on queued ones; running and paused tasks stay in
      [20, 79]. */
  lemma ProgressByStatus(status: TaskStatus, r: int)
    requires 20 <= r <= 79
    ensures ProgressOf(status, r) == 100 <==> status == Completed
    ensures ProgressOf(status, r) == 0 <==> status == Queued
    ensures status == Running || status == Paused ==> 20 <= ProgressOf(status, r) <= 79
  {
  }

  lemma TaskIdInjective(i: nat, j: nat)
    requires i != j
    ensures TaskId(i) != TaskId(j)
  {
    if TaskId(i) == TaskId(j) {
      PrefixedNatInjective("WO-2026", 200 + i, 200 + j);
    }
  }

  /** The 21 work-order ids are pairwise distinct. */
  lemma TaskIdsDistinct(rs: seq<int>)
    requires |rs| == |Parts|
    ensures forall i, j :: 0 <= i < j < |Parts| ==> MockTasks(rs)[i].id != MockTasks(rs)[j].id
  {
    var ts := MockTasks(rs);
    forall i, j | 0 <= i < j < |Parts| ensures ts[i].id != ts[j].id {
      TaskIdInjective(i, j);
    }
  }

  function StatusIs(s: TaskStatus): WorkshopTask -> bool {
    (t: WorkshopTask) => t.status == s
  }

  /** `mockTasks.filter(t => t.status === s).length`. */
  function CountStatus(ts: seq<WorkshopTask>, s: TaskStatus): nat {
    |Filter(ts, StatusIs(s))|
  }

  function ComputeStats(ts: seq<WorkshopTask>): Stats {
    Stats(|ts|, CountStatus(ts, Running), CountStatus(ts, Completed))
  }

  /** `statusDistribution`, in the pie chart's order (English names). */
  function StatusDistribution(ts: seq<WorkshopTask>): seq<Slice> {
    [Slice("Running", CountStatus(ts, Running)), Slice("Queued", CountStatus(ts, Queued)),
     Slice("Paused", CountStatus(ts, Paused)), Slice("Completed", CountStatus(ts, Completed))]
  }

  function SliceTotal(slices: seq<Slice>): nat {
    if slices == [] then 0 else slices[0].value + SliceTotal(slices[1..])
  }

  /** Every task has exactly one of the four statuses. */
  lemma {:induction false} CountsPartition(ts: seq<WorkshopTask>)
    ensures CountStatus(ts, Running) + CountStatus(ts, Queued) + CountStatus(ts, Paused) + CountStatus(ts, Completed) == |ts|
  {
    if ts != [] {
      assert ts == [ts[0]] + ts[1..];
      CountsPartition(ts[1..]);
      FilterPrependLength(ts[0], ts[1..], StatusIs(Running));
      FilterPrependLength(ts[0], ts[1..], StatusIs(Queued));
      FilterPrependLength(ts[0], ts[1..], StatusIs(Paused));
      FilterPrependLength(ts[0], ts[1..], StatusIs(Completed));
    }
  }

  /** Each task falls in exactly one slice, so the slices add up to the
      number of tasks; and the running and completed counters are the first
      and last slices. */
  lemma DistributionMatchesStats(ts: seq<WorkshopTask>)
    ensures SliceTotal(StatusDistribution(ts)) == ComputeStats(ts).total
    ensures StatusDistribution(ts)[0].value == ComputeStats(ts).running
    ensures StatusDistribution(ts)[3].value == ComputeStats(ts).completed
  {
    CountsPartition(ts);
    var d := StatusDistribution(ts);
    assert SliceTotal(d[3..]) == d[3].value + SliceTotal(d[4..]);
    assert SliceTotal(d[2..]) == d[2].value + SliceTotal(d[3..]);
    assert SliceTotal(d[1..]) == d[1].value + SliceTotal(d[2..]);
  }

  /** The search box: item name, workshop or id contains the term. */
  predicate Matches(t: WorkshopTask, term: string) {
    Contains(t.itemName, term) || Contains(t.workshop, term) || Contains(t.id, term)
  }

  function Filtered(ts: seq<WorkshopTask>, term: string): seq<WorkshopTask> {
    Filter(ts, (t: WorkshopTask) => Matches(t, term))
  }

  /** The filter keeps exactly the matching tasks, in order; an empty term
      keeps all. */
  lemma FilteredSpec(ts: seq<WorkshopTask>, term: string)
    ensures IsSubsequence(Filtered(ts, term), ts)
    ensures forall k :: 0 <= k < |Filtered(ts, term)| ==> Matches(Filtered(ts, term)[k], term)
    ensures forall k :: 0 <= k < |ts| && Matches(ts[k], term) ==> ts[k] in Filtered(ts, term)
    ensures term == "" ==> Filtered(ts, term) == ts
  {
    FilterIsSubsequence(ts, (t: WorkshopTask) => Matches(t, term));
    if term == "" {
      forall k | 0 <= k < |ts| ensures Matches(ts[k], term) {
        ContainsEmpty(ts[k].itemName);
      }
      FilterKeepsAll(ts, (t: WorkshopTask) => Matches(t, term));
    }
  }
}
