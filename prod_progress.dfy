/** The production-progress view: progress, stage, schedule status and delay
    derived from each part's index, the dashboard counters, the search box
    and the stage badge with its fallback for unknown stages. */
module ProdProgressView {
  import opened Common

  datatype Stage = Planning | Purchasing | Manufacturing | Inspection | Completed

  datatype ScheduleStatus = OnTrack | AtRisk | Delayed

  datatype ProductionProgress = ProductionProgress(
    id: string,
    itemName: string,
    drawingNo: string,
    startDate: string,
    planEndDate: string,
    progress: int,
    stage: Stage,
    status: ScheduleStatus,
    delayDays: nat)

  datatype Stats = Stats(total: nat, completed: nat, delayed: nat, atRisk: nat)

  function ProgressOf(i: nat): int {
    if i % 5 == 0 then 100 else if i % 3 == 0 then 35 else 75
  }

  function StageOf(progress: int): Stage {
    if progress == 100 then Completed
    else if progress > 70 then Inspection
    else if progress > 30 then Manufacturing
    else Purchasing
  }

  /** The `let status` / `let delayDays` if-chain: Delayed is tested before
      At-risk, and both only for unfinished items. */
  function StatusOf(i: nat, progress: int): (ScheduleStatus, nat) {
    if i % 7 == 0 && progress < 100 then (Delayed, 5 + i % 10)
    else if i % 4 == 0 && progress < 100 then (AtRisk, 1 + i % 3)
    else (OnTrack, 0)
  }

  const Parts: seq<string> := [
    "齿轮 A-12", "传动轴 B-05", "密封圈 S-88", "控制板 V-2", "轴承 Z-9",
    "连接销 P-1", "液压泵 H-5", "传感器 C-0", "法兰盘 F-2", "紧固件 K-8",
    "外壳 J-3", "线束 L-9", "散热器 R-4", "阀门 G-6", "弹簧 T-1",
    "主控芯片 IC-10", "铝合金框架 FR-2", "绝缘垫片 IN-01", "微型马达 MT-5", "高压管路 HP-8", "显示模组 LCD-V2"
  ]

  /** Item `i` of `progressData`. Its dates are built as the view builds
      them (`DateStampAsWritten`), so for days 1-9 the year is shifted. */
  function Item(i: nat): ProductionProgress
    requires i < |Parts|
  {
    var progress := ProgressOf(i);
    var (status, delay) := StatusOf(i, progress);
    ProductionProgress(
      "PROD-26-" + NatToString(400 + i),
      Parts[i],
      "DWG-" + NatToString(300 + i),
      DateStampAsWritten("2025-12-", (i % 15) + 1),
      DateStampAsWritten("2026-02-", (i % 25) + 5),
      progress,
      StageOf(progress),
      status,
      delay)
  }

  /** Item 0 starts on day 1, which the view writes with the year shifted. */
  lemma FirstItemStartDate()
    ensures Item(0).startDate == "02025-12-1"
  {
    DateStampAsWrittenShiftsYear();
  }

  function ProgressData(): (rs: seq<ProductionProgress>)
  {
    seq(|Parts|, i requires 0 <= i < |Parts| => Item(i))
  }

  /** Progress is 100 when 5 divides the index, else 35 when 3 does, else
      75; the stage is Completed exactly at 100 and Planning never occurs. */
  lemma ProgressAndStage(i: nat, progress: int)
    ensures ProgressOf(i) == 100 <==> i % 5 == 0
    ensures ProgressOf(i) == 35 <==> i % 5 != 0 && i % 3 == 0
    ensures ProgressOf(i) == 75 <==> i % 5 != 0 && i % 3 != 0
    ensures StageOf(progress) == Completed <==> progress == 100
    ensures StageOf(progress) == Inspection <==> progress != 100 && progress > 70
    ensures StageOf(progress) == Manufacturing <==> 30 < progress <= 70
    ensures StageOf(progress) != Planning
  {
  }

  /** The schedule status, decided in order: Delayed with 5 + (i % 10)
      days, else At-risk with 1 + (i % 3) days, else On-track with 0 days. */
  lemma StatusCases(i: nat, progress: int)
    ensures StatusOf(i, progress).0 == Delayed <==> i % 7 == 0 && progress < 100
    ensures StatusOf(i, progress).0 == AtRisk <==> !(i % 7 == 0) && i % 4 == 0 && progress < 100
    ensures StatusOf(i, progress).0 == Delayed ==> StatusOf(i, progress).1 == 5 + i % 10
    ensures StatusOf(i, progress).0 == AtRisk ==> StatusOf(i, progress).1 == 1 + i % 3
    ensures StatusOf(i, progress).0 == OnTrack ==> StatusOf(i, progress).1 == 0
  {
  }

  /** The "+N D late" marker shows exactly on items not on track; a
      finished item is always on track, so item 0 is Completed although 7
      divides 0. */
  lemma DelayIffNotOnTrack(i: nat)
    requires i < |Parts|
    ensures Item(i).delayDays > 0 <==> Item(i).status != OnTrack
    ensures Item(i).progress == 100 ==> Item(i).status == OnTrack && Item(i).delayDays == 0
    ensures Item(0).stage == Completed && Item(0).status == OnTrack
  {
  }

  predicate IsCompleted(r: ProductionProgress) {
    r.progress == 100
  }

  predicate IsDelayed(r: ProductionProgress) {
    r.status == Delayed
  }

  predicate IsAtRisk(r: ProductionProgress) {
    r.status == AtRisk
  }

  function ComputeStats(rs: seq<ProductionProgress>): Stats {
    Stats(|rs|, |Filter(rs, IsCompleted)|, |Filter(rs, IsDelayed)|, |Filter(rs, IsAtRisk)|)
  }

  /** Rows as the view derives them: finished items are on track. */
  predicate Consistent(rs: seq<ProductionProgress>) {
    forall k :: 0 <= k < |rs| ==> rs[k].progress == 100 ==> rs[k].status == OnTrack
  }

  /** No derived row is counted twice, so the three counters add up to at
      most the total. */
  lemma {:induction false} CountersBounded(rs: seq<ProductionProgress>)
    requires Consistent(rs)
    ensures var s := ComputeStats(rs); s.completed + s.delayed + s.atRisk <= s.total
  {
    if rs != [] {
      assert forall k :: 0 <= k < |rs[1..]| ==> rs[1..][k] == rs[k + 1];
      CountersBounded(rs[1..]);
    }
  }

  lemma ProgressDataConsistent()
    ensures Consistent(ProgressData())
  {
  }

  /** The search box: item name, drawing number or id contains the term. */
  predicate Matches(r: ProductionProgress, term: string) {
    Contains(r.itemName, term) || Contains(r.drawingNo, term) || Contains(r.id, term)
  }

  function Filtered(rs: seq<ProductionProgress>, term: string): seq<ProductionProgress> {
    Filter(rs, (r: ProductionProgress) => Matches(r, term))
  }

  /** The filter keeps exactly the matching rows, in order; an empty term
      keeps all. */
  lemma FilteredSpec(rs: seq<ProductionProgress>, term: string)
    ensures IsSubsequence(Filtered(rs, term), rs)
    ensures forall k :: 0 <= k < |Filtered(rs, term)| ==> Matches(Filtered(rs, term)[k], term)
    ensures forall k :: 0 <= k < |rs| && Matches(rs[k], term) ==> rs[k] in Filtered(rs, term)
    ensures term == "" ==> Filtered(rs, term) == rs
  {
    FilterIsSubsequence(rs, (r: ProductionProgress) => Matches(r, term));
    if term == "" {
      forall k | 0 <= k < |rs| ensures Matches(rs[k], term) {
        ContainsEmpty(rs[k].itemName);
      }
      FilterKeepsAll(rs, (r: ProductionProgress) => Matches(r, term));
    }
  }

  /** The colour family of a badge's classes (`bg-slate-100 text-slate-600`
      and so on). */
  datatype BadgeColour = Slate | Blue | Amber | Indigo | Emerald

  /** A stage badge: its label and its colour. */
  datatype StageBadge = StageBadge(text: string, colour: BadgeColour)

  function StageName(s: Stage): string {
    match s
    case Planning => "Planning"
    case Purchasing => "Purchasing"
    case Manufacturing => "Manufacturing"
    case Inspection => "Inspection"
    case Completed => "Completed"
  }

  /** The names `map[stage]` finds on `Object.prototype` when `stage` is not
      one of the five keys of the literal. */
  const PrototypeKeys: set<string> := {
    "constructor", "hasOwnProperty", "isPrototypeOf", "propertyIsEnumerable",
    "toLocaleString", "toString", "valueOf", "__proto__",
    "__defineGetter__", "__defineSetter__", "__lookupGetter__", "__lookupSetter__"
  }

  /** `getStageDisplay` on a stage name (English labels). A prototype member
      is truthy, so `||` keeps it, and it has neither `label` nor `color`:
      that badge is `None`. */
  function StageDisplay(stage: string): Option<StageBadge> {
    if stage == "Planning" then Some(StageBadge("Planning", Slate))
    else if stage == "Purchasing" then Some(StageBadge("Purchasing", Blue))
    else if stage == "Manufacturing" then Some(StageBadge("Manufacturing", Amber))
    else if stage == "Inspection" then Some(StageBadge("Inspection", Indigo))
    else if stage == "Completed" then Some(StageBadge("Completed", Emerald))
    else if stage in PrototypeKeys then None
    else Some(StageBadge(stage, Slate))
  }

  /** A stage that is neither one of the five names nor a prototype member
      falls back to its raw name on the slate colour, a prototype member
      gives no badge, and with English labels every badge reads as the stage
      name itself. */
  lemma StageDisplayFallback(stage: string)
    ensures (forall s: Stage :: stage != StageName(s)) && stage !in PrototypeKeys ==>
              StageDisplay(stage) == Some(StageBadge(stage, Slate))
    ensures (forall s: Stage :: stage != StageName(s)) && stage in PrototypeKeys ==> StageDisplay(stage).None?
    ensures StageDisplay(stage).Some? ==> StageDisplay(stage).value.text == stage
  {
    if stage == "Planning" {
      assert stage == StageName(Planning);
    } else if stage == "Purchasing" {
      assert stage == StageName(Purchasing);
    } else if stage == "Manufacturing" {
      assert stage == StageName(Manufacturing);
    } else if stage == "Inspection" {
      assert stage == StageName(Inspection);
    } else if stage == "Completed" {
      assert stage == StageName(Completed);
    }
  }

  /** The five known stages get five different colours; Planning shares the
      slate colour of the fallback for an unknown stage. */
  lemma StageColoursDistinct(s1: Stage, s2: Stage)
    requires s1 != s2
    ensures StageDisplay(StageName(s1)).Some? && StageDisplay(StageName(s2)).Some?
    ensures StageDisplay(StageName(s1)).value.colour != StageDisplay(StageName(s2)).value.colour
    ensures StageDisplay("Unknown") == Some(StageBadge("Unknown", Slate))
    ensures StageDisplay(StageName(Planning)).value.colour == StageDisplay("Unknown").value.colour
  {
  }
}
