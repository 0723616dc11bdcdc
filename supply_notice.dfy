/** The supply-notice tracker: the 21 seeded notices with their supplied and
    remaining quantities and status, the rounded progress percentage and its
    bar colour. The notices are never changed after seeding. */
module SupplyNoticeView {
  import opened Common

  datatype NoticeStatus = InProgress | Completed | Delayed

  datatype SupplyNotice = SupplyNotice(
    id: string,
    supplierName: string,
    itemName: string,
    specs: string,
    totalQty: nat,
    suppliedQty: nat,
    remainingQty: int,
    unitPrice: int,
    estCompletionDate: string,
    status: NoticeStatus)

  const Parts: seq<string> := [
    "齿轮 A-12", "传动轴 B-05", "密封圈 S-88", "控制板 V-2", "轴承 Z-9",
    "连接销 P-1", "液压泵 H-5", "传感器 C-0", "法兰盘 F-2", "紧固件 K-8",
    "外壳 J-3", "线束 L-9", "散热器 R-4", "阀门 G-6", "弹簧 T-1",
    "主控芯片 IC-10", "铝合金框架 FR-2", "绝缘垫片 IN-01", "微型马达 MT-5", "高压管路 HP-8", "显示模组 LCD-V2"
  ]

  function TotalOf(i: nat): nat {
    500 + i * 100
  }

  /** Completed only when everything was supplied; otherwise Delayed when 7
      divides the index, else In-Progress. */
  function StatusOf(i: nat, supplied: nat, total: nat): NoticeStatus {
    if supplied == total then Completed else if i % 7 == 0 then Delayed else InProgress
  }

  /** Notice `i` of `generateInitialNotices`; `supplied` stands for
      `Math.floor(Math.random() * total)`. The completion date is built
      without padding, as the view does. */
  function Notice(i: nat, supplied: nat): SupplyNotice
    requires i < |Parts|
  {
    var total := TotalOf(i);
    var n := (i % 10) + 1;
    SupplyNotice(
      "NOTICE-SN-" + NatToString(1000 + i),
      if i % 2 == 0 then "正奇机械 " + NatToString(n) + " 公司" else "Alpha Elec " + NatToString(n) + " Ltd",
      Parts[i],
      if i % 3 == 0 then "Grade A" else "Standard",
      total,
      supplied,
      total - supplied,
      50 + i * 10,
      "2024-01-" + NatToString((i % 28) + 1),
      StatusOf(i, supplied, total))
  }

  function InitialNotices(supplied: seq<nat>): (ns: seq<SupplyNotice>)
    requires |supplied| == |Parts|
  {
    seq(|Parts|, i requires 0 <= i < |Parts| => Notice(i, supplied[i]))
  }

  /** The status rule: Completed exactly when nothing remains, Delayed only
      on indexes divisible by 7. */
  lemma StatusCases(i: nat, supplied: nat, total: nat)
    ensures StatusOf(i, supplied, total) == Completed <==> supplied == total
    ensures StatusOf(i, supplied, total) == Delayed <==> supplied != total && i % 7 == 0
  {
  }

  /** With the random draw below the total, as `Math.floor(Math.random() *
      total)` always is, every seeded notice has a positive remainder that
      completes its total, and none is Completed: the 21 notices of the
      header are Delayed at indexes 0, 7 and 14 and In-Progress elsewhere. */
  lemma InitialNoticesShape(supplied: seq<nat>)
    requires |supplied| == |Parts|
    requires forall i :: 0 <= i < |supplied| ==> supplied[i] < TotalOf(i)
    ensures |InitialNotices(supplied)| == 21
    ensures forall i :: 0 <= i < 21 ==>
              var n := InitialNotices(supplied)[i];
              && n.suppliedQty + n.remainingQty == n.totalQty
              && n.remainingQty > 0
              && n.status != Completed
              && (n.status == Delayed <==> i % 7 == 0)
              && n.unitPrice == 50 + 10 * i
  {
  }

  /** `Math.round(supplied / total * 100)` in integers: halves round up. */
  function Percent(supplied: nat, total: nat): nat
    requires total > 0
  {
    (200 * supplied + total) / (2 * total)
  }

  datatype BarColour = EmeraldBar | BlueBar

  function BarColourOf(percent: nat): BarColour {
    if percent == 100 then EmeraldBar else BlueBar
  }

  /** The rounded percentage is at most 100, and reads 100 as soon as the
      remainder is at most half a percent of the total, so the bar turns
      emerald before the notice is Completed. */
  lemma PercentRange(supplied: nat, total: nat)
    requires total > 0 && supplied <= total
    ensures Percent(supplied, total) <= 100
    ensures Percent(supplied, total) == 100 <==> 200 * (total - supplied) <= total
  {
    DivAtLeast(200 * supplied + total, 2 * total, 100);
    DivAtLeast(200 * supplied + total, 2 * total, 101);
  }

  /** A concrete notice: with 2499 of 2500 units supplied, notice 20 shows a
      100% emerald bar while its status is still In-Progress. */
  lemma FullBarWhileOpen()
    ensures BarColourOf(Percent(2499, TotalOf(20))) == EmeraldBar
    ensures StatusOf(20, 2499, TotalOf(20)) == InProgress
  {
    PercentRange(2499, 2500);
  }
}
