/** The quality-control query view: one inspection record per part with its
    result, failed and passed quantities and follow-up, the result counters,
    the pass-rate bar and the search box. */
module QCQueryView {
  import opened Common

  datatype QCResult = Pass | Fail | Conditional

  datatype FollowUp = Stored | Returned | Rectification

  /** A record; its pass rate is the function `PassRate` below. */
  datatype QCRecord = QCRecord(
    id: string,
    batchNo: string,
    supplier: string,
    itemName: string,
    inspectQty: nat,
    passQty: int,
    failQty: nat,
    inspector: string,
    date: string,
    result: QCResult,
    followUp: FollowUp)

  datatype Stats = Stats(total: nat, passed: nat, failed: nat, conditional: nat)

  /** Fail when 10 divides the index, else Conditional when 7 does, else Pass. */
  function ResultOf(i: nat): QCResult {
    if i % 10 == 0 then Fail else if i % 7 == 0 then Conditional else Pass
  }

  /** `Math.floor(inspectQty * 0.15)` for a failed lot and
      `Math.floor(inspectQty * 0.03)` for a conditional one, in integers. */
  function FailQty(result: QCResult, q: nat): nat {
    match result
    case Pass => 0
    case Fail => (q * 15) / 100
    case Conditional => (q * 3) / 100
  }

  function FollowUpOf(result: QCResult): FollowUp {
    match result
    case Pass => Stored
    case Fail => Returned
    case Conditional => Rectification
  }

  /** The English follow-up text. */
  function FollowUpText(f: FollowUp): string {
    match f
    case Stored => "Stored"
    case Returned => "Returned"
    case Rectification => "Rectification"
  }

  const Parts: seq<string> := [
    "齿轮 A-12", "传动轴 B-05", "密封圈 S-88", "控制板 V-2", "轴承 Z-9",
    "连接销 P-1", "液压泵 H-5", "传感器 C-0", "法兰盘 F-2", "紧固件 K-8",
    "外壳 J-3", "线束 L-9", "散热器 R-4", "阀门 G-6", "弹簧 T-1",
    "主控芯片 IC-10", "铝合金框架 FR-2", "绝缘垫片 IN-01", "微型马达 MT-5", "高压管路 HP-8", "显示模组 LCD-V2"
  ]

  /** Record `i` of the mock data. Its date is built as the view builds it
      (`DateStampAsWritten`), so for days 1-9 the year is shifted. */
  function Record(i: nat): QCRecord
    requires i < |Parts|
  {
    var q := 100 + i * 20;
    var result := ResultOf(i);
    var fail := FailQty(result, q);
    QCRecord(
      "QC-2026" + NatToString(100 + i),
      "BAT-260" + NatToString(i + 1),
      if i % 2 == 0 then "正奇机械" else "Alpha Elec",
      Parts[i],
      q,
      q - fail,
      fail,
      if i % 3 == 0 then "张工" else "李工",
      DateStampAsWritten("2026-02-", (i % 20) + 1),
      result,
      FollowUpOf(result))
  }

  function MockData(): (rs: seq<QCRecord>)
  {
    seq(|Parts|, i requires 0 <= i < |Parts| => Record(i))
  }

  /** The result chain, case by case. */
  lemma ResultCases(i: nat)
    ensures ResultOf(i) == Fail <==> i % 10 == 0
    ensures ResultOf(i) == Conditional <==> i % 10 != 0 && i % 7 == 0
    ensures ResultOf(i) == Pass <==> i % 10 != 0 && i % 7 != 0
  {
  }

  /** A failed lot rejects at least as much as a conditional one, and
      strictly more from 7 inspected units on; neither rejects more than
      was inspected. */
  lemma FailQtyOrder(q: nat)
    ensures FailQty(Conditional, q) <= FailQty(Fail, q) <= q
    ensures FailQty(Fail, q) > FailQty(Conditional, q) <==> q >= 7
  {
    var f := (q * 15) / 100;
    var c := (q * 3) / 100;
    assert c * 100 <= q * 3 < c * 100 + 100;
    assert f * 100 <= q * 15 < f * 100 + 100;
    if q >= 7 {
      assert q * 15 >= q * 3 + 84;
      assert f * 100 + 100 > c * 100 + 84;
      assert f * 100 >= c * 100 + 85 - 100 + 1 || f > c;
    }
  }

  /** Every record splits its lot: passed plus failed is the inspected
      quantity, nothing is negative, and only a Pass has no failed units. */
  lemma RecordQuantities(i: nat)
    requires i < |Parts|
    ensures Record(i).passQty + Record(i).failQty == Record(i).inspectQty
    ensures 0 <= Record(i).failQty <= Record(i).passQty
    ensures Record(i).failQty == 0 <==> Record(i).result == Pass
    ensures Record(i).followUp == FollowUpOf(Record(i).result)
  {
    var q := 100 + i * 20;
    FailQtyOrder(q);
  }

  /** Passed units per hundred inspected: the exact value of the view's
      floating-point quotient. */
  function Rate(pass: int, q: nat): real
    requires q > 0
  {
    (pass as real) / (q as real) * 100.0
  }

  /** The pass rate of a record. */
  function PassRate(r: QCRecord): real
    requires r.inspectQty > 0
  {
    Rate(r.passQty, r.inspectQty)
  }

  datatype RateColour = EmeraldBar | AmberBar | RoseBar

  function RateColourOf(rate: real): RateColour {
    if rate > 95.0 then EmeraldBar else if rate > 80.0 then AmberBar else RoseBar
  }

  lemma PosProduct(a: real, b: real)
    requires a > 0.0 && b > 0.0
    ensures a * b > 0.0
  {
  }

  /** Comparing the rate of `pass` out of `q` against a whole percentage `t`
      is comparing `pass * 100` against `t * q`. */
  lemma ScaleCompare(pass: int, q: nat, t: int)
    requires q > 0
    ensures Rate(pass, q) > t as real <==> pass * 100 > t * q
    ensures Rate(pass, q) == t as real <==> pass * 100 == t * q
  {
    var qr := q as real;
    var p := Rate(pass, q);
    assert p * qr == (pass * 100) as real;
    assert (t * q) as real == (t as real) * qr;
    if p > t as real {
      PosProduct(p - t as real, qr);
    } else if p < t as real {
      PosProduct(t as real - p, qr);
    }
  }

  /** The rate of lot `i` (100 + 20i units) by result. */
  lemma RateByResult(result: QCResult, i: nat)
    ensures var q := 100 + i * 20;
            var p := Rate(q - FailQty(result, q), q);
            && (p == 100.0 <==> result == Pass)
            && (result == Fail ==> p == 85.0)
            && (result == Conditional ==> p > 95.0)
  {
    var q := 100 + i * 20;
    var fail := FailQty(result, q);
    match result
    case Pass =>
      ScaleCompare(q, q, 100);
    case Fail =>
      assert q * 15 == 100 * (15 + 3 * i);
      assert fail == 15 + 3 * i;
      ScaleCompare(q - fail, q, 100);
      ScaleCompare(q - fail, q, 85);
    case Conditional =>
      assert fail * 100 <= q * 3;
      assert fail >= 3;
      ScaleCompare(q - fail, q, 100);
      ScaleCompare(q - fail, q, 95);
  }

  lemma RecordLot(i: nat)
    requires i < |Parts|
    ensures Record(i).inspectQty == 100 + i * 20
    ensures Record(i).passQty == Record(i).inspectQty - FailQty(Record(i).result, Record(i).inspectQty)
  {
  }

  /** The rate reads 100 exactly on Pass records; a failed lot of the mock
      data shows 85 on an amber bar and a conditional one stays above 95 on
      an emerald bar. */
  lemma PassRateByResult(i: nat)
    requires i < |Parts|
    ensures PassRate(Record(i)) == 100.0 <==> Record(i).result == Pass
    ensures Record(i).result == Fail ==> PassRate(Record(i)) == 85.0 && RateColourOf(PassRate(Record(i))) == AmberBar
    ensures Record(i).result == Conditional ==> RateColourOf(PassRate(Record(i))) == EmeraldBar
  {
    var r := Record(i);
    RecordLot(i);
    RateByResult(r.result, i);
  }

  predicate IsPassed(r: QCRecord) {
    r.result == Pass
  }

  predicate IsFailed(r: QCRecord) {
    r.result == Fail
  }

  predicate IsConditional(r: QCRecord) {
    r.result == Conditional
  }

  function ComputeStats(rs: seq<QCRecord>): Stats {
    Stats(|rs|, |Filter(rs, IsPassed)|, |Filter(rs, IsFailed)|, |Filter(rs, IsConditional)|)
  }

  /** Each record has exactly one result, so the three counters add up to the
      total. */
  lemma {:induction false} CountersPartition(rs: seq<QCRecord>)
    ensures var s := ComputeStats(rs); s.passed + s.failed + s.conditional == s.total
  {
    if rs != [] {
      assert forall k :: 0 <= k < |rs[1..]| ==> rs[1..][k] == rs[k + 1];
      CountersPartition(rs[1..]);
    }
  }

  /** The search box: item name, supplier or batch number contains the term. */
  predicate Matches(r: QCRecord, term: string) {
    Contains(r.itemName, term) || Contains(r.supplier, term) || Contains(r.batchNo, term)
  }

  function Filtered(rs: seq<QCRecord>, term: string): seq<QCRecord> {
    Filter(rs, (r: QCRecord) => Matches(r, term))
  }

  /** The filter keeps exactly the matching records, in order; an empty term
      keeps all. */
  lemma FilteredSpec(rs: seq<QCRecord>, term: string)
    ensures IsSubsequence(Filtered(rs, term), rs)
    ensures forall k :: 0 <= k < |Filtered(rs, term)| ==> Matches(Filtered(rs, term)[k], term)
    ensures forall k :: 0 <= k < |rs| && Matches(rs[k], term) ==> rs[k] in Filtered(rs, term)
    ensures term == "" ==> Filtered(rs, term) == rs
  {
    FilterIsSubsequence(rs, (r: QCRecord) => Matches(r, term));
    if term == "" {
      forall k | 0 <= k < |rs| ensures Matches(rs[k], term) {
        ContainsEmpty(rs[k].itemName);
      }
      FilterKeepsAll(rs, (r: QCRecord) => Matches(r, term));
    }
  }
}
