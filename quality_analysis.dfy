/** The quality-analysis view: one performance row per part with its grade
    derived from its score, the total number of major defects, the search
    box and the grade badge. */
module QualityAnalysisView {
  import opened Common

  datatype Grade = A | B | C | D

  /** A row; the floating-point pass rate and ppm are not part of it. */
  datatype QualityPerformance = QualityPerformance(
    id: string,
    itemName: string,
    supplier: string,
    totalBatches: nat,
    score: int,
    majorDefects: nat,
    grade: Grade)

  /** The badge colours of the grade column. */
  datatype Badge = EmeraldBadge | BlueBadge | AmberBadge | RoseBadge

  /** The `let grade` chain: A from 95, B from 85, C from 75, else D. */
  function GradeOf(score: int): Grade {
    if score >= 95 then A
    else if score >= 85 then B
    else if score >= 75 then C
    else D
  }

  /** Better grades rank higher. */
  function Rank(g: Grade): nat {
    match g
    case A => 3
    case B => 2
    case C => 1
    case D => 0
  }

  /** The grade thresholds as half-open score ranges. */
  lemma GradeRanges(score: int)
    ensures GradeOf(score) == A <==> score >= 95
    ensures GradeOf(score) == B <==> 85 <= score < 95
    ensures GradeOf(score) == C <==> 75 <= score < 85
    ensures GradeOf(score) == D <==> score < 75
  {
  }

  /** A higher score never receives a worse grade. */
  lemma GradeMonotone(s1: int, s2: int)
    requires s1 <= s2
    ensures Rank(GradeOf(s1)) <= Rank(GradeOf(s2))
  {
  }

  function BadgeOf(g: Grade): Badge {
    match g
    case A => EmeraldBadge
    case B => BlueBadge
    case C => AmberBadge
    case D => RoseBadge
  }

  /** Each grade has its own badge style. */
  lemma BadgeInjective(g1: Grade, g2: Grade)
    ensures BadgeOf(g1) == BadgeOf(g2) <==> g1 == g2
  {
  }

  const Parts: seq<string> := [
    "齿轮 A-12", "传动轴 B-05", "密封圈 S-88", "控制板 V-2", "轴承 Z-9",
    "连接销 P-1", "液压泵 H-5", "传感器 C-0", "法兰盘 F-2", "紧固件 K-8",
    "外壳 J-3", "线束 L-9", "散热器 R-4", "阀门 G-6", "弹簧 T-1",
    "主控芯片 IC-10", "铝合金框架 FR-2", "绝缘垫片 IN-01", "微型马达 MT-5", "高压管路 HP-8", "显示模组 LCD-V2"
  ]

  function MajorDefectsOf(i: nat): nat {
    if i % 10 == 0 then 1 else 0
  }

  /** Row `i` of the mock data; `score` stands for
      `Math.floor(75 + Math.random() * 25)`. */
  function Row(i: nat, score: int): QualityPerformance
    requires i < |Parts|
  {
    QualityPerformance(
      "QA-" + NatToString(3000 + i),
      Parts[i],
      if i % 2 == 0 then "正奇机械" else "Alpha Elec",
      20 + i,
      score,
      MajorDefectsOf(i),
      GradeOf(score))
  }

  function MockData(scores: seq<int>): (rs: seq<QualityPerformance>)
    requires |scores| == |Parts|
  {
    seq(|Parts|, i requires 0 <= i < |Parts| => Row(i, scores[i]))
  }

  /** Seeded scores lie in [75, 99], so grade D never occurs in the mock data. */
  lemma NoGradeDInMockData(scores: seq<int>)
    requires |scores| == |Parts|
    requires forall i :: 0 <= i < |scores| ==> 75 <= scores[i] <= 99
    ensures forall i :: 0 <= i < |Parts| ==> MockData(scores)[i].grade != D
  {
  }

  function DefectCounts(rs: seq<QualityPerformance>): (xs: seq<int>)
  {
    seq(|rs|, k requires 0 <= k < |rs| => rs[k].majorDefects as int)
  }

  /** `stats.totalDefects`. */
  function TotalDefects(rs: seq<QualityPerformance>): int {
    Sum(DefectCounts(rs))
  }

  /** The defects of the first `n` rows, by index. */
  function DefectsUpTo(n: nat): nat {
    if n == 0 then 0 else DefectsUpTo(n - 1) + MajorDefectsOf(n - 1)
  }

  /** Among the indexes below `n`, one in every ten is a multiple of 10. */
  lemma {:induction false} DefectsUpToClosedForm(n: nat)
    ensures DefectsUpTo(n) == (n + 9) / 10
  {
    if n > 0 {
      DefectsUpToClosedForm(n - 1);
    }
  }

  lemma {:induction false} TotalDefectsPrefix(scores: seq<int>, n: nat)
    requires |scores| == |Parts| && n <= |Parts|
    ensures TotalDefects(MockData(scores)[..n]) == DefectsUpTo(n)
  {
    var rs := MockData(scores);
    if n > 0 {
      TotalDefectsPrefix(scores, n - 1);
      assert DefectCounts(rs[..n]) == DefectCounts(rs[..n - 1]) + [MajorDefectsOf(n - 1)];
      SumAppend(DefectCounts(rs[..n - 1]), [MajorDefectsOf(n - 1)]);
    }
  }

  /** Whatever the scores, the 21 parts carry 3 major defects: those at
      indexes 0, 10 and 20. */
  lemma TotalDefectsIsThree(scores: seq<int>)
    requires |scores| == |Parts|
    ensures TotalDefects(MockData(scores)) == 3
  {
    TotalDefectsPrefix(scores, 21);
    assert MockData(scores)[..21] == MockData(scores);
    DefectsUpToClosedForm(21);
  }

  /** The search box: the item name or the supplier contains the term. */
  predicate Matches(r: QualityPerformance, term: string) {
    Contains(r.itemName, term) || Contains(r.supplier, term)
  }

  function Filtered(rs: seq<QualityPerformance>, term: string): seq<QualityPerformance> {
    Filter(rs, (r: QualityPerformance) => Matches(r, term))
  }

  /** The filter keeps exactly the matching rows, in order; an empty term
      keeps all. */
  lemma FilteredSpec(rs: seq<QualityPerformance>, term: string)
    ensures IsSubsequence(Filtered(rs, term), rs)
    ensures forall k :: 0 <= k < |Filtered(rs, term)| ==> Matches(Filtered(rs, term)[k], term)
    ensures forall k :: 0 <= k < |rs| && Matches(rs[k], term) ==> rs[k] in Filtered(rs, term)
    ensures term == "" ==> Filtered(rs, term) == rs
  {
    FilterIsSubsequence(rs, (r: QualityPerformance) => Matches(r, term));
    if term == "" {
      forall k | 0 <= k < |rs| ensures Matches(rs[k], term) {
        ContainsEmpty(rs[k].itemName);
      }
      FilterKeepsAll(rs, (r: QualityPerformance) => Matches(r, term));
    }
  }
}
