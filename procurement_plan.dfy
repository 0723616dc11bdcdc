/** The procurement-plan view: the seeded plan list, the manual "add item"
    form, the "re-analyze" button that prepends one automatic entry, and the
    per-row delete button. */
module ProcurementPlanView {
  import opened Common

  datatype PlanSource = Auto | Manual

  datatype PlanStatus = Draft | Approved | Ordered

  datatype ProcurementPlan = ProcurementPlan(
    id: string,
    drawingNo: string,
    name: string,
    unit: string,
    quantity: int,
    source: PlanSource,
    status: PlanStatus)

  const InitialItems: seq<string> := [
    "齿轮 A-12", "传动轴 B-05", "密封圈 S-88", "控制板 V-2", "轴承 Z-9",
    "连接销 P-1", "液压泵 H-5", "传感器 C-0", "法兰盘 F-2", "紧固件 K-8",
    "外壳 J-3", "线束 L-9", "散热器 R-4", "阀门 G-6", "弹簧 T-1",
    "主控芯片 IC-10", "铝合金框架 FR-2", "绝缘垫片 IN-01", "微型马达 MT-5", "高压管路 HP-8", "显示模组 LCD-V2"
  ]

  /** `"PLAN-" + n.toString().padStart(3, '0')`. */
  function PlanId(n: nat): string {
    "PLAN-" + Pad3(n)
  }

  /** Seed plan `i` of `generateInitialPlans`. */
  function SeedPlan(i: nat): ProcurementPlan
    requires i < |InitialItems|
  {
    ProcurementPlan(
      PlanId(i + 1),
      "DWG-" + NatToString(300 + i),
      InitialItems[i],
      if i % 5 == 0 then "Set" else "Pcs",
      100 + i * 50,
      if i % 4 == 0 then Auto else Manual,
      if i % 3 == 0 then Approved else Draft)
  }

  function SeedPlans(): (ps: seq<ProcurementPlan>)
  {
    seq(|InitialItems|, i requires 0 <= i < |InitialItems| => SeedPlan(i))
  }

  /** The seed has 21 plans; plan `i` has id PLAN-pad3(i+1), quantity
      100 + 50i, source Auto iff 4 divides i, status Approved iff 3 divides
      i (otherwise Draft, never Ordered), unit Set iff 5 divides i. */
  lemma SeedPlansShape()
    ensures |SeedPlans()| == 21
    ensures forall i :: 0 <= i < 21 ==>
              var p := SeedPlans()[i];
              && p.id == PlanId(i + 1)
              && p.quantity == 100 + 50 * i
              && (p.source == Auto <==> i % 4 == 0)
              && (p.status == Approved <==> i % 3 == 0)
              && (p.status == Draft <==> i % 3 != 0)
              && (p.unit == "Set" <==> i % 5 == 0)
  {
    var ps := SeedPlans();
    assert forall i :: 0 <= i < 21 ==> ps[i].unit == "Set" || ps[i].unit == "Pcs";
  }

  lemma PlanIdInjective(m: nat, n: nat)
    requires m != n
    ensures PlanId(m) != PlanId(n)
  {
    if PlanId(m) == PlanId(n) {
      PrefixedPad3Injective("PLAN-", m, n);
    }
  }

  /** The seeded ids are pairwise distinct. */
  lemma SeedPlanIdsDistinct()
    ensures forall i, j :: 0 <= i < j < |SeedPlans()| ==> SeedPlans()[i].id != SeedPlans()[j].id
  {
    var ps := SeedPlans();
    forall i, j | 0 <= i < j < |ps| ensures ps[i].id != ps[j].id {
      PlanIdInjective(i + 1, j + 1);
    }
  }

  /** The entry `handleManualAdd` prepends: the form's fields, id from the
      list length, source Manual, status Draft. */
  function ManualPlan(ps: seq<ProcurementPlan>, form: ProcurementPlan): ProcurementPlan {
    form.(id := PlanId(|ps| + 1), source := Manual, status := Draft)
  }

  /** The entry the re-analyze timer prepends. `r` stands for
      `Math.floor(Math.random() * 1000)` in its drawing number. */
  function AutoPlan(ps: seq<ProcurementPlan>, r: nat): ProcurementPlan {
    ProcurementPlan(PlanId(|ps| + 1), "DWG-AUTO-" + NatToString(r), "New Auto Part", "Pcs", 100, Auto, Draft)
  }

  /** The delete button: keep every entry whose id differs. */
  function WithoutId(ps: seq<ProcurementPlan>, id: string): seq<ProcurementPlan> {
    Filter(ps, (p: ProcurementPlan) => p.id != id)
  }

  predicate IsAuto(p: ProcurementPlan) {
    p.source == Auto
  }

  /** Deleting removes every entry with that id and nothing else, and the
      survivors keep their relative order. */
  lemma DeleteRemovesExactly(ps: seq<ProcurementPlan>, id: string)
    ensures forall k :: 0 <= k < |WithoutId(ps, id)| ==> WithoutId(ps, id)[k].id != id
    ensures forall k :: 0 <= k < |ps| && ps[k].id != id ==> ps[k] in WithoutId(ps, id)
    ensures forall k :: 0 <= k < |WithoutId(ps, id)| ==> WithoutId(ps, id)[k] in ps
    ensures IsSubsequence(WithoutId(ps, id), ps)
    ensures (forall k :: 0 <= k < |ps| ==> ps[k].id != id) ==> WithoutId(ps, id) == ps
  {
    FilterIsSubsequence(ps, (p: ProcurementPlan) => p.id != id);
    if forall k :: 0 <= k < |ps| ==> ps[k].id != id {
      FilterKeepsAll(ps, (p: ProcurementPlan) => p.id != id);
    }
  }

  /** Re-analyze never looks at what is already there: every firing adds one
      more Auto entry, even when an open Auto entry for the same part exists. */
  lemma AutoGenerateNoDedup(ps: seq<ProcurementPlan>, r: nat)
    ensures |Filter([AutoPlan(ps, r)] + ps, IsAuto)| == |Filter(ps, IsAuto)| + 1
  {
    FilterPrependLength(AutoPlan(ps, r), ps, IsAuto);
  }

  /** New ids come from the list length, so after a delete the next new
      entry can get the id of an entry that is still there. */
  lemma IdReusedAfterDelete(form: ProcurementPlan)
    ensures var ps := WithoutId([SeedPlan(0), SeedPlan(1)], PlanId(1));
            ps == [SeedPlan(1)] && ManualPlan(ps, form).id == ps[0].id
  {
    var two := [SeedPlan(0), SeedPlan(1)];
    assert SeedPlan(0).id != SeedPlan(1).id by {
      if SeedPlan(0).id == SeedPlan(1).id {
        PrefixedPad3Injective("PLAN-", 1, 2);
      }
    }
    assert two[1..] == [SeedPlan(1)];
    assert [SeedPlan(1)][1..] == [];
    assert WithoutId(two, PlanId(1)) == [SeedPlan(1)];
  }

  /** The list as the re-analyze timer writes it one second after the click:
      `setPlans([autoPlan, ...plans])` with `plans` as it was when the button
      was pressed, whatever happened to the list in between. */
  function AutoGenerateAsWritten(atClick: seq<ProcurementPlan>, r: nat): seq<ProcurementPlan> {
    [AutoPlan(atClick, r)] + atClick
  }

  /** Whatever happens to the list while the timer runs is undone by its
      write: an entry added by hand in that second is dropped, whose id the
      new Auto entry then takes, and an entry deleted in that second comes
      back. */
  lemma AutoGenerateAsWrittenDropsUpdates(atClick: seq<ProcurementPlan>, form: ProcurementPlan, r: nat)
    requires forall k :: 0 <= k < |atClick| ==> atClick[k].id != PlanId(|atClick| + 1)
    ensures ManualPlan(atClick, form) !in AutoGenerateAsWritten(atClick, r)
    ensures AutoGenerateAsWritten(atClick, r)[0].id == ManualPlan(atClick, form).id
    ensures forall k :: 0 <= k < |atClick| ==>
              atClick[k] !in WithoutId(atClick, atClick[k].id) && atClick[k] in AutoGenerateAsWritten(atClick, r)
  {
    var added := ManualPlan(atClick, form);
    var written := AutoGenerateAsWritten(atClick, r);
    forall k | 0 <= k < |written| ensures written[k] != added {
      if k > 0 {
        assert written[k] == atClick[k - 1];
      }
    }
    forall k | 0 <= k < |atClick| ensures atClick[k] in written {
      assert written[k + 1] == atClick[k];
    }
  }

  /** The evidently intended update: the whole Auto entry, id included, is
      built inside a functional update from the list as it is when the timer
      fires, `setPlans(prev => [autoPlanFor(prev), ...prev])`. */
  function AutoGenerateIntended(current: seq<ProcurementPlan>, r: nat): seq<ProcurementPlan> {
    [AutoPlan(current, r)] + current
  }

  /** With the intended update, a manual entry added while the timer runs is
      kept behind the new Auto entry, whose id no entry already has (given
      that no entry of the clicked-on list had the id after the manual
      one); an entry deleted while the timer runs stays deleted; and when
      nothing changed since the click it writes what the view writes. */
  lemma AutoGenerateKeepsCurrent(atClick: seq<ProcurementPlan>, form: ProcurementPlan, r: nat, deleted: string)
    requires forall k :: 0 <= k < |atClick| ==> atClick[k].id != PlanId(|atClick| + 2)
    ensures var current := [ManualPlan(atClick, form)] + atClick;
            var written := AutoGenerateIntended(current, r);
            && written[1..] == current
            && ManualPlan(atClick, form) in written
            && forall k :: 0 <= k < |current| ==> current[k].id != written[0].id
    ensures var written := AutoGenerateIntended(WithoutId(atClick, deleted), r);
            forall k :: 1 <= k < |written| ==> written[k].id != deleted
    ensures AutoGenerateIntended(atClick, r) == AutoGenerateAsWritten(atClick, r)
  {
    var current := [ManualPlan(atClick, form)] + atClick;
    var written := AutoGenerateIntended(current, r);
    assert written[1] == ManualPlan(atClick, form);
    PlanIdInjective(|atClick| + 1, |atClick| + 2);
    forall k | 0 <= k < |current| ensures current[k].id != written[0].id {
      if k > 0 {
        assert current[k] == atClick[k - 1];
      }
    }
    var rest := WithoutId(atClick, deleted);
    DeleteRemovesExactly(atClick, deleted);
    var w2 := AutoGenerateIntended(rest, r);
    forall k | 1 <= k < |w2| ensures w2[k].id != deleted {
      assert w2[k] == rest[k - 1];
    }
  }

  /** The `plans` state of the view. */
  class PlanStore {
    var plans: seq<ProcurementPlan>

    constructor ()
      ensures plans == SeedPlans()
    {
      plans := SeedPlans();
    }

    /** `handleManualAdd`: prepend the form's entry as a Manual Draft. */
    method ManualAdd(form: ProcurementPlan)
      modifies this
      ensures plans == [ManualPlan(old(plans), form)] + old(plans)
      ensures plans[0].source == Manual && plans[0].status == Draft && plans[0].id == PlanId(|old(plans)| + 1)
      ensures plans[1..] == old(plans)
    {
      plans := [ManualPlan(plans, form)] + plans;
    }

    /** The re-analyze timer firing, with the intended update: prepend one
        Auto Draft entry of 100 Pcs, numbered from the list as it is now. */
    method AutoGenerate(r: nat)
      modifies this
      ensures plans == AutoGenerateIntended(old(plans), r)
      ensures plans[0].source == Auto && plans[0].status == Draft
      ensures plans[0].quantity == 100 && plans[0].unit == "Pcs"
      ensures plans[1..] == old(plans)
    {
      plans := AutoGenerateIntended(plans, r);
    }

    /** The trash button of a row. */
    method Delete(id: string)
      modifies this
      ensures plans == WithoutId(old(plans), id)
      ensures forall k :: 0 <= k < |plans| ==> plans[k].id != id
    {
      plans := WithoutId(plans, id);
    }
  }
}
