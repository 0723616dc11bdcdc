/** The purchaser archive: purchaser cards with their evaluations, the "new
    purchaser" form, delete, the "add evaluation" form that recomputes a
    purchaser's rating, and the collapsed list of evaluations on each card. */
module PurchaserArchiveView {
  import opened Common

  /** One evaluation; `score` is `None` when the form left it empty. */
  datatype PurchaserEval = PurchaserEval(
    id: string,
    param: string,
    score: Option<int>,
    comment: string,
    date: string)

  /** `rating` is the exact value the view rounds to one decimal. */
  datatype Purchaser = Purchaser(
    id: string,
    name: string,
    phone: string,
    address: string,
    rating: real,
    evaluations: seq<PurchaserEval>)

  const FixedNames: seq<string> := ["王旭", "王晓明", "李红", "张强", "刘伟", "陈静", "杨波", "周平", "赵敏", "孙悦", "吴健"]

  /** Seed purchaser `i`; `r` stands for its `Math.random()` rating offset and
      `month`, `day` for the random date of its one evaluation. */
  function SeedPurchaser(i: nat, r: real, month: nat, day: nat): Purchaser
    requires i < |FixedNames|
  {
    var date := "2025-" + PadStart(NatToString(month), 2, '0') + "-" + PadStart(NatToString(day), 2, '0');
    Purchaser(
      "P" + Pad3(i + 1),
      FixedNames[i],
      "13" + NatToString(i % 9) + "-9999-" + NatToString(1000 + i),
      "总部大楼" + NatToString(i + 1) + "层采购部",
      4.0 + r,
      [PurchaserEval("E0" + NatToString(i) + "1", "Business Proficiency", Some(85 + i % 15), "Steady performance", date)])
  }

  function SeedPurchasers(rs: seq<real>, months: seq<nat>, days: seq<nat>): (ps: seq<Purchaser>)
    requires |rs| == |FixedNames| && |months| == |FixedNames| && |days| == |FixedNames|
  {
    seq(|FixedNames|, i requires 0 <= i < |FixedNames| => SeedPurchaser(i, rs[i], months[i], days[i]))
  }

  /** The seed has 11 purchasers with distinct ids P001..P011, each with
      exactly one evaluation scoring 85 + (i % 15), and ratings in [4, 5). */
  lemma SeedPurchasersShape(rs: seq<real>, months: seq<nat>, days: seq<nat>)
    requires |rs| == |FixedNames| && |months| == |FixedNames| && |days| == |FixedNames|
    requires forall i :: 0 <= i < |rs| ==> 0.0 <= rs[i] < 1.0
    ensures var ps := SeedPurchasers(rs, months, days);
            && |ps| == 11
            && (forall i :: 0 <= i < 11 ==> ps[i].id == "P" + Pad3(i + 1))
            && (forall i :: 0 <= i < 11 ==> |ps[i].evaluations| == 1 && ps[i].evaluations[0].score == Some(85 + i % 15))
            && (forall i :: 0 <= i < 11 ==> 4.0 <= ps[i].rating < 5.0)
            && (forall i, j :: 0 <= i < j < 11 ==> ps[i].id != ps[j].id)
  {
    var ps := SeedPurchasers(rs, months, days);
    forall i, j | 0 <= i < j < 11 ensures ps[i].id != ps[j].id {
      if ps[i].id == ps[j].id {
        PrefixedPad3Injective("P", i + 1, j + 1);
      }
    }
  }

  /** `curr.score || 0`: a missing score counts as 0. */
  function ScoreOrZero(e: PurchaserEval): int {
    match e.score
    case Some(v) => v
    case None => 0
  }

  function Scores(evals: seq<PurchaserEval>): (xs: seq<int>)
  {
    seq(|evals|, k requires 0 <= k < |evals| => ScoreOrZero(evals[k]))
  }

  /** The rating before rounding: the mean score divided by 20. */
  function RatingOf(evals: seq<PurchaserEval>): real
    requires |evals| > 0
  {
    (Sum(Scores(evals)) as real) / (|evals| as real) / 20.0
  }

  /** `handleAddEval` on the selected purchaser: one evaluation appended, with
      id `"E" + pad3(previous count + 1)` and today's date, and the rating
      recomputed over all evaluations. */
  function WithEval(p: Purchaser, form: PurchaserEval, today: string): Purchaser {
    var ev := form.(id := "E" + Pad3(|p.evaluations| + 1), date := today);
    var evals := p.evaluations + [ev];
    p.(evaluations := evals, rating := RatingOf(evals))
  }

  /** The `map` over all purchasers: those with the selected id are updated,
      all others kept. */
  function EvalAdded(ps: seq<Purchaser>, sel: string, form: PurchaserEval, today: string): (r: seq<Purchaser>)
    ensures |r| == |ps|
    ensures forall k :: 0 <= k < |ps| ==> r[k] == if ps[k].id == sel then WithEval(ps[k], form, today) else ps[k]
  {
    seq(|ps|, k requires 0 <= k < |ps| => if ps[k].id == sel then WithEval(ps[k], form, today) else ps[k])
  }

  /** The selected purchaser gets exactly one new evaluation at the end, the
      earlier ones unchanged, and its other fields kept; every other
      purchaser is untouched. */
  lemma EvalAddedChangesOnlySelected(ps: seq<Purchaser>, sel: string, form: PurchaserEval, today: string)
    ensures var r := EvalAdded(ps, sel, form, today);
            forall k :: 0 <= k < |ps| ==>
              if ps[k].id == sel then
                && |r[k].evaluations| == |ps[k].evaluations| + 1
                && r[k].evaluations[..|ps[k].evaluations|] == ps[k].evaluations
                && r[k].evaluations[|ps[k].evaluations|].id == "E" + Pad3(|ps[k].evaluations| + 1)
                && r[k].evaluations[|ps[k].evaluations|].score == form.score
                && r[k].(evaluations := ps[k].evaluations, rating := ps[k].rating) == ps[k]
              else r[k] == ps[k]
  {
  }

  /** The new rating is the mean of all scores, the new one included, over
      20: the old score total plus the new score, divided by the new count. */
  lemma RatingFromMean(p: Purchaser, form: PurchaserEval, today: string)
    ensures WithEval(p, form, today).rating ==
              ((Sum(Scores(p.evaluations)) + ScoreOrZero(form)) as real) / ((|p.evaluations| + 1) as real) / 20.0
  {
    var ev := form.(id := "E" + Pad3(|p.evaluations| + 1), date := today);
    var evals := p.evaluations + [ev];
    assert Scores(evals) == Scores(p.evaluations) + [ScoreOrZero(form)];
    SumAppend(Scores(p.evaluations), [ScoreOrZero(form)]);
  }

  /** When every present score is on the 0..100 scale of the form, the
      rating is on the 0..5 scale of the stars. */
  lemma RatingInRange(evals: seq<PurchaserEval>)
    requires |evals| > 0
    requires forall k :: 0 <= k < |evals| ==> 0 <= ScoreOrZero(evals[k]) <= 100
    ensures 0.0 <= RatingOf(evals) <= 5.0
  {
    var n := |evals|;
    var s := Sum(Scores(evals));
    SumBounds(Scores(evals), 0, 100);
    assert 0 <= s <= n * 100;
    var m := (s as real) / (n as real);
    assert m * (n as real) == s as real;
    assert 0.0 <= m;
    assert (m - 100.0) * (n as real) <= 0.0;
  }

  function Min(a: nat, b: nat): nat {
    if a <= b then a else b
  }

  /** `evaluations.slice(0, expanded ? undefined : 2)`. */
  function VisibleEvals(evals: seq<PurchaserEval>, expanded: bool): seq<PurchaserEval> {
    if expanded then evals else evals[..Min(2, |evals|)]
  }

  /** The "More"/"Less" toggle. */
  predicate ShowsToggle(evals: seq<PurchaserEval>) {
    |evals| > 2
  }

  /** Expanded shows every evaluation; collapsed shows the first min(2, n)
      in order; and the toggle is offered exactly when collapsing hides
      something. */
  lemma VisibleEvalsSpec(evals: seq<PurchaserEval>, expanded: bool)
    ensures expanded ==> VisibleEvals(evals, expanded) == evals
    ensures !expanded ==> |VisibleEvals(evals, expanded)| == Min(2, |evals|)
    ensures VisibleEvals(evals, expanded) <= evals
    ensures ShowsToggle(evals) <==> |VisibleEvals(evals, false)| < |evals|
  {
  }

  /** The purchaser `handleAdd` appends: the form's fields, id from the list
      length, rating 5.0, no evaluations. */
  function NewPurchaser(ps: seq<Purchaser>, form: Purchaser): Purchaser {
    form.(id := "P" + Pad3(|ps| + 1), rating := 5.0, evaluations := [])
  }

  function WithoutId(ps: seq<Purchaser>, id: string): seq<Purchaser> {
    Filter(ps, (p: Purchaser) => p.id != id)
  }

  /** Deleting keeps exactly the purchasers with another id, in order. */
  lemma DeleteRemovesExactly(ps: seq<Purchaser>, id: string)
    ensures forall k :: 0 <= k < |WithoutId(ps, id)| ==> WithoutId(ps, id)[k].id != id
    ensures forall k :: 0 <= k < |ps| && ps[k].id != id ==> ps[k] in WithoutId(ps, id)
    ensures IsSubsequence(WithoutId(ps, id), ps)
  {
    FilterIsSubsequence(ps, (p: Purchaser) => p.id != id);
  }

  /** The `purchasers` state of the view. */
  class PurchaserStore {
    var purchasers: seq<Purchaser>

    constructor (rs: seq<real>, months: seq<nat>, days: seq<nat>)
      requires |rs| == |FixedNames| && |months| == |FixedNames| && |days| == |FixedNames|
      ensures purchasers == SeedPurchasers(rs, months, days)
    {
      purchasers := SeedPurchasers(rs, months, days);
    }

    /** `handleAdd`. */
    method Add(form: Purchaser)
      modifies this
      ensures purchasers == old(purchasers) + [NewPurchaser(old(purchasers), form)]
      ensures purchasers[|old(purchasers)|].evaluations == [] && purchasers[|old(purchasers)|].rating == 5.0
    {
      purchasers := purchasers + [NewPurchaser(purchasers, form)];
    }

    /** `handleDeletePurchaser`. */
    method Delete(id: string)
      modifies this
      ensures purchasers == WithoutId(old(purchasers), id)
    {
      purchasers := WithoutId(purchasers, id);
    }

    /** `handleAddEval`: nothing happens while no purchaser is selected (the
        id is absent or the empty string); otherwise the selected purchaser
        gets the evaluation. */
    method AddEval(selected: Option<string>, form: PurchaserEval, today: string)
      modifies this
      ensures selected == None || selected == Some("") ==> purchasers == old(purchasers)
      ensures selected.Some? && selected.value != "" ==>
                purchasers == EvalAdded(old(purchasers), selected.value, form, today)
    {
      if selected.Some? && selected.value != "" {
        purchasers := EvalAdded(purchasers, selected.value, form, today);
      }
    }
  }
}
