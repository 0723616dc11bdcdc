/** The stock-quota view: each part's current stock against its low and high
    quotas, the low-stock and high-stock counters, the seed table and the
    "new quota" form that appends to the list. */
module StockQuotaView {
  import opened Common

  /** A row of the table. The reserve quota and the current stock are
      `None` on a row added through the form, which has no input for them. */
  datatype StockQuota = StockQuota(
    id: string,
    partName: string,
    drawingNo: string,
    reserveQuota: Option<int>,
    highQuota: int,
    lowQuota: int,
    currentStock: Option<int>)

  /** The four inputs of the "new quota" form. */
  datatype QuotaForm = QuotaForm(partName: string, drawingNo: string, lowQuota: int, highQuota: int)

  /** The status badge of a row. */
  datatype StockLabel = Short | Excess | Good

  /** The text colour of the current-stock cell. */
  datatype StockColour = Rose | Amber | Emerald

  /** `q.currentStock < q.lowQuota`; a missing stock compares false. */
  predicate IsLow(q: StockQuota) {
    q.currentStock.Some? && q.currentStock.value < q.lowQuota
  }

  /** `q.currentStock > q.highQuota`; a missing stock compares false. */
  predicate IsHigh(q: StockQuota) {
    q.currentStock.Some? && q.currentStock.value > q.highQuota
  }

  /** The badge: Short is tested first, then Excess. */
  function Label(q: StockQuota): StockLabel {
    if IsLow(q) then Short
    else if IsHigh(q) then Excess
    else Good
  }

  /** The colour of the current-stock cell, written separately in the view. */
  function Colour(q: StockQuota): StockColour {
    if IsLow(q) then Rose
    else if IsHigh(q) then Amber
    else Emerald
  }

  /** The colour that goes with each badge. */
  function LabelColour(l: StockLabel): StockColour {
    match l
    case Short => Rose
    case Excess => Amber
    case Good => Emerald
  }

  predicate IsShort(q: StockQuota) {
    Label(q) == Short
  }

  predicate IsExcess(q: StockQuota) {
    Label(q) == Excess
  }

  /** The "Low Stock" counter. */
  function LowCount(qs: seq<StockQuota>): nat {
    |Filter(qs, IsLow)|
  }

  /** The "High Stock" counter. */
  function HighCount(qs: seq<StockQuota>): nat {
    |Filter(qs, IsHigh)|
  }

  /** Each quota gets exactly one badge, decided by the two strict comparisons
      in order; a row without a stock fails both and is Good. */
  lemma LabelCases(q: StockQuota)
    ensures Label(q) == Short <==> q.currentStock.Some? && q.currentStock.value < q.lowQuota
    ensures Label(q) == Excess <==>
              q.currentStock.Some? && q.lowQuota <= q.currentStock.value && q.currentStock.value > q.highQuota
    ensures Label(q) == Good <==>
              q.currentStock.None? || q.lowQuota <= q.currentStock.value <= q.highQuota
  {
  }

  /** Stock exactly at either quota is Good, because both comparisons are
      strict. */
  lemma BoundariesAreGood(q: StockQuota)
    requires q.lowQuota <= q.highQuota
    requires q.currentStock == Some(q.lowQuota) || q.currentStock == Some(q.highQuota)
    ensures Label(q) == Good
  {
  }

  /** The cell colour and the badge always agree. */
  lemma ColourMatchesLabel(q: StockQuota)
    ensures Colour(q) == LabelColour(Label(q))
  {
  }

  /** The low counter counts exactly the rows badged Short; the high counter
      counts at least the rows badged Excess, and exactly those when no quota
      has its low quota above its high quota. */
  lemma {:induction false} CountersAgainstLabels(qs: seq<StockQuota>)
    ensures LowCount(qs) == |Filter(qs, IsShort)|
    ensures |Filter(qs, IsExcess)| <= HighCount(qs)
    ensures (forall i :: 0 <= i < |qs| ==> qs[i].lowQuota <= qs[i].highQuota) ==>
              HighCount(qs) == |Filter(qs, IsExcess)|
  {
    if qs != [] {
      CountersAgainstLabels(qs[1..]);
      assert forall i :: 0 <= i < |qs[1..]| ==> qs[1..][i] == qs[i + 1];
    }
  }

  /** With consistent quotas no row is both low and high, so the two counters
      add up to at most the number of SKUs. */
  lemma {:induction false} CountersBounded(qs: seq<StockQuota>)
    requires forall i :: 0 <= i < |qs| ==> qs[i].lowQuota <= qs[i].highQuota
    ensures LowCount(qs) + HighCount(qs) <= |qs|
  {
    if qs != [] {
      assert forall i :: 0 <= i < |qs[1..]| ==> qs[1..][i] == qs[i + 1];
      CountersBounded(qs[1..]);
    }
  }

  /** Nothing stops a quota from having its low quota above its high quota;
      such a row is counted by both counters, yet badged Short. */
  lemma InvertedQuotaCountedTwice()
    ensures var q := StockQuota("Q001", "", "", Some(0), 100, 200, Some(150));
            LowCount([q]) == 1 && HighCount([q]) == 1 && Label(q) == Short &&
            LowCount([q]) + HighCount([q]) > |[q]|
  {
    var q := StockQuota("Q001", "", "", Some(0), 100, 200, Some(150));
    assert [q][1..] == [];
  }

  const PartNames: seq<string> := [
    "齿轮 A-12", "传动轴 B-05", "密封圈 S-88", "控制板 V-2", "轴承 Z-9",
    "连接销 P-1", "液压泵 H-5", "传感器 C-0", "法兰盘 F-2", "紧固件 K-8",
    "外壳 J-3", "线束 L-9", "散热器 R-4", "阀门 G-6", "弹簧 T-1"
  ]

  /** Seed row `i`; `stock` stands for `Math.floor(Math.random() * 1500)`. */
  function SeedQuota(i: nat, stock: int): StockQuota
    requires i < |PartNames|
  {
    StockQuota(
      "Q" + Pad3(i + 1),
      PartNames[i],
      "DWG-" + NatToString(100 + i),
      Some(500 + i * 100),
      1000 + i * 200,
      100 + i * 20,
      Some(stock))
  }

  /** The seed table: one row per part name. */
  function SeedQuotas(stocks: seq<int>): (qs: seq<StockQuota>)
    requires |stocks| == |PartNames|
  {
    seq(|PartNames|, i requires 0 <= i < |PartNames| => SeedQuota(i, stocks[i]))
  }

  /** Every seeded quota has its low quota below the reserve quota, and that
      below the high quota; stock is in [0, 1500); ids are Q001..Q015,
      pairwise distinct. */
  lemma SeedQuotasWellFormed(stocks: seq<int>)
    requires |stocks| == |PartNames|
    requires forall i :: 0 <= i < |stocks| ==> 0 <= stocks[i] < 1500
    ensures forall i :: 0 <= i < 15 ==>
              var q := SeedQuotas(stocks)[i];
              q.reserveQuota.Some? && q.lowQuota < q.reserveQuota.value < q.highQuota
    ensures forall i :: 0 <= i < 15 ==>
              var q := SeedQuotas(stocks)[i];
              q.currentStock.Some? && 0 <= q.currentStock.value < 1500
    ensures forall i, j :: 0 <= i < j < 15 ==> SeedQuotas(stocks)[i].id != SeedQuotas(stocks)[j].id
  {
    var qs := SeedQuotas(stocks);
    forall i, j | 0 <= i < j < 15 ensures qs[i].id != qs[j].id {
      if qs[i].id == qs[j].id {
        PrefixedPad3Injective("Q", i + 1, j + 1);
      }
    }
  }

  /** The quota that `handleAdd` appends: the form's fields with the id taken
      from the list length, and no reserve quota or stock, since the form asks
      for neither. No range check is made on the quotas. */
  function NewQuota(qs: seq<StockQuota>, form: QuotaForm): StockQuota {
    StockQuota("Q" + Pad3(|qs| + 1), form.partName, form.drawingNo, None, form.highQuota, form.lowQuota, None)
  }

  /** A quota added through the form has no stock, so it is badged Good
      whatever its quotas, and neither counter ever counts it. */
  lemma AddedQuotaCounters(qs: seq<StockQuota>, form: QuotaForm)
    ensures Label(NewQuota(qs, form)) == Good
    ensures LowCount(qs + [NewQuota(qs, form)]) == LowCount(qs)
    ensures HighCount(qs + [NewQuota(qs, form)]) == HighCount(qs)
  {
    var q := NewQuota(qs, form);
    FilterAppend(qs, [q], IsLow);
    FilterAppend(qs, [q], IsHigh);
    assert [q][1..] == [];
  }

  /** The `quotas` state of the view. */
  class QuotaStore {
    var quotas: seq<StockQuota>

    constructor (stocks: seq<int>)
      requires |stocks| == |PartNames|
      ensures quotas == SeedQuotas(stocks)
    {
      quotas := SeedQuotas(stocks);
    }

    /** `handleAdd`: append one quota built from the form, with id
        `"Q" + pad3(length + 1)`. */
    method Add(form: QuotaForm)
      modifies this
      ensures quotas == old(quotas) + [NewQuota(old(quotas), form)]
      ensures |quotas| == |old(quotas)| + 1 && quotas[..|old(quotas)|] == old(quotas)
      ensures quotas[|quotas| - 1].id == "Q" + Pad3(|old(quotas)| + 1)
    {
      quotas := quotas + [NewQuota(quotas, form)];
    }
  }
}
