/** The plan-tracking view: a fixed table of parts in delivery, each flagged
    "Over Capacity!" when its stock plus the quantity on order would pass its
    high quota. */
module PlanTrackingView {

  datatype TrackingRow = TrackingRow(
    id: string,
    dwg: string,
    name: string,
    supplier: string,
    currentStock: int,
    supplyQty: int,
    highQuota: int,
    arrivalQty: int,
    status: string,
    quality: string)

  /** What the alert column shows. */
  datatype AlertCell = OverCapacityBadge | NormalText

  /** `isOverLimit`: stock plus supply strictly above the high quota. Unlike
      the stock-quota view, the quantity still to be supplied is counted. */
  predicate IsOverLimit(row: TrackingRow) {
    row.currentStock + row.supplyQty > row.highQuota
  }

  function AlertFor(row: TrackingRow): AlertCell {
    if IsOverLimit(row) then OverCapacityBadge else NormalText
  }

  /** The flag is the strict comparison: reaching the high quota exactly is
      not over limit, one unit more is. */
  lemma OverLimitBoundary(row: TrackingRow)
    ensures row.currentStock + row.supplyQty == row.highQuota ==> !IsOverLimit(row)
    ensures row.currentStock + row.supplyQty == row.highQuota + 1 ==> IsOverLimit(row)
    ensures IsOverLimit(row) <==> row.currentStock + row.supplyQty > row.highQuota
  {
  }

  /** The quantity already arrived plays no part in the flag. */
  lemma ArrivalIrrelevant(row: TrackingRow, arrival: int)
    ensures IsOverLimit(row.(arrivalQty := arrival)) == IsOverLimit(row)
  {
  }

  /** More stock or more supply never clears the flag; a higher quota never
      sets it. */
  lemma OverLimitMonotone(row: TrackingRow, stock: int, supply: int, high: int)
    requires stock >= row.currentStock && supply >= row.supplyQty && high <= row.highQuota
    ensures IsOverLimit(row) ==> IsOverLimit(row.(currentStock := stock, supplyQty := supply, highQuota := high))
    ensures !IsOverLimit(row.(currentStock := stock, supplyQty := supply, highQuota := high)) ==> !IsOverLimit(row)
  {
  }

  /** The badge is shown exactly on the rows over limit; every other row
      reads "Normal". */
  lemma AlertIffOverLimit(row: TrackingRow)
    ensures AlertFor(row) == OverCapacityBadge <==> IsOverLimit(row)
    ensures AlertFor(row) == NormalText <==> !IsOverLimit(row)
  {
  }

  const TrackingData: seq<TrackingRow> := [
    TrackingRow("TRK001", "DWG-992", "齿轮 A-12", "Zhengqi Mech", 85, 1000, 1000, 0, "In Transit", "Pending"),
    TrackingRow("TRK002", "DWG-102", "传动轴 B-05", "Alpha Electron", 380, 100, 400, 50, "Partially Received", "Qualified")
  ]

  /** Both fixed rows are over limit (85 + 1000 > 1000 and 380 + 100 > 400),
      so both show the badge. */
  lemma FixedRowsOverLimit()
    ensures |TrackingData| == 2
    ensures forall i :: 0 <= i < |TrackingData| ==> AlertFor(TrackingData[i]) == OverCapacityBadge
  {
  }
}
