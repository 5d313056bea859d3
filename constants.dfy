/** The two static lookup tables of the shop: unit price per kilogram and
    turnaround in hours, each total over the service variants. */
module Constants {
  import opened Types

  /** Unit price in rupiah per kilogram. */
  function ServicePrice(st: ServiceType): (p: nat)
    ensures p > 0
  {
    match st
    case WashFold => 7000
    case WashIron => 10000
    case IronOnly => 6000
    case DryClean => 25000
  }

  /** Turnaround in hours. */
  function EstimatedHours(st: ServiceType): (h: nat)
    ensures h > 0
  {
    match st
    case WashFold => 24
    case WashIron => 48
    case IronOnly => 24
    case DryClean => 72
  }

  /** The table entries, as the shop publishes them. */
  lemma PriceTable()
    ensures ServicePrice(WashFold) == 7000 && ServicePrice(WashIron) == 10000
    ensures ServicePrice(IronOnly) == 6000 && ServicePrice(DryClean) == 25000
    ensures EstimatedHours(WashFold) == 24 && EstimatedHours(WashIron) == 48
    ensures EstimatedHours(IronOnly) == 24 && EstimatedHours(DryClean) == 72
  {
  }

  /** Dry cleaning is strictly the most expensive and the slowest service. */
  lemma DryCleanIsDearestAndSlowest(st: ServiceType)
    requires st != DryClean
    ensures ServicePrice(st) < ServicePrice(DryClean)
    ensures EstimatedHours(st) < EstimatedHours(DryClean)
  {
  }
}
