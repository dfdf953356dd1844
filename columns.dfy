/**
 * The parts the report and realtime request bodies share: the positional metric
 * columns (`{"columnId": str(i), "id": ...}` for each metric, in order) and the
 * date-range global filter.
 */
module Columns {
  import opened Decimal

  datatype MetricColumn = MetricColumn(columnId: string, id: string)

  /** `{"type": "dateRange", "dateRange": ...}` */
  datatype GlobalFilter = GlobalFilter(kind: string, dateRange: string)

  function DateRangeFilter(range: string): GlobalFilter { GlobalFilter("dateRange", range) }

  /** One column per metric id, numbered from 0 in input order. */
  function MetricColumns(ids: seq<string>): seq<MetricColumn>
  {
    seq(|ids|, i requires 0 <= i < |ids| => MetricColumn(NatToString(i), ids[i]))
  }

  /** Column i carries the i-th id and a canonical decimal column id that reads back as i;
      hence no two columns share a column id. */
  lemma MetricColumnsPositional(ids: seq<string>)
    ensures var cols := MetricColumns(ids);
      && |cols| == |ids|
      && (forall i :: 0 <= i < |ids| ==>
            cols[i].id == ids[i] && Canonical(cols[i].columnId) && Value(cols[i].columnId) == i)
      && (forall i, j :: 0 <= i < j < |ids| ==> cols[i].columnId != cols[j].columnId)
  {
    var cols := MetricColumns(ids);
    forall i | 0 <= i < |ids|
      ensures Canonical(cols[i].columnId) && Value(cols[i].columnId) == i
    {
      NatToStringRoundTrip(i);
    }
    forall i, j | 0 <= i < j < |ids|
      ensures cols[i].columnId != cols[j].columnId
    {
      NatToStringRoundTrip(i);
      NatToStringRoundTrip(j);
    }
  }
}
