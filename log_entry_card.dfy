/**
 * The metadata section of a log card: one row per metadata entry, and for
 * the identifier fields a button that promotes the entry to a filter.
 */
module LogEntryCard {
  import opened Wrappers
  import opened LogModel

  /** The metadata fields that can be promoted to a filter. */
  const ClickableMetadataKeys: seq<string> := ["user_id", "trace_id", "source_ip"]

  /**
   * What clicking a metadata entry hands to the filter handler: the bare key
   * and the raw value for a clickable field, nothing for any other field.
   */
  function MetadataClick(key: string, value: Value): (action: Option<(string, Value)>)
    ensures action.Some? <==> key == "user_id" || key == "trace_id" || key == "source_ip"
    ensures action.Some? ==> action.value == (key, value)
  {
    if key in ClickableMetadataKeys then Some((key, value)) else None
  }

  /** One rendered metadata entry and the action of its filter button, if it has one. */
  datatype MetadataRow = MetadataRow(key: string, value: Value, onClick: Option<(string, Value)>)

  /** The rows of the metadata section, one per entry, in entry order. */
  function MetadataRows(entries: seq<(string, Value)>): (rows: seq<MetadataRow>)
    ensures |rows| == |entries|
    ensures forall i :: 0 <= i < |entries| ==>
              rows[i].key == entries[i].0 && rows[i].value == entries[i].1 &&
              rows[i].onClick == MetadataClick(entries[i].0, entries[i].1)
    decreases |entries|
  {
    if entries == [] then []
    else [MetadataRow(entries[0].0, entries[0].1, MetadataClick(entries[0].0, entries[0].1))] + MetadataRows(entries[1..])
  }

  /** The metadata section: present exactly when the record has at least one metadata entry. */
  function MetadataSection(log: Log): (section: Option<seq<MetadataRow>>)
    ensures section.Some? <==> |log.metadata| > 0
    ensures section.Some? ==> section.value == MetadataRows(log.metadata)
  {
    if |log.metadata| > 0 then Some(MetadataRows(log.metadata)) else None
  }

  /**
   * A promoted entry becomes the filter on the bare field name (no
   * `metadata.` prefix) with the stringified value.
   */
  lemma PromotedKeyIsBare(key: string, value: Value)
    requires MetadataClick(key, value).Some?
    ensures var (k, v) := MetadataClick(key, value).value;
      Filter(k, JsString(v)) == Filter(key, JsString(value)) && !("metadata." <= k)
  {
    assert "metadata."[0] == 'm';
    assert key[0] != 'm';
  }
}
