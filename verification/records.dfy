/** The two per-record transformations of the component: the row merge of
    the wire handler (each fetched record spread into a new object whose
    `stageNameOptions` is the one shared options list) and the update
    payload of the save handler (each draft copied into `{ fields }`).
    Field values are left abstract (`V`): neither transformation looks at
    them. */
module Records {

  /** A record as a plain object: field name to field value. */
  type Row<V> = map<string, V>

  /** The property the row merge sets on every record. */
  const StageNameOptionsKey := "stageNameOptions"

  /** `{ ...opp, stageNameOptions: options }`: every field of the record is
      kept, and `stageNameOptions` is added or, if present, overridden. */
  function WithOptions<V>(row: Row<V>, options: V): (merged: Row<V>)
    ensures merged.Keys == row.Keys + {StageNameOptionsKey}
    ensures merged[StageNameOptionsKey] == options
    ensures forall k :: k in row && k != StageNameOptionsKey ==> merged[k] == row[k]
  {
    row[StageNameOptionsKey := options]
  }

  /** The data branch of the wire handler: the fetched records, in order,
      each carrying the shared options list. */
  function MergeOptions<V>(rows: seq<Row<V>>, options: V): (merged: seq<Row<V>>)
    ensures |merged| == |rows|
    ensures forall i :: 0 <= i < |rows| ==>
      && merged[i].Keys == rows[i].Keys + {StageNameOptionsKey}
      && merged[i][StageNameOptionsKey] == options
      && forall k :: k in rows[i] && k != StageNameOptionsKey ==> merged[i][k] == rows[i][k]
  {
    seq(|rows|, i requires 0 <= i < |rows| => WithOptions(rows[i], options))
  }

  /** Every row carries `stageNameOptions`, and all carry the same value. */
  ghost predicate SharesOptions<V>(rows: seq<Row<V>>) {
    && (forall i :: 0 <= i < |rows| ==> StageNameOptionsKey in rows[i])
    && (forall i, j :: 0 <= i < |rows| && 0 <= j < |rows| ==>
          rows[i][StageNameOptionsKey] == rows[j][StageNameOptionsKey])
  }

  lemma MergeSharesOptions<V>(rows: seq<Row<V>>, options: V)
    ensures SharesOptions(MergeOptions(rows, options))
  {
  }

  /** Each record with `stageNameOptions` removed: what the server sent,
      before the merge, for records that did not carry that property. */
  function StripOptions<V>(rows: seq<Row<V>>): (stripped: seq<Row<V>>)
    ensures |stripped| == |rows|
    ensures forall i :: 0 <= i < |rows| ==> stripped[i] == rows[i] - {StageNameOptionsKey}
  {
    seq(|rows|, i requires 0 <= i < |rows| => rows[i] - {StageNameOptionsKey})
  }

  /** The merge loses nothing but the records' own `stageNameOptions`:
      stripping it again gives back the fetched records. */
  lemma MergeThenStrip<V>(rows: seq<Row<V>>, options: V)
    ensures StripOptions(MergeOptions(rows, options)) == StripOptions(rows)
    ensures (forall i :: 0 <= i < |rows| ==> StageNameOptionsKey !in rows[i])
      ==> StripOptions(MergeOptions(rows, options)) == rows
  {
    var merged := MergeOptions(rows, options);
    forall i | 0 <= i < |rows|
      ensures merged[i] - {StageNameOptionsKey} == rows[i] - {StageNameOptionsKey}
    {
      assert (merged[i] - {StageNameOptionsKey}).Keys == (rows[i] - {StageNameOptionsKey}).Keys;
    }
    if forall i :: 0 <= i < |rows| ==> StageNameOptionsKey !in rows[i] {
      forall i | 0 <= i < |rows| ensures rows[i] - {StageNameOptionsKey} == rows[i] {
        assert (rows[i] - {StageNameOptionsKey}).Keys == rows[i].Keys;
      }
    }
  }

  /** A second merge overrides the first: only the latest options remain. */
  lemma MergeOverrides<V>(rows: seq<Row<V>>, first: V, second: V)
    ensures MergeOptions(MergeOptions(rows, first), second) == MergeOptions(rows, second)
  {
    var once, twice := MergeOptions(rows, second), MergeOptions(MergeOptions(rows, first), second);
    forall i | 0 <= i < |rows| ensures twice[i] == once[i] {
      assert twice[i].Keys == once[i].Keys;
    }
  }

  /** One entry of the update payload: `{ fields }`. */
  datatype UpdateRecord<V> = UpdateRecord(fields: Row<V>)

  /** The payload `handleSave` sends: one entry per draft, in draft order,
      holding a copy of the draft's field/value pairs. */
  function BuildPayload<V>(drafts: seq<Row<V>>): (payload: seq<UpdateRecord<V>>)
    ensures |payload| == |drafts|
    ensures forall i :: 0 <= i < |drafts| ==> payload[i].fields == drafts[i]
  {
    seq(|drafts|, i requires 0 <= i < |drafts| => UpdateRecord(drafts[i]))
  }

  /** Reference inverse of `BuildPayload`, not a step of the component:
      the drafts read back out of a payload's `fields`. */
  function DraftsOf<V>(payload: seq<UpdateRecord<V>>): (drafts: seq<Row<V>>)
    ensures |drafts| == |payload|
    ensures forall i :: 0 <= i < |payload| ==> drafts[i] == payload[i].fields
  {
    seq(|payload|, i requires 0 <= i < |payload| => payload[i].fields)
  }

  /** Building the payload loses and reorders nothing, in both directions. */
  lemma PayloadRoundTrip<V>(drafts: seq<Row<V>>, payload: seq<UpdateRecord<V>>)
    ensures DraftsOf(BuildPayload(drafts)) == drafts
    ensures BuildPayload(DraftsOf(payload)) == payload
  {
  }
}
