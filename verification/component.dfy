/** The component itself: its tracked fields and the lifecycle, wire and
    save handlers that change them. The remote calls are not made here: the
    update request and the refresh request are appended to logs, and what
    the server answers arrives through `WiredOpportunities`, `SaveSucceeded`
    and `SaveFailed`. Toasts are logged as (title, message, variant). */
module Component {
  import opened Wrappers
  import opened Strings
  import opened Columns
  import opened Records

  datatype Variant = Success | Error

  /** The (title, message, variant) of one `ShowToastEvent`. */
  datatype Toast = Toast(title: string, message: string, variant: Variant)

  /** `result.data`: the fetched records and the shared stage options. */
  datatype WireData<V> = WireData(opportunities: seq<Row<V>>, stageNameOptions: V)

  /** What the wire service delivers: data, an error message, or neither
      (the first call, before the server has answered). */
  datatype WireResult<V> = WireResult(data: Option<WireData<V>>, error: Option<string>)

  const FetchErrorPrefix := "Error fetching opportunities: "
  const UpdateErrorPrefix := "Error updating opportunities: "
  const SaveSuccessToast := Toast("Success", "Opportunities updated", Success)

  /** The error toast of a failed save, carrying the server's message. */
  function UpdateErrorToast(message: string): (t: Toast)
    ensures IsUpdateError(t)
  {
    var t := Toast("Error", UpdateErrorPrefix + message, Error);
    assert t.message[..|UpdateErrorPrefix|] == UpdateErrorPrefix;
    t
  }

  /** An error toast that reports a failed update. */
  predicate IsUpdateError(t: Toast) {
    t.title == "Error" && t.variant == Error && UpdateErrorPrefix <= t.message
  }

  /** The only toasts the component ever shows. */
  predicate IsComponentToast(t: Toast) {
    || t == SaveSuccessToast
    || IsUpdateError(t)
    || (t.title == "Error" && t.variant == Error && FetchErrorPrefix <= t.message)
  }

  /** How a save settles once its update request is sent: the update is
      rejected, or it is accepted and the refresh that follows it is
      accepted or rejected. */
  datatype SaveOutcome =
    | UpdateRejected(message: string)
    | Refreshed
    | RefreshRejected(message: string)

  /** The toasts a settled save shows, in order, with the handlers chained
      as in the component: the `.catch` sits behind the `.then` that returns
      the refresh, so it also catches a rejected refresh, after the success
      toast has already been shown. */
  function SaveToasts(outcome: SaveOutcome): (shown: seq<Toast>)
    ensures SaveSuccessToast in shown <==> !outcome.UpdateRejected?
    ensures (exists t :: t in shown && IsUpdateError(t)) <==> !outcome.Refreshed?
    ensures forall t :: t in shown ==> IsComponentToast(t)
  {
    match outcome
    case UpdateRejected(message) =>
      var shown := [UpdateErrorToast(message)];
      assert shown[0] in shown;
      shown
    case Refreshed => [SaveSuccessToast]
    case RefreshRejected(message) =>
      var shown := [SaveSuccessToast, UpdateErrorToast(message)];
      assert shown[1] in shown && IsUpdateError(shown[1]);
      shown
  }

  /** A save reports one verdict: a single toast, either the success toast
      or an update error. */
  predicate ReportsOneVerdict(shown: seq<Toast>) {
    |shown| == 1 && (shown[0] == SaveSuccessToast || IsUpdateError(shown[0]))
  }

  /** As chained, a rejected refresh after an accepted update reports both
      verdicts: the update succeeded, and then that it failed. */
  lemma RefreshRejectionReportsBoth(message: string)
    ensures var shown := SaveToasts(RefreshRejected(message));
      && !ReportsOneVerdict(shown)
      && shown == [SaveSuccessToast, UpdateErrorToast(message)]
  {
  }

  /** The evidently intended toasts: the update's own outcome, with a failed
      refresh not reported as a failed update. */
  function IntendedSaveToasts(outcome: SaveOutcome): (shown: seq<Toast>)
    ensures !outcome.RefreshRejected? ==> shown == SaveToasts(outcome)
  {
    match outcome
    case UpdateRejected(message) => [UpdateErrorToast(message)]
    case Refreshed => [SaveSuccessToast]
    case RefreshRejected(_) => [SaveSuccessToast]
  }

  /** Under the intended chaining every save reports exactly one verdict,
      and it is success exactly when the update was accepted. */
  lemma IntendedSaveReportsOneVerdict(outcome: SaveOutcome)
    ensures ReportsOneVerdict(IntendedSaveToasts(outcome))
    ensures IntendedSaveToasts(outcome)[0] == SaveSuccessToast <==> !outcome.UpdateRejected?
  {
  }

  class CustomOpportunityRelatedList<V> {
    /** The comma-separated field list set by the parent (`@api`). */
    const customFields: string
    var columns: seq<Column>
    var opportunities: seq<Row<V>>
    var draftValues: seq<Row<V>>
    /** The last result delivered by the wire service, kept for refreshing. */
    var wiredOpportunitiesResult: Option<WireResult<V>>
    /** Every toast shown so far, oldest first. */
    var toasts: seq<Toast>
    /** Every update payload sent to the server, oldest first. */
    var updateRequests: seq<seq<UpdateRecord<V>>>
    /** Every wire result handed to `refreshApex`, oldest first. */
    var refreshRequests: seq<Option<WireResult<V>>>

    /** The columns are either not built yet or built from the field list;
        the displayed records all carry the same stage options; every toast
        is one the component defines. */
    ghost predicate Valid()
      reads this
    {
      && (columns == [] || columns == Columns.InitializeColumns(customFields))
      && SharesOptions(opportunities)
      && draftValues == []
      && forall t :: t in toasts ==> IsComponentToast(t)
    }

    /** A fresh component: every tracked list empty, nothing delivered,
        nothing shown, nothing sent. */
    constructor (customFields: string)
      ensures Valid()
      ensures this.customFields == customFields
      ensures columns == [] && opportunities == [] && draftValues == []
      ensures wiredOpportunitiesResult == None
      ensures toasts == [] && updateRequests == [] && refreshRequests == []
    {
      this.customFields := customFields;
      columns := [];
      opportunities := [];
      draftValues := [];
      wiredOpportunitiesResult := None;
      toasts := [];
      updateRequests := [];
      refreshRequests := [];
    }

    /** `connectedCallback()`: builds the columns, nothing else. */
    method ConnectedCallback()
      requires Valid()
      modifies this`columns
      ensures Valid()
      ensures columns == Columns.InitializeColumns(customFields)
    {
      InitializeColumns();
    }

    /** `initializeColumns()`: one column per comma-separated field. */
    method InitializeColumns()
      requires Valid()
      modifies this`columns
      ensures Valid()
      ensures columns == Columns.InitializeColumns(customFields)
      ensures |columns| == Count(customFields, ',') + 1
    {
      columns := Columns.InitializeColumns(customFields);
    }

    /** `wiredOpportunities(result)`: stores the result; on data, replaces
        the displayed records by the merged ones; otherwise, on an error,
        keeps them and shows one error toast; with neither, changes nothing
        else. */
    method WiredOpportunities(result: WireResult<V>)
      requires Valid()
      modifies this`wiredOpportunitiesResult, this`opportunities, this`toasts
      ensures Valid()
      ensures wiredOpportunitiesResult == Some(result)
      ensures result.data.Some? ==>
        && opportunities == MergeOptions(result.data.value.opportunities, result.data.value.stageNameOptions)
        && toasts == old(toasts)
      ensures result.data.None? && result.error.Some? ==>
        && opportunities == old(opportunities)
        && toasts == old(toasts) + [Toast("Error", FetchErrorPrefix + result.error.value, Error)]
      ensures result.data.None? && result.error.None? ==>
        opportunities == old(opportunities) && toasts == old(toasts)
      ensures columns == old(columns) && draftValues == old(draftValues)
    {
      wiredOpportunitiesResult := Some(result);
      if result.data.Some? {
        var data := result.data.value;
        opportunities := MergeOptions(data.opportunities, data.stageNameOptions);
        MergeSharesOptions(data.opportunities, data.stageNameOptions);
      } else if result.error.Some? {
        ShowToast("Error", FetchErrorPrefix + result.error.value, Error);
      }
    }

    /** `handleSave(event)`: builds the payload from the datatable's drafts
        and sends it; the server's answer arrives later. */
    method HandleSave(drafts: seq<Row<V>>) returns (payload: seq<UpdateRecord<V>>)
      requires Valid()
      modifies this`updateRequests
      ensures Valid()
      ensures payload == BuildPayload(drafts)
      ensures updateRequests == old(updateRequests) + [payload]
    {
      payload := BuildPayload(drafts);
      updateRequests := updateRequests + [payload];
    }

    /** The `.then` continuation of the save, run when the update is
        accepted: a success toast, the drafts cleared, and a refresh of the
        last wire result requested. */
    method SaveSucceeded()
      requires Valid()
      modifies this`toasts, this`draftValues, this`refreshRequests
      ensures Valid()
      ensures toasts == old(toasts) + [SaveSuccessToast]
      ensures draftValues == []
      ensures refreshRequests == old(refreshRequests) + [wiredOpportunitiesResult]
      ensures opportunities == old(opportunities) && columns == old(columns)
    {
      ShowToast("Success", "Opportunities updated", Success);
      draftValues := [];
      refreshRequests := refreshRequests + [wiredOpportunitiesResult];
    }

    /** The `.catch` continuation of the save: one error toast carrying the
        message; drafts and records stay as they are. It runs when the update
        is rejected, and also after `SaveSucceeded` when the refresh that
        continuation returns is rejected (see `SaveSettled`). */
    method SaveFailed(message: string)
      requires Valid()
      modifies this`toasts
      ensures Valid()
      ensures toasts == old(toasts) + [UpdateErrorToast(message)]
      ensures draftValues == old(draftValues) && opportunities == old(opportunities)
    {
      ShowToast("Error", UpdateErrorPrefix + message, Error);
    }

    /** The whole promise chain behind the update request, for each way it
        can settle: a rejected update runs only the `.catch`; an accepted
        update runs the `.then`, and a rejected refresh then runs the
        `.catch` as well. */
    method SaveSettled(outcome: SaveOutcome)
      requires Valid()
      modifies this`toasts, this`draftValues, this`refreshRequests
      ensures Valid()
      ensures toasts == old(toasts) + SaveToasts(outcome)
      ensures draftValues == []
      ensures refreshRequests
        == old(refreshRequests) + (if outcome.UpdateRejected? then [] else [wiredOpportunitiesResult])
      ensures opportunities == old(opportunities) && columns == old(columns)
    {
      match outcome
      case UpdateRejected(message) =>
        SaveFailed(message);
      case Refreshed =>
        SaveSucceeded();
      case RefreshRejected(message) =>
        SaveSucceeded();
        SaveFailed(message);
    }

    /** In every valid state the picklist column's options reference
        resolves in every displayed record, and to the same value in all of
        them. */
    lemma PicklistResolvesInDisplayedRecords()
      requires Valid()
      ensures forall c, r, s ::
        (c in columns && c.columnType == Picklist && r in opportunities && s in opportunities) ==>
          (c.typeAttributes.PicklistAttributes?
           && var key := c.typeAttributes.options.fieldName;
              key in r && key in s && r[key] == s[key])
    {
      forall c | c in columns && c.columnType == Picklist
        ensures c.typeAttributes == StageNameAttributes
      {
        var i :| 0 <= i < |columns| && columns[i] == c;
      }
      forall r, s | r in opportunities && s in opportunities
        ensures StageNameOptionsKey in r && StageNameOptionsKey in s
        ensures r[StageNameOptionsKey] == s[StageNameOptionsKey]
      {
        var j :| 0 <= j < |opportunities| && opportunities[j] == r;
        var k :| 0 <= k < |opportunities| && opportunities[k] == s;
      }
    }

    /** `showToast(title, message, variant)`: appends to the toast log. */
    method ShowToast(title: string, message: string, variant: Variant)
      modifies this`toasts
      ensures toasts == old(toasts) + [Toast(title, message, variant)]
    {
      toasts := toasts + [Toast(title, message, variant)];
    }
  }

  /** The picklist column's forward reference resolves: every merged record
      holds, under the property the `StageName` column names for its
      options, exactly the shared options list. */
  lemma PicklistOptionsResolve<V>(customFields: string, rows: seq<Row<V>>, options: V)
    ensures forall c, r ::
      (c in Columns.InitializeColumns(customFields) && c.columnType == Picklist
       && r in MergeOptions(rows, options)) ==>
        (c.typeAttributes.PicklistAttributes? && c.typeAttributes.options.fieldName in r
         && r[c.typeAttributes.options.fieldName] == options)
  {
  }
}
