/**
 * `VehicleDetailViewModel`: loads one vehicle's detail with its relations,
 * shows it, and then polls it, keeping the last good detail on screen.
 */
module DetailViewModel {
  import opened Wrappers
  import opened CoreDomain
  import opened VehicleModel
  import opened UiMappers

  /** The pause between two polls; the waiting itself is not modelled. */
  const POLLING_INTERVAL_MS := 5000

  /**
   * The screen state for one answer of the use case: the mapped detail on
   * success; on error the same message, code and network flag with any
   * partial detail mapped; `UiEmpty` for an empty result. Never `Loading`.
   */
  function LoadedState(result: DomainResult<VehicleDetailWithRelations>, formatDate: string -> string): (s: UiState<VehicleDetailUiModel>)
    ensures !s.Loading?
    ensures s.UiSuccess? <==> result.Success?
    ensures s.UiEmpty? <==> result.Empty?
    ensures result.Success? ==> s.data == DetailToUiModel(result.data, formatDate)
    ensures result.Error? ==> s.UiError? && s.message == result.message && s.code == result.code
                              && s.isNetworkError == result.isNetworkError
                              && s.errorData.Some? == result.errorData.Some?
                              && (result.errorData.Some? ==> s.errorData.value == DetailToUiModel(result.errorData.value, formatDate))
  {
    match result
    case Success(d) => UiSuccess(DetailToUiModel(d, formatDate))
    case Error(message, code, errorData, _, isNetworkError) =>
      var data := if errorData.Some? then Some(DetailToUiModel(errorData.value, formatDate)) else None;
      UiError(message, code, data, isNetworkError)
    case Empty => UiEmpty
  }

  /** The detail of the last successful answer among `results`, if any. */
  function LastSuccess(results: seq<DomainResult<VehicleDetailWithRelations>>): Option<VehicleDetailWithRelations> {
    if |results| == 0 then None
    else if results[|results| - 1].Success? then Some(results[|results| - 1].data)
    else LastSuccess(results[..|results| - 1])
  }

  /**
   * `LastSuccess` is absent exactly when no answer succeeded; otherwise it is
   * the detail of a successful answer after which none succeeded.
   */
  lemma {:induction false} LastSuccessSpec(results: seq<DomainResult<VehicleDetailWithRelations>>)
    ensures LastSuccess(results).None? <==> forall i :: 0 <= i < |results| ==> !results[i].Success?
    ensures LastSuccess(results).Some? ==>
              exists i :: 0 <= i < |results| && results[i] == Success(LastSuccess(results).value)
                          && forall j :: i < j < |results| ==> !results[j].Success?
  {
    LastSuccessNone(results);
    if LastSuccess(results).Some? {
      var i := LastSuccessIndex(results);
    }
  }

  lemma {:induction false} LastSuccessNone(results: seq<DomainResult<VehicleDetailWithRelations>>)
    ensures LastSuccess(results).None? <==> forall i :: 0 <= i < |results| ==> !results[i].Success?
  {
    if |results| > 0 && !results[|results| - 1].Success? {
      var prefix := results[..|results| - 1];
      LastSuccessNone(prefix);
      assert forall i :: 0 <= i < |prefix| ==> prefix[i] == results[i];
    }
  }

  lemma {:induction false} LastSuccessIndex(results: seq<DomainResult<VehicleDetailWithRelations>>) returns (i: int)
    requires LastSuccess(results).Some?
    ensures 0 <= i < |results| && results[i] == Success(LastSuccess(results).value)
    ensures forall j :: i < j < |results| ==> !results[j].Success?
  {
    var n := |results| - 1;
    if results[n].Success? {
      i := n;
    } else {
      var prefix := results[..n];
      i := LastSuccessIndex(prefix);
      assert results[i] == prefix[i];
    }
  }

  class VehicleDetailViewModelImpl {
    const vehicleId: string
    /** The date formatter the labels are built with. */
    const formatDate: string -> string
    var uiState: UiState<VehicleDetailUiModel>
    var currentDetail: Option<VehicleDetailWithRelations>
    /** Whether the polling job is running. */
    var polling: bool

    /** A new view model: loading, not polling, no detail yet (`init` starts a load). */
    constructor(vehicleId: string, formatDate: string -> string)
      ensures this.vehicleId == vehicleId && this.formatDate == formatDate
      ensures uiState == Loading && currentDetail == None && !polling
    {
      this.vehicleId := vehicleId;
      this.formatDate := formatDate;
      uiState := Loading;
      currentDetail := None;
      polling := false;
    }

    /** `retry` / the start of `loadDetail`: cancels polling and shows loading. */
    method Retry()
      modifies this
      ensures uiState == Loading && !polling && currentDetail == old(currentDetail)
    {
      polling := false;
      uiState := Loading;
    }

    /**
     * The end of `loadDetail`: the use case is called for this view model's
     * vehicle and its answer is shown mapped; only a success records the
     * detail and starts polling.
     */
    method CompleteLoad(getVehicleDetailWithRelations: string -> DomainResult<VehicleDetailWithRelations>)
      returns (result: DomainResult<VehicleDetailWithRelations>)
      modifies this
      ensures result == getVehicleDetailWithRelations(vehicleId)
      ensures uiState == LoadedState(result, formatDate)
      ensures polling == (old(polling) || result.Success?)
      ensures currentDetail == if result.Success? then Some(result.data) else old(currentDetail)
    {
      result := getVehicleDetailWithRelations(vehicleId);
      uiState := LoadedState(result, formatDate);
      if result.Success? {
        currentDetail := Some(result.data);
        polling := true;
      }
    }

    /**
     * The polling loop over the answers it receives in turn: each success
     * replaces the detail and the shown state, everything else is ignored;
     * without a running job nothing changes.
     */
    method Poll(results: seq<DomainResult<VehicleDetailWithRelations>>)
      modifies this
      ensures polling == old(polling)
      ensures !old(polling) || LastSuccess(results).None? ==>
                uiState == old(uiState) && currentDetail == old(currentDetail)
      ensures old(polling) && LastSuccess(results).Some? ==>
                currentDetail == LastSuccess(results)
                && uiState == UiSuccess(DetailToUiModel(LastSuccess(results).value, formatDate))
      ensures old(uiState).UiSuccess? ==> uiState.UiSuccess?
    {
      if !polling {
        return;
      }
      var k := 0;
      while k < |results|
        invariant 0 <= k <= |results|
        invariant polling == old(polling)
        invariant LastSuccess(results[..k]).None? ==> uiState == old(uiState) && currentDetail == old(currentDetail)
        invariant LastSuccess(results[..k]).Some? ==>
                    currentDetail == LastSuccess(results[..k])
                    && uiState == UiSuccess(DetailToUiModel(LastSuccess(results[..k]).value, formatDate))
      {
        assert results[..k + 1][..k] == results[..k] && results[..k + 1][k] == results[k];
        assert LastSuccess(results[..k + 1])
            == if results[k].Success? then Some(results[k].data) else LastSuccess(results[..k]);
        if results[k].Success? {
          currentDetail := Some(results[k].data);
          uiState := UiSuccess(DetailToUiModel(results[k].data, formatDate));
        }
        k := k + 1;
      }
      assert results[..|results|] == results;
    }
  }
}
