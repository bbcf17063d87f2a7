/**
 * `MainViewModel`: the holder of the one `MainUiState` the screen observes.
 *
 * Each intent runs on the view model's scope, whose dispatcher
 * (`Dispatchers.Main.immediate`) starts the launched block at once when the
 * intent is called on the main thread, as every caller does: the blank-message
 * guard and the begin write happen inside the intent's own call, and the block
 * then suspends on the repository.
 * The completion write happens later, when the repository's `Result` arrives;
 * here it is a separate method that takes that `Result` as its argument.
 */
module ViewModel {
  import opened Results
  import opened Models
  import opened Text
  import opened InputLists
  import opened UiState

  class MainViewModel {
    /** The value of `_uiState`, which `uiState` exposes read-only. */
    var uiState: MainUiState

    /** Starts from `MainUiState()`; the `init` block then launches `loadAllInputs`, whose begin write runs at once. */
    constructor ()
      ensures uiState == Begun(Initial)
      ensures uiState.inputs == [] && uiState.isLoading
      ensures uiState.errorMessage == None && uiState.successMessage == None
    {
      uiState := Initial;
      new;
      LoadAllInputs();
    }

    /** `createInput(message)`: a blank message is dropped before any write; otherwise the begin write. */
    method CreateInput(message: string) returns (launched: bool)
      modifies this
      ensures launched <==> !IsBlank(message)
      ensures uiState == if launched then Begun(old(uiState)) else old(uiState)
    {
      if IsBlank(message) {
        return false;
      }
      uiState := Begun(uiState);
      launched := true;
    }

    /** The `onSuccess` / `onFailure` branch of `createInput`. */
    method CreateInputCompleted(result: Result<InputData>)
      modifies this
      ensures uiState == OnCreateResult(old(uiState), result)
      ensures result.Success? ==> uiState.inputs == old(uiState.inputs) + [result.value]
      ensures result.Failure? ==> uiState.inputs == old(uiState.inputs)
      ensures !uiState.isLoading
    {
      uiState := OnCreateResult(uiState, result);
    }

    /** `loadAllInputs()`: the begin write; it has no guard. */
    method LoadAllInputs()
      modifies this
      ensures uiState == Begun(old(uiState))
    {
      uiState := Begun(uiState);
    }

    /** The `onSuccess` / `onFailure` branch of `loadAllInputs`. */
    method LoadAllInputsCompleted(result: Result<seq<InputData>>)
      modifies this
      ensures uiState == OnLoadResult(old(uiState), result)
      ensures uiState.inputs == if result.Success? then result.value else old(uiState.inputs)
      ensures uiState.successMessage == old(uiState.successMessage)
      ensures !uiState.isLoading
    {
      uiState := OnLoadResult(uiState, result);
    }

    /** `updateInput(id, message)`: a blank message is dropped before any write; otherwise the begin write. */
    method UpdateInput(id: Int32, message: string) returns (launched: bool)
      modifies this
      ensures launched <==> !IsBlank(message)
      ensures uiState == if launched then Begun(old(uiState)) else old(uiState)
    {
      if IsBlank(message) {
        return false;
      }
      uiState := Begun(uiState);
      launched := true;
    }

    /** The `onSuccess` / `onFailure` branch of `updateInput(id, _)`. */
    method UpdateInputCompleted(id: Int32, result: Result<InputData>)
      modifies this
      ensures uiState == OnUpdateResult(old(uiState), id, result)
      ensures |uiState.inputs| == |old(uiState.inputs)|
      ensures result.Failure? || !HasId(old(uiState.inputs), id) ==> uiState.inputs == old(uiState.inputs)
      ensures !uiState.isLoading
    {
      uiState := OnUpdateResult(uiState, id, result);
      if result.Success? && !HasId(old(uiState.inputs), id) {
        UpdateSuccessReplacesMatching(old(uiState), id, result.value);
      }
    }

    /** `deleteInput(id)`: the begin write; it has no guard. */
    method DeleteInput(id: Int32)
      modifies this
      ensures uiState == Begun(old(uiState))
    {
      uiState := Begun(uiState);
    }

    /** The `onSuccess` / `onFailure` branch of `deleteInput(id)`. */
    method DeleteInputCompleted(id: Int32, result: Result<string>)
      modifies this
      ensures uiState == OnDeleteResult(old(uiState), id, result)
      ensures IsSubsequence(uiState.inputs, old(uiState.inputs))
      ensures forall x :: x in uiState.inputs ==> x.id != id || result.Failure?
      ensures result.Failure? || !HasId(old(uiState.inputs), id) ==> uiState.inputs == old(uiState.inputs)
      ensures !uiState.isLoading
    {
      uiState := OnDeleteResult(uiState, id, result);
      if result.Success? && !HasId(old(uiState.inputs), id) {
        RemoveAbsentIdIsIdentity(old(uiState.inputs), id);
      }
      if result.Failure? {
        SubsequenceOfItself(old(uiState.inputs));
      }
    }

    /** `clearMessages()`: both messages are cleared; list and loading flag stay. */
    method ClearMessages()
      modifies this
      ensures uiState == Cleared(old(uiState))
      ensures uiState.inputs == old(uiState.inputs) && uiState.isLoading == old(uiState.isLoading)
      ensures uiState.errorMessage == None && uiState.successMessage == None
    {
      uiState := Cleared(uiState);
    }
  }

  /**
   * A create with a visible message, followed by its successful completion,
   * appends the returned record, shows the create message, and ends idle with no error.
   */
  method IntentThenCompletion(vm: MainViewModel, message: string, created: InputData)
    requires !IsBlank(message)
    modifies vm
    ensures vm.uiState.inputs == old(vm.uiState.inputs) + [created]
    ensures vm.uiState.successMessage == Some(CreatedMessage)
    ensures vm.uiState.errorMessage == None && !vm.uiState.isLoading
  {
    var launched := vm.CreateInput(message);
    assert vm.uiState.isLoading;
    vm.CreateInputCompleted(Success(created));
  }
}
