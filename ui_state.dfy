/**
 * The screen state `MainUiState` of ui/viewmodel/MainViewModel.kt and the
 * pure state folds that the view model's intents write into it: the begin write
 * shared by every intent, the completion write of each intent for a success and
 * for a failure, and clearing the messages.
 */
module UiState {
  import opened Results
  import opened Models
  import opened InputLists

  /** The observable screen state; every field has the default the data class gives it. */
  datatype MainUiState = MainUiState(
    inputs: seq<InputData>,
    isLoading: bool,
    errorMessage: Option<string>,
    successMessage: Option<string>)

  /** `MainUiState()`: the state the view model starts from. */
  const Initial := MainUiState([], false, None, None)

  const CreatedMessage := "Input created successfully"
  const UpdatedMessage := "Input updated successfully"
  const DeletedMessage := "Input deleted successfully"

  /** The first write of every intent: `copy(isLoading = true, errorMessage = null)`. */
  function Begun(s: MainUiState): MainUiState
  {
    s.(isLoading := true, errorMessage := None)
  }

  /** The failure write shared by all four intents: `copy(isLoading = false, errorMessage = error.message)`. */
  function Failed(s: MainUiState, reason: Option<string>): MainUiState
  {
    s.(isLoading := false, errorMessage := reason)
  }

  /** Completion of `createInput`: append the record the device returned. */
  function OnCreateResult(s: MainUiState, r: Result<InputData>): MainUiState
  {
    match r
    case Success(created) =>
      s.(inputs := s.inputs + [created], isLoading := false, successMessage := Some(CreatedMessage))
    case Failure(reason) => Failed(s, reason)
  }

  /** Completion of `loadAllInputs`: take the device's list as it is; no success message. */
  function OnLoadResult(s: MainUiState, r: Result<seq<InputData>>): MainUiState
  {
    match r
    case Success(all) => s.(inputs := all, isLoading := false)
    case Failure(reason) => Failed(s, reason)
  }

  /** Completion of `updateInput(id, _)`: swap in the record the device returned. */
  function OnUpdateResult(s: MainUiState, id: Int32, r: Result<InputData>): MainUiState
  {
    match r
    case Success(updated) =>
      s.(inputs := ReplaceById(s.inputs, id, updated), isLoading := false, successMessage := Some(UpdatedMessage))
    case Failure(reason) => Failed(s, reason)
  }

  /** Completion of `deleteInput(id)`: drop the records with that id; the device's reply text is unused. */
  function OnDeleteResult(s: MainUiState, id: Int32, r: Result<string>): MainUiState
  {
    match r
    case Success(_) =>
      s.(inputs := RemoveById(s.inputs, id), isLoading := false, successMessage := Some(DeletedMessage))
    case Failure(reason) => Failed(s, reason)
  }

  /** `clearMessages()`: both messages become null. */
  function Cleared(s: MainUiState): MainUiState
  {
    s.(errorMessage := None, successMessage := None)
  }

  /** The session starts with no records, idle, and with no message to show. */
  lemma InitialIsEmptyAndIdle()
    ensures Initial.inputs == [] && !Initial.isLoading
    ensures Initial.errorMessage == None && Initial.successMessage == None
  {
  }

  /** The begin step raises the loading flag and clears the error, and changes nothing else. */
  lemma BeginRaisesLoadingAndClearsError(s: MainUiState)
    ensures Begun(s).isLoading && Begun(s).errorMessage == None
    ensures Begun(s).inputs == s.inputs && Begun(s).successMessage == s.successMessage
  {
  }

  /**
   * A successful create keeps every earlier record in place and adds the
   * device's record as the one new last element.
   */
  lemma CreateSuccessAppends(s: MainUiState, created: InputData)
    ensures var t := OnCreateResult(s, Success(created));
      && |t.inputs| == |s.inputs| + 1
      && t.inputs[..|s.inputs|] == s.inputs
      && t.inputs[|s.inputs|] == created
      && !t.isLoading
      && t.successMessage == Some(CreatedMessage)
      && t.errorMessage == s.errorMessage
  {
  }

  /** A successful load replaces the list wholesale, in the device's order, and leaves both messages alone. */
  lemma LoadSuccessReplacesList(s: MainUiState, all: seq<InputData>)
    ensures var t := OnLoadResult(s, Success(all));
      && t.inputs == all
      && !t.isLoading
      && t.errorMessage == s.errorMessage
      && t.successMessage == s.successMessage
  {
  }

  /**
   * A successful update keeps length and order; every record with the target
   * id becomes the device's record and every other record is untouched; with
   * no record of that id the list is unchanged.
   */
  lemma UpdateSuccessReplacesMatching(s: MainUiState, id: Int32, updated: InputData)
    ensures var t := OnUpdateResult(s, id, Success(updated));
      && |t.inputs| == |s.inputs|
      && (forall i :: 0 <= i < |s.inputs| && s.inputs[i].id == id ==> t.inputs[i] == updated)
      && (forall i :: 0 <= i < |s.inputs| && s.inputs[i].id != id ==> t.inputs[i] == s.inputs[i])
      && (!HasId(s.inputs, id) ==> t.inputs == s.inputs)
      && !t.isLoading
      && t.successMessage == Some(UpdatedMessage)
      && t.errorMessage == s.errorMessage
  {
  }

  /**
   * With unique ids, a successful update of a present id changes the one
   * record at that id's position and no other.
   */
  lemma UpdateSuccessChangesOnlyOne(s: MainUiState, id: Int32, updated: InputData, k: nat)
    requires IdsUnique(s.inputs) && k < |s.inputs| && s.inputs[k].id == id
    ensures var t := OnUpdateResult(s, id, Success(updated));
      && t.inputs[k] == updated
      && forall j :: 0 <= j < |s.inputs| && j != k ==> t.inputs[j] == s.inputs[j]
  {
  }

  /**
   * A successful delete leaves exactly the records of other ids, in their old
   * relative order; an absent id changes nothing.
   */
  lemma DeleteSuccessFilters(s: MainUiState, id: Int32, reply: string)
    ensures var t := OnDeleteResult(s, id, Success(reply));
      && IsSubsequence(t.inputs, s.inputs)
      && (forall x :: x in t.inputs <==> x in s.inputs && x.id != id)
      && |t.inputs| == |s.inputs| - CountId(s.inputs, id)
      && (!HasId(s.inputs, id) ==> t.inputs == s.inputs)
      && !t.isLoading
      && t.successMessage == Some(DeletedMessage)
      && t.errorMessage == s.errorMessage
  {
    if !HasId(s.inputs, id) {
      RemoveAbsentIdIsIdentity(s.inputs, id);
    }
  }

  /** With unique ids, a successful delete shortens the list by one exactly when the id was present. */
  lemma DeleteSuccessLengthWhenUnique(s: MainUiState, id: Int32, reply: string)
    requires IdsUnique(s.inputs)
    ensures var t := OnDeleteResult(s, id, Success(reply));
      |t.inputs| == if HasId(s.inputs, id) then |s.inputs| - 1 else |s.inputs|
  {
    CountIdWhenUnique(s.inputs, id);
  }

  /**
   * Whatever intent failed, the list stays, loading ends, the error becomes
   * the failure's (possibly null) message and the success message keeps its value.
   */
  lemma FailureKeepsListAndSuccessMessage(s: MainUiState, id: Int32, reason: Option<string>)
    ensures var t := OnCreateResult(s, Failure(reason));
      t.inputs == s.inputs && !t.isLoading && t.errorMessage == reason && t.successMessage == s.successMessage
    ensures var t := OnLoadResult(s, Failure(reason));
      t.inputs == s.inputs && !t.isLoading && t.errorMessage == reason && t.successMessage == s.successMessage
    ensures var t := OnUpdateResult(s, id, Failure(reason));
      t.inputs == s.inputs && !t.isLoading && t.errorMessage == reason && t.successMessage == s.successMessage
    ensures var t := OnDeleteResult(s, id, Failure(reason));
      t.inputs == s.inputs && !t.isLoading && t.errorMessage == reason && t.successMessage == s.successMessage
  {
  }

  /** Clearing drops both messages, keeps the list and the loading flag, and is idempotent. */
  lemma ClearMessagesIdempotent(s: MainUiState)
    ensures Cleared(s).errorMessage == None && Cleared(s).successMessage == None
    ensures Cleared(s).inputs == s.inputs && Cleared(s).isLoading == s.isLoading
    ensures Cleared(Cleared(s)) == Cleared(s)
  {
  }

  /**
   * The loading flag toggles between two values: the begin step sets it, every
   * completion (success or failure) resets it, and clearing leaves it.
   */
  lemma LoadingToggles(s: MainUiState, id: Int32, rc: Result<InputData>, rl: Result<seq<InputData>>,
                       ru: Result<InputData>, rd: Result<string>)
    ensures Begun(s).isLoading
    ensures !OnCreateResult(s, rc).isLoading && !OnLoadResult(s, rl).isLoading
    ensures !OnUpdateResult(s, id, ru).isLoading && !OnDeleteResult(s, id, rd).isLoading
    ensures Cleared(s).isLoading == s.isLoading
  {
  }

  /**
   * No step introduces a duplicate id, provided the device keeps its side:
   * a created record has a fresh id, an updated record keeps its id and a
   * loaded list has unique ids.
   */
  lemma StepsKeepIdsUnique(s: MainUiState, id: Int32, rc: Result<InputData>, rl: Result<seq<InputData>>,
                           ru: Result<InputData>, rd: Result<string>)
    requires IdsUnique(s.inputs)
    requires rc.Success? ==> !HasId(s.inputs, rc.value.id)
    requires rl.Success? ==> IdsUnique(rl.value)
    requires ru.Success? ==> ru.value.id == id
    ensures IdsUnique(Begun(s).inputs) && IdsUnique(Cleared(s).inputs)
    ensures IdsUnique(OnCreateResult(s, rc).inputs)
    ensures IdsUnique(OnLoadResult(s, rl).inputs)
    ensures IdsUnique(OnUpdateResult(s, id, ru).inputs)
    ensures IdsUnique(OnDeleteResult(s, id, rd).inputs)
  {
    if ru.Success? {
      ReplaceByIdKeepsIdsUnique(s.inputs, id, ru.value);
    }
    if rd.Success? {
      RemoveByIdKeepsIdsUnique(s.inputs, id);
    }
  }

  /**
   * The two messages are not exclusive: a create that succeeds, followed by a
   * refresh that fails, leaves both a success message and an error message set.
   */
  lemma SuccessAndErrorCanCoexist(created: InputData, reason: string)
    ensures var t := OnLoadResult(Begun(OnCreateResult(Begun(Initial), Success(created))), Failure(Some(reason)));
      t.successMessage == Some(CreatedMessage) && t.errorMessage == Some(reason)
  {
  }

  /**
   * Create, update and delete of one record from an empty list: each step
   * shows its success message, and the list goes [] -> [r1] -> [r2] -> [].
   */
  lemma CreateUpdateDeleteScenario()
    ensures var r1 := InputData(1, "hello", "T1");
      var r2 := InputData(1, "world", "T2");
      var s1 := OnCreateResult(Begun(Initial), Success(r1));
      var s2 := OnUpdateResult(Begun(s1), 1, Success(r2));
      var s3 := OnDeleteResult(Begun(s2), 1, Success("deleted"));
      && s1.inputs == [r1] && s1.successMessage == Some(CreatedMessage)
      && s2.inputs == [r2] && s2.successMessage == Some(UpdatedMessage)
      && s3.inputs == [] && s3.successMessage == Some(DeletedMessage)
      && !s3.isLoading && s3.errorMessage == None
  {
    var r2 := InputData(1, "world", "T2");
    assert RemoveById([r2], 1) == [];
  }
}
