# ESP input list client: view-model state model

The Android client of the ESP web-server experiment shows and edits a list of
"input" records that a device on its own Wi-Fi access point serves over a small
REST API. All of the client's decisions live in `MainViewModel`: it owns one
`MainUiState` (the list of `InputData` records, a loading flag, an optional
error message and an optional success message) and turns each user intent
(create, load all, update, delete, clear messages) into a first write that
marks the screen as loading and, once the repository answers, a second write
that folds the answer into the list and the messages.

This project models that state holder in Dafny:

- `results.dfy` — `Option` (a Kotlin nullable) and the repository's two-variant
  `Result`, whose failure carries the exception's possibly-null message.
- `models.dfy` — `InputData` and Kotlin's 32-bit `Int` for ids.
- `text.dfy` — Kotlin's `isBlank`, over the JVM's whitespace characters.
- `input_lists.dfy` — the list folds: replace-by-id (`map`) and remove-by-id
  (`filter`), with their characterisations and the lemmas about ids.
- `ui_state.dfy` — `MainUiState`, its initial value, the begin write, the
  completion write of each intent and the clearing write, as pure functions,
  and the lemmas stating what each write does.
- `main_view_model.dfy` — the class `MainViewModel` whose field `uiState` is
  updated in place, one method per intent (guard and begin write) and one per
  completion, each specified by the pure write it performs.

Each intent's first half runs inside the call: when called on the main thread,
as the screen and the `init` block do, the view model's coroutine scope
(dispatched on `Dispatchers.Main.immediate`) starts its block at once and only
suspends on the repository call. The completion is therefore a separate method
that receives the repository's `Result` as an argument and is applied on its
own.

Behaviour of the code worth noting:

- On a failure the code leaves `successMessage` as it was, so a success
  message and an error message can be shown together (lemma
  `SuccessAndErrorCanCoexist`).
- A failure's error message is the exception's message, which may be null.
- Deleting filters out every record with the id rather than removing one: the
  list loses as many records as carry the id (`DeleteSuccessFilters`); with
  unique ids, the length drops by exactly one when the id is present
  (`DeleteSuccessLengthWhenUnique`).
- Updating replaces every record with the id, and the id of the returned
  record is not compared with the requested one; uniqueness of ids is
  guaranteed when the device returns the same id (`StepsKeepIdsUnique`).

## Model

| member | source | states |
|---|---|---|
| Text.BlankExamples | ESPWebServerExpriment-Android/app/src/main/java/dev/eknath/espwebserverexpriment/ui/viewmodel/MainViewModel.kt:31 | the guard's `isBlank` holds of "", " ", "\t \n" and a no-break space followed by an ideographic space, and fails on "hello" and "  x  " |
| InputLists.ReplaceById | ESPWebServerExpriment-Android/app/src/main/java/dev/eknath/espwebserverexpriment/ui/viewmodel/MainViewModel.kt:81-83 | the `map` keeps the length, and position by position yields the returned record where the id matches and the old record elsewhere |
| InputLists.RemoveById | ESPWebServerExpriment-Android/app/src/main/java/dev/eknath/espwebserverexpriment/ui/viewmodel/MainViewModel.kt:105 | the `filter` keeps exactly the records whose id differs (membership both ways), drops exactly as many records as carry the id, and keeps the survivors in their old relative order (a subsequence) |
| InputLists.CountIdPositiveIffPresent | ESPWebServerExpriment-Android/app/src/main/java/dev/eknath/espwebserverexpriment/ui/viewmodel/MainViewModel.kt:105 | the number of records removed by a delete is positive exactly when some record carries the id |
| InputLists.CountIdWhenUnique | ESPWebServerExpriment-Android/app/src/main/java/dev/eknath/espwebserverexpriment/ui/viewmodel/MainViewModel.kt:105 | with unique ids a delete removes one record when the id is present and none otherwise |
| InputLists.RemoveAbsentIdIsIdentity | ESPWebServerExpriment-Android/app/src/main/java/dev/eknath/espwebserverexpriment/ui/viewmodel/MainViewModel.kt:104-110 | deleting an id no record carries leaves the list equal to the old one |
| InputLists.RemoveByIdKeepsIdsUnique | ESPWebServerExpriment-Android/app/src/main/java/dev/eknath/espwebserverexpriment/ui/viewmodel/MainViewModel.kt:105 | filtering a list with unique ids leaves unique ids |
| InputLists.ReplaceByIdKeepsIdsUnique | ESPWebServerExpriment-Android/app/src/main/java/dev/eknath/espwebserverexpriment/ui/viewmodel/MainViewModel.kt:81-83 | replacing with a record that carries the target id keeps ids unique |
| UiState.InitialIsEmptyAndIdle | ESPWebServerExpriment-Android/app/src/main/java/dev/eknath/espwebserverexpriment/ui/viewmodel/MainViewModel.kt:12-17 | the initial state has no records, is not loading and has neither message |
| UiState.BeginRaisesLoadingAndClearsError | ESPWebServerExpriment-Android/app/src/main/java/dev/eknath/espwebserverexpriment/ui/viewmodel/MainViewModel.kt:34 | the begin write sets loading, clears the error and keeps the list and the success message |
| UiState.CreateSuccessAppends | ESPWebServerExpriment-Android/app/src/main/java/dev/eknath/espwebserverexpriment/ui/viewmodel/MainViewModel.kt:37-42 | a successful create keeps the old list as a prefix and adds the returned record as the single new last element; loading ends; the success message is "Input created successfully"; the error message is kept |
| UiState.LoadSuccessReplacesList | ESPWebServerExpriment-Android/app/src/main/java/dev/eknath/espwebserverexpriment/ui/viewmodel/MainViewModel.kt:58-62 | a successful load makes the list exactly the returned list in its order, ends loading and leaves both messages as they were |
| UiState.UpdateSuccessReplacesMatching | ESPWebServerExpriment-Android/app/src/main/java/dev/eknath/espwebserverexpriment/ui/viewmodel/MainViewModel.kt:80-88 | a successful update keeps length and order, puts the returned record at every matching id, leaves every other record, leaves the list unchanged when no id matches, ends loading and sets "Input updated successfully" |
| UiState.UpdateSuccessChangesOnlyOne | ESPWebServerExpriment-Android/app/src/main/java/dev/eknath/espwebserverexpriment/ui/viewmodel/MainViewModel.kt:81-83 | with unique ids an update changes the record at the matching position and no other |
| UiState.DeleteSuccessFilters | ESPWebServerExpriment-Android/app/src/main/java/dev/eknath/espwebserverexpriment/ui/viewmodel/MainViewModel.kt:104-110 | a successful delete keeps exactly the records of other ids as a subsequence of the old list, shortens it by the number of matching records, changes nothing for an absent id, ends loading and sets "Input deleted successfully" |
| UiState.DeleteSuccessLengthWhenUnique | ESPWebServerExpriment-Android/app/src/main/java/dev/eknath/espwebserverexpriment/ui/viewmodel/MainViewModel.kt:105 | with unique ids a successful delete shortens the list by one exactly when the id was present |
| UiState.FailureKeepsListAndSuccessMessage | ESPWebServerExpriment-Android/app/src/main/java/dev/eknath/espwebserverexpriment/ui/viewmodel/MainViewModel.kt:44-48 | after any failed intent the list is unchanged, loading ends, the error message is the failure's possibly-null message and the success message keeps its value |
| UiState.ClearMessagesIdempotent | ESPWebServerExpriment-Android/app/src/main/java/dev/eknath/espwebserverexpriment/ui/viewmodel/MainViewModel.kt:121-126 | clearing drops both messages, keeps the list and the loading flag, and clearing twice equals clearing once |
| UiState.LoadingToggles | ESPWebServerExpriment-Android/app/src/main/java/dev/eknath/espwebserverexpriment/ui/viewmodel/MainViewModel.kt:34-116 | every begin write sets the loading flag, every completion of every intent resets it, and clearing leaves it |
| UiState.StepsKeepIdsUnique | ESPWebServerExpriment-Android/app/src/main/java/dev/eknath/espwebserverexpriment/ui/viewmodel/MainViewModel.kt:34-126 | when the device returns fresh ids on create, the same id on update and a list with unique ids on load, no write introduces duplicate ids |
| UiState.SuccessAndErrorCanCoexist | ESPWebServerExpriment-Android/app/src/main/java/dev/eknath/espwebserverexpriment/ui/viewmodel/MainViewModel.kt:37-68 | a successful create followed by a failed load leaves both the success message and the error message set |
| UiState.CreateUpdateDeleteScenario | ESPWebServerExpriment-Android/app/src/main/java/dev/eknath/espwebserverexpriment/ui/viewmodel/MainViewModel.kt:30-119 | from the initial state, create, update and delete of record 1 give the lists [r1], [r2], [] with the matching success messages and no error |
| ViewModel.MainViewModel.constructor | ESPWebServerExpriment-Android/app/src/main/java/dev/eknath/espwebserverexpriment/ui/viewmodel/MainViewModel.kt:23-28 | the view model starts from the initial state and the init load's begin write: empty list, loading, no messages |
| ViewModel.MainViewModel.CreateInput | ESPWebServerExpriment-Android/app/src/main/java/dev/eknath/espwebserverexpriment/ui/viewmodel/MainViewModel.kt:30-34 | a blank message changes nothing and launches nothing; otherwise the state becomes the begin write of the old state |
| ViewModel.MainViewModel.CreateInputCompleted | ESPWebServerExpriment-Android/app/src/main/java/dev/eknath/espwebserverexpriment/ui/viewmodel/MainViewModel.kt:36-49 | the state becomes the create completion of the old state: the returned record appended on success, the list unchanged on failure, loading over |
| ViewModel.MainViewModel.LoadAllInputs | ESPWebServerExpriment-Android/app/src/main/java/dev/eknath/espwebserverexpriment/ui/viewmodel/MainViewModel.kt:53-55 | the state becomes the begin write of the old state |
| ViewModel.MainViewModel.LoadAllInputsCompleted | ESPWebServerExpriment-Android/app/src/main/java/dev/eknath/espwebserverexpriment/ui/viewmodel/MainViewModel.kt:57-69 | the list becomes the returned list on success and stays on failure; the success message is kept; loading over |
| ViewModel.MainViewModel.UpdateInput | ESPWebServerExpriment-Android/app/src/main/java/dev/eknath/espwebserverexpriment/ui/viewmodel/MainViewModel.kt:73-77 | a blank message changes nothing and launches nothing; otherwise the state becomes the begin write of the old state |
| ViewModel.MainViewModel.UpdateInputCompleted | ESPWebServerExpriment-Android/app/src/main/java/dev/eknath/espwebserverexpriment/ui/viewmodel/MainViewModel.kt:79-95 | the state becomes the update completion of the old state; length kept; list unchanged on failure or when no id matches; loading over |
| ViewModel.MainViewModel.DeleteInput | ESPWebServerExpriment-Android/app/src/main/java/dev/eknath/espwebserverexpriment/ui/viewmodel/MainViewModel.kt:99-101 | the state becomes the begin write of the old state |
| ViewModel.MainViewModel.DeleteInputCompleted | ESPWebServerExpriment-Android/app/src/main/java/dev/eknath/espwebserverexpriment/ui/viewmodel/MainViewModel.kt:103-117 | the state becomes the delete completion of the old state; the new list is a subsequence of the old one, holds no record of the id on success, and equals the old one on failure or for an absent id; loading over |
| ViewModel.MainViewModel.ClearMessages | ESPWebServerExpriment-Android/app/src/main/java/dev/eknath/espwebserverexpriment/ui/viewmodel/MainViewModel.kt:121-126 | both messages become absent; list and loading flag unchanged |
| ViewModel.IntentThenCompletion | ESPWebServerExpriment-Android/app/src/main/java/dev/eknath/espwebserverexpriment/ui/viewmodel/MainViewModel.kt:30-43 | a create with a visible message followed by its successful completion appends the returned record, shows "Input created successfully", no error, and is no longer loading |

## Left out

- The repository and the HTTP transport (`InputRepository.kt`, `EspApiService.kt`): the model takes their `Result` as an input to each completion method. How a failure's message is built (the "Failed to …" prefix or an exception's own text) is not modelled.
- `InputRepository.getInput`: the view model never calls it.
- The `code` field of the response envelope and the `count` field of the list payload: the client discards both and never compares `count` with the list length.
- Coroutine concurrency: two intents that overlap can interleave their writes, and the last completion wins; the model applies each completion on its own to the state it finds.
- `StateFlow` observation and the Compose screen, including the three-second automatic clearing of messages and the disabling of the create button while loading: these are UI and timer effects.
- Text.IsWhitespace: fixes the JVM's whitespace table (ASCII controls, space and the Unicode space, line and paragraph separators) rather than following a particular Unicode version's character database.
- The ESP32 firmware's JSON helpers: they wrap a library that is not part of this model.
