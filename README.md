# Momentum to-do stack and feed state, modelled in Dafny

Momentum is a SwiftUI app with two screens. The to-do screen goes through
four layers:

- `ToDoEntity`, the record;
- a store (`MockToDoRepository` in memory, or `ToDoRepository` over SwiftData `ToDoModel` rows);
- `ToDoUseCase`, which guards titles and delegates the rest;
- `ToDoViewModel`, a four-case state machine that patches its list locally after each successful command.

The feed screen is one state holder, `FeedViewModel`, which loads a page of
characters.

This project models those layers and proves what they promise: not-found
errors, the order of `fetchAll`, permutation, the active/completed
partition, the toggle involution, and that nothing else changes.

One module per source file:

| module | file | form |
|---|---|---|
| `ToDoEntities` | todo_entity.dfy | datatype and initializer |
| `FeedEntities` | feed_entity.dfy | datatypes |
| `ToDoSequences` | todo_sequences.dfy | the Swift array operations the stack uses: `firstIndex`, `remove(at:)`, `removeAll`, `filter`, `sorted`, flip-and-stamp |
| `MockToDoRepositories` | mock_todo_repository.dfy | a class over a `todos: seq` field |
| `ToDoRepositories` | todo_repository.dfy | a class over a `context: seq<ToDoModel>` field, plus `ToDoRepositoryProtocol` as a datatype over the two stores |
| `MockToDoUseCases` | mock_todo_use_case.dfy | a value: its methods only read the configured fields |
| `ToDoUseCases` | todo_use_case.dfy | title guard as functions; a class that delegates; `ToDoUseCaseProtocol` as a datatype over the real use case and the mock |
| `ToDoViewModels` | todo_view_model.dfy | `State` datatype with its derived views; a class whose commands reassign `state` |
| `FeedViewModels` | feed_view_model.dfy | a class with the three observable fields |

`Wrappers` and `Errors` hold `Option`/`Result`/`Outcome` and the error enums.

Each state-changing operation comes in two forms:

- **A transition function**, such as `UpdateInMemory`, `UpdateStored` or `AfterUpdate`. It gives the new state and the outcome. The lemmas are proved about these functions.
- **A method of the class.** It changes the field in place, step by step as the Swift code does. Its `ensures` ties the new field and the result to the transition function applied to the old field.

`fetchAll` is modelled the same way: the method's result is tied to a function of the current store.

A thrown error is a `Fail`/`Failure` value, and `Date()` and `UUID()` are parameters:

- `now` stands for `Date()`, and `freshId` for `UUID()`.
- `Date()` is an integer clock.
- A UUID is an abstract type with equality only.
- Where the source reads the clock twice (`toggleCompletion` in the view-model and in the store), the model takes two readings.

The protocols `ToDoRepositoryProtocol` and `ToDoUseCaseProtocol` are datatypes over their conformers:

- `Target()`/`Footprint()` give the object a call may change.
- `Snapshot()`/`World()` give what that object holds, as a value.

## Where the code does not do what its tests and views expect

The model follows the code:

- **`error` carries no data.** The code's `State.error` carries only the error (Momentum/ToDoView/ToDoViewModel.swift:9), and `todos` is `[]` in that state (:15-20). Its failing tests and its list view expect a failed command to keep the last list.
  - Any failed command sets `error(e)` (:66-68, 80-82, 92-94, 107-109), so the list the screen shows becomes empty.
  - `ToDoViewModels.FailureDropsList` proves this.
  - `ToDoViewModels.DeleteFailureScenario` and `ToggleFailureScenario` replay MomentumTests/ToDoEdgeCasesTests.swift:211-249 and prove the opposite of what those tests expect: `todos` is `[]`, so there is no record with `isCompleted == false` to find.
  - The list view's `.error(_, let preservedData)` pattern (Momentum/ToDoView/ToDoListView.swift:19) does not fit this enum. That file is not part of this model.
- **Commands run in every state.** The commands call the use case in every state; only the local patch is guarded by `loaded`. A success outside `loaded` leaves the state as it was (`SuccessOutsideLoadedIsNoOp`), while the store has still changed and a failure still sets `error`.
- **The completion invariant is not enforced.** `ToDoEntity`'s initializer does not tie `completedAt` to `isCompleted`: `ToDoEntity(title:, isCompleted: true)` has no date (`ToDoEntities.CompletionNotEnforced`). Only a toggle re-establishes it, for the record it touches (`ToDoSequences.ToggledIsConsistent`).
- **Unique ids are not enforced.** The stores never check ids. They stay distinct only if each `UUID()` is fresh (`MockToDoRepositories.InMemoryKeepsIdsUnique`).
- **The stores differ on `update`.** The in-memory store replaces the whole record, `createdAt` included. The SwiftData store keeps the stored `createdAt`. They agree exactly when the argument carries the stored `createdAt` (`ToDoRepositories.StoresDisagreeOnUpdate`). On create, delete and toggle they agree outright (`StoresAgreeExceptUpdate`).

## Model

| member | source | states |
|---|---|---|
| ToDoEntities.MakeToDo | Momentum/UseCase/ToDoEntity.swift:11-25 | the initializer stores every argument in the field of the same name |
| ToDoEntities.DefaultInitializer | Momentum/UseCase/ToDoEntity.swift:11-18 | with the defaults the record has no notes, is incomplete, has no completion date, and is consistent |
| ToDoEntities.EqualityIsFieldwise | Momentum/UseCase/ToDoEntity.swift:3-9 | two records are equal exactly when all six fields agree |
| ToDoEntities.MutableFieldsKeepIdentity | Momentum/UseCase/ToDoEntity.swift:4-9 | changing any of the five `var` fields keeps the `let` id |
| ToDoEntities.CompletionNotEnforced | Momentum/UseCase/ToDoEntity.swift:15-17 | a completed record without a completion date can be built |
| FeedEntities.DuplicatesAreKept | Momentum/UseCase/FeedEntity.swift:27-40 | a feed with the same character twice keeps both: length two, two entries with that id |
| FeedEntities.InitializersStoreArguments | Momentum/UseCase/FeedEntity.swift:16-40 | `InfoResponse` and `CharactersResponse` store their arguments unchanged |
| ToDoSequences.FirstIndex | Momentum/Repository/MockToDoRepository.swift:17 | `firstIndex(where:)` is none exactly when no record has the id; otherwise it is in range, holds the id, and no earlier record holds it |
| ToDoSequences.RemoveAt | Momentum/Repository/MockToDoRepository.swift:27 | `remove(at:)` shortens by one, keeps what is before the index and shifts what is after |
| ToDoSequences.Toggled | Momentum/Repository/MockToDoRepository.swift:34-35 | the flag flips, the date is `now` if the flag is now set and none otherwise, and id, title, notes and creation date stay |
| ToDoSequences.ToggledIsConsistent | Momentum/Repository/MockToDoRepository.swift:34-35 | after a toggle the record has a date exactly when it is completed |
| ToDoSequences.ToggleTwice | Momentum/Repository/MockToDoRepository.swift:34-35 | two toggles restore a record exactly when it started incomplete without a date, or completed with the second toggle's date |
| ToDoSequences.RemoveAllWithId | Momentum/ToDoView/ToDoViewModel.swift:89 | `removeAll` does not lengthen the list and leaves no record with the id |
| ToDoSequences.RemoveAllKeepsOthers | Momentum/ToDoView/ToDoViewModel.swift:89 | every record with another id is kept as often as it occurred |
| ToDoSequences.RemoveAllDistributes | Momentum/ToDoView/ToDoViewModel.swift:89 | `removeAll` works piecewise over concatenation, so the kept records stay in order |
| ToDoSequences.RemoveAllAbsent | Momentum/ToDoView/ToDoViewModel.swift:89 | with no record carrying the id, `removeAll` changes nothing |
| ToDoSequences.RemoveAllIsRemoveAtFirst | Momentum/ToDoView/ToDoViewModel.swift:85-91 | on a list with unique ids, the view-model's `removeAll` removes exactly what the store's `remove(at: firstIndex)` removes |
| ToDoSequences.FilterCompleted | Momentum/ToDoView/ToDoViewModel.swift:36-42 | the filter does not lengthen the list and keeps only records of the requested kind |
| ToDoSequences.FilterDistributes | Momentum/ToDoView/ToDoViewModel.swift:36-42 | the filter works piecewise over concatenation, so kept records stay in order |
| ToDoSequences.FiltersPartition | Momentum/ToDoView/ToDoViewModel.swift:36-42 | active and completed together hold every record exactly once (multisets and lengths add up) |
| ToDoSequences.InsertNewestFirst | Momentum/Repository/MockToDoRepository.swift:7 | inserting adds exactly that record, one longer, and puts it or the old first record at the head |
| ToDoSequences.InsertKeepsSorted | Momentum/Repository/MockToDoRepository.swift:7 | inserting into a newest-first list keeps it newest first |
| ToDoSequences.SortNewestFirst | Momentum/Repository/MockToDoRepository.swift:6-8 | `sorted { $0.createdAt > $1.createdAt }` is newest first and a permutation of its input |
| ToDoSequences.SortOfCreationOrderIsReverse | Momentum/Repository/MockToDoRepository.swift:6-14 | records appended at strictly increasing times come back in reverse order of creation |
| MockToDoRepositories.ThreeCreatedInOrder | Momentum/Repository/MockToDoRepository.swift:6-14 | three records created at increasing times are fetched newest first, the order the source's creation-order test expects |
| ToDoSequences.ReplaceKeepsIds | Momentum/Repository/MockToDoRepository.swift:26 | replacing a record by one with the same id keeps ids unique and every `firstIndex` unchanged |
| ToDoSequences.RemoveKeepsUniqueIds | Momentum/Repository/MockToDoRepository.swift:27 | removing a record keeps ids unique |
| ToDoSequences.AppendFreshKeepsUniqueIds | Momentum/Repository/MockToDoRepository.swift:12 | appending a record with a new id keeps ids unique |
| MockToDoRepositories.CreateInMemory | Momentum/Repository/MockToDoRepository.swift:10-14 | one record is appended after the untouched old ones and returned; it has the given title, notes, id and time, and is incomplete with no date |
| MockToDoRepositories.UpdateInMemory | Momentum/Repository/MockToDoRepository.swift:16-21 | `notFound` exactly when no record has the id, with no change; otherwise the first match becomes the argument, `createdAt` included, and every other index is unchanged |
| MockToDoRepositories.DeleteInMemory | Momentum/Repository/MockToDoRepository.swift:23-28 | `notFound` exactly when the id is missing, with no change; otherwise exactly the first match is removed and the rest keep their order |
| MockToDoRepositories.ToggleInMemory | Momentum/Repository/MockToDoRepository.swift:30-36 | `notFound` exactly when the id is missing, with no change; otherwise the first match flips, keeps its id, title, notes and creation date, and is left consistent, completing stamps `now`; every other index is unchanged |
| MockToDoRepositories.InMemoryKeepsIdsUnique | Momentum/Repository/MockToDoRepository.swift:10-36 | every operation keeps ids pairwise distinct, create given a fresh id |
| MockToDoRepositories.ToggleTwiceInMemory | Momentum/Repository/MockToDoRepository.swift:30-36 | toggling an incomplete undated record twice restores the store exactly |
| MockToDoRepositories.MockToDoRepository.constructor | Momentum/Repository/MockToDoRepository.swift:4 | a new store is empty |
| MockToDoRepositories.MockToDoRepository.FetchAll | Momentum/Repository/MockToDoRepository.swift:6-8 | the result is newest first and a permutation of the store; the store is not changed |
| MockToDoRepositories.MockToDoRepository.Create | Momentum/Repository/MockToDoRepository.swift:10-14 | the new array and the result are those of `CreateInMemory` |
| MockToDoRepositories.MockToDoRepository.Update | Momentum/Repository/MockToDoRepository.swift:16-21 | the new array and the outcome are those of `UpdateInMemory` |
| MockToDoRepositories.MockToDoRepository.Delete | Momentum/Repository/MockToDoRepository.swift:23-28 | the new array and the outcome are those of `DeleteInMemory` |
| MockToDoRepositories.MockToDoRepository.ToggleCompletion | Momentum/Repository/MockToDoRepository.swift:30-36 | the two in-place field assignments give the array and outcome of `ToggleInMemory` |
| ToDoRepositories.NewModel | Momentum/Repository/ToDoModel.swift:13-27 | the model initializer stores its arguments, `title` defaulting to empty |
| ToDoRepositories.ToEntity | Momentum/Repository/ToDoModel.swift:29-39 | `toEntity` copies all six fields unchanged |
| ToDoRepositories.Entities | Momentum/Repository/ToDoRepository.swift:26 | `map { $0.toEntity() }` keeps the length and converts each model at its own index |
| ToDoRepositories.ToEntityInjective | Momentum/Repository/ToDoModel.swift:29-39 | distinct models read back as distinct entities |
| ToDoRepositories.ApplyUpdate | Momentum/Repository/ToDoRepository.swift:45-48 | update writes title, notes, flag and completion date from the argument and keeps id and `createdAt` |
| ToDoRepositories.ApplyUpdateRoundTrip | Momentum/Repository/ToDoRepository.swift:45-48 | the updated model reads back as the argument exactly when the argument kept the stored id and `createdAt` |
| ToDoRepositories.ToggledModel | Momentum/Repository/ToDoRepository.swift:73-74 | toggling a model reads back as toggling its entity |
| ToDoRepositories.EntitiesOfReplace | Momentum/Repository/ToDoRepository.swift:45-48 | replacing one model replaces exactly the entity it reads back as |
| ToDoRepositories.EntitiesOfRemove | Momentum/Repository/ToDoRepository.swift:61 | deleting one model deletes exactly the entity it reads back as |
| ToDoRepositories.FetchAllStored | Momentum/Repository/ToDoRepository.swift:21-27 | every stored record, newest first, as a permutation |
| ToDoRepositories.CreateStored | Momentum/Repository/ToDoRepository.swift:29-34 | one model is inserted after the old ones; the returned entity reads it back, with the given id, title, notes and time, incomplete and undated |
| ToDoRepositories.UpdateStored | Momentum/Repository/ToDoRepository.swift:36-51 | `notFound` exactly when the id is missing, with no change; otherwise the first match takes the argument except its stored id and `createdAt`, and every other model is unchanged |
| ToDoRepositories.UpdateStoredReadsBack | Momentum/Repository/ToDoRepository.swift:36-51 | read back through `toEntity`, a successful update stores the argument with the stored `createdAt` at the first match, and every other entity is unchanged |
| ToDoRepositories.DeleteStored | Momentum/Repository/ToDoRepository.swift:53-63 | `notFound` exactly when the id is missing, with no change; otherwise the first model with the id, and no other, is removed |
| ToDoRepositories.ToggleStored | Momentum/Repository/ToDoRepository.swift:65-77 | `notFound` exactly when the id is missing, with no change; otherwise the first match flips, keeps its id, title, notes and creation date, and is left consistent, completing stamps `now`; every other model is unchanged |
| ToDoRepositories.StoresAgreeExceptUpdate | Momentum/Repository/ToDoRepository.swift:29-77 | seen through `toEntity`, the durable and in-memory stores give the same records and outcomes on create, delete and toggle |
| ToDoRepositories.StoresDisagreeOnUpdate | Momentum/Repository/ToDoRepository.swift:45-48 | after an update the two stores hold the same records exactly when the argument carries the stored `createdAt` |
| ToDoRepositories.ToDoRepository.constructor | Momentum/Repository/ToDoRepository.swift:15-17 | the store starts over the models the context holds |
| ToDoRepositories.ToDoRepository.FetchAll | Momentum/Repository/ToDoRepository.swift:21-27 | newest first, a permutation of the stored entities; the table is not changed |
| ToDoRepositories.ToDoRepository.Create | Momentum/Repository/ToDoRepository.swift:29-34 | the new table and the result are those of `CreateStored` |
| ToDoRepositories.ToDoRepository.Update | Momentum/Repository/ToDoRepository.swift:36-51 | the four field assignments give the table and outcome of `UpdateStored` |
| ToDoRepositories.ToDoRepository.Delete | Momentum/Repository/ToDoRepository.swift:53-63 | the new table and the outcome are those of `DeleteStored` |
| ToDoRepositories.ToDoRepository.ToggleCompletion | Momentum/Repository/ToDoRepository.swift:65-77 | the two field assignments give the table and outcome of `ToggleStored` |
| ToDoRepositories.SnapshotFetchAll | Momentum/Repository/ToDoRepository.swift:5 | either store's `fetchAll` is newest first and a permutation of what it holds |
| ToDoRepositories.SnapshotCreate | Momentum/Repository/ToDoRepository.swift:6 | either store appends exactly the record the initializer builds, and returns it |
| ToDoRepositories.SnapshotUpdate | Momentum/Repository/ToDoRepository.swift:7 | either store fails with `notFound` exactly when the id is missing, and then changes nothing; otherwise the first match becomes the argument, with the argument's `createdAt` in memory and the stored one in SwiftData, and no other record changes |
| ToDoRepositories.SnapshotDelete | Momentum/Repository/ToDoRepository.swift:8 | either store fails with `notFound` exactly when the id is missing, and otherwise removes the first match |
| ToDoRepositories.SnapshotToggle | Momentum/Repository/ToDoRepository.swift:9 | either store fails with `notFound` exactly when the id is missing, and otherwise toggles the first match in place |
| ToDoRepositories.AnyToDoRepository.FetchAll | Momentum/Repository/ToDoRepository.swift:5 | the conformer's answer is `SnapshotFetchAll` of what it holds |
| ToDoRepositories.AnyToDoRepository.Create | Momentum/Repository/ToDoRepository.swift:6 | the conformer's new contents and result are `SnapshotCreate`'s |
| ToDoRepositories.AnyToDoRepository.Update | Momentum/Repository/ToDoRepository.swift:7 | the conformer's new contents and outcome are `SnapshotUpdate`'s |
| ToDoRepositories.AnyToDoRepository.Delete | Momentum/Repository/ToDoRepository.swift:8 | the conformer's new contents and outcome are `SnapshotDelete`'s |
| ToDoRepositories.AnyToDoRepository.ToggleCompletion | Momentum/Repository/ToDoRepository.swift:9 | the conformer's new contents and outcome are `SnapshotToggle`'s |
| MockToDoUseCases.MockToDoUseCase.FetchAll | Momentum/UseCase/MockToDoUseCase.swift:10-12 | the configured list on success, the configured error on failure |
| MockToDoUseCases.MockToDoUseCase.Create | Momentum/UseCase/MockToDoUseCase.swift:14-19 | the configured result when set; otherwise a new incomplete, undated record with the given title and notes |
| MockToDoUseCases.MockToDoUseCase.Update | Momentum/UseCase/MockToDoUseCase.swift:21-25 | fails exactly when an error is configured, with that error |
| MockToDoUseCases.MockToDoUseCase.Delete | Momentum/UseCase/MockToDoUseCase.swift:27-31 | fails exactly when an error is configured, with that error |
| MockToDoUseCases.MockToDoUseCase.ToggleCompletion | Momentum/UseCase/MockToDoUseCase.swift:33-37 | fails exactly when an error is configured, with that error |
| MockToDoUseCases.Throwing | Momentum/UseCase/MockToDoUseCase.swift:21-37 | `if let error = … { throw error }` fails exactly when an error is configured, and with that error |
| MockToDoUseCases.MockAcceptsAnyTitle | Momentum/UseCase/MockToDoUseCase.swift:14-19 | unconfigured, the mock accepts every title, blank ones included |
| ToDoUseCases.TrimLeading | Momentum/UseCase/ToDoUseCase.swift:25 | the result is a suffix, everything dropped is whitespace, and it does not start with whitespace |
| ToDoUseCases.TrimTrailing | Momentum/UseCase/ToDoUseCase.swift:25 | the result is a prefix, everything dropped is whitespace, and it does not end with whitespace |
| ToDoUseCases.Trim | Momentum/UseCase/ToDoUseCase.swift:25 | the trimmed title is no longer and neither starts nor ends with whitespace |
| ToDoUseCases.BlankIffAllWhitespace | Momentum/UseCase/ToDoUseCase.swift:25 | a title is refused exactly when every character is in `.whitespaces` (the empty title included) |
| ToDoUseCases.ContentAt | Momentum/UseCase/ToDoUseCase.swift:25 | one character outside `.whitespaces`, anywhere in the title, lets it pass |
| ToDoUseCases.BlankTitleExamples | Momentum/UseCase/ToDoUseCase.swift:32 | the empty title, spaces alone and tabs with spaces are refused |
| ToDoUseCases.NewlineIsContent | Momentum/UseCase/ToDoUseCase.swift:32 | a title with a newline anywhere passes: line breaks are not trimmed |
| ToDoUseCases.UseCaseCreate | Momentum/UseCase/ToDoUseCase.swift:24-29 | `emptyTitle` exactly when the title is blank, and then the store is untouched; otherwise the store's create, with the untrimmed title |
| ToDoUseCases.UseCaseUpdate | Momentum/UseCase/ToDoUseCase.swift:31-36 | `emptyTitle` exactly when the title is blank, and then the store is untouched; otherwise exactly the store's update |
| ToDoUseCases.UpdateErrorPrecedence | Momentum/UseCase/ToDoUseCase.swift:31-36 | on a missing id a blank title gives `emptyTitle` and a valid one `notFound` |
| ToDoUseCases.ToDoUseCase.constructor | Momentum/UseCase/ToDoUseCase.swift:14-16 | the use case keeps the injected store |
| ToDoUseCases.ToDoUseCase.FetchAll | Momentum/UseCase/ToDoUseCase.swift:20-22 | exactly the store's answer |
| ToDoUseCases.ToDoUseCase.Create | Momentum/UseCase/ToDoUseCase.swift:24-29 | new store contents and result are `UseCaseCreate`'s |
| ToDoUseCases.ToDoUseCase.Update | Momentum/UseCase/ToDoUseCase.swift:31-36 | new store contents and outcome are `UseCaseUpdate`'s |
| ToDoUseCases.ToDoUseCase.Delete | Momentum/UseCase/ToDoUseCase.swift:38-40 | exactly the store's delete: contents and outcome |
| ToDoUseCases.ToDoUseCase.ToggleCompletion | Momentum/UseCase/ToDoUseCase.swift:42-44 | exactly the store's toggle: contents and outcome |
| ToDoUseCases.AnyToDoUseCase.FetchAll | Momentum/UseCase/ToDoUseCase.swift:4 | the conformer's answer as a function of its world |
| ToDoUseCases.AnyToDoUseCase.Create | Momentum/UseCase/ToDoUseCase.swift:5 | the conformer's new world and result as a function of the old world |
| ToDoUseCases.AnyToDoUseCase.Update | Momentum/UseCase/ToDoUseCase.swift:6 | the conformer's new world and outcome as a function of the old world |
| ToDoUseCases.AnyToDoUseCase.Delete | Momentum/UseCase/ToDoUseCase.swift:7 | the conformer's new world and outcome as a function of the old world |
| ToDoUseCases.AnyToDoUseCase.ToggleCompletion | Momentum/UseCase/ToDoUseCase.swift:8 | the conformer's new world and outcome as a function of the old world |
| ToDoUseCases.WorldFetchAll | Momentum/UseCase/ToDoUseCase.swift:4 | defines `fetchAll` of either conformer: the store's newest-first list, or the mock's configured answer |
| ToDoUseCases.WorldCreate | Momentum/UseCase/ToDoUseCase.swift:5 | defines `create` of either conformer: `UseCaseCreate` on the store, or the mock's answer with the mock unchanged |
| ToDoUseCases.WorldUpdate | Momentum/UseCase/ToDoUseCase.swift:6 | defines `update` of either conformer: `UseCaseUpdate` on the store, or the mock's answer with the mock unchanged |
| ToDoUseCases.WorldDelete | Momentum/UseCase/ToDoUseCase.swift:7 | defines `delete` of either conformer: the store's `SnapshotDelete`, or the mock's answer with the mock unchanged |
| ToDoUseCases.WorldToggle | Momentum/UseCase/ToDoUseCase.swift:8 | defines `toggleCompletion` of either conformer: the store's `SnapshotToggle`, or the mock's answer with the mock unchanged |
| ToDoUseCases.StubIsUnchanged | Momentum/UseCase/MockToDoUseCase.swift:3-38 | no call changes the mock |
| Errors.LocalizedDescription | Momentum/FeedView/FeedViewModel.swift:28-33 | defines `localizedDescription`: `invalidURL` gives "Invalid feed URL configuration", a foreign error its own text, the other two fixed placeholders |
| ToDoViewModels.State.Todos | Momentum/ToDoView/ToDoViewModel.swift:15-20 | defines `todos`: the payload when loaded, otherwise empty (properties in `DerivedViews`) |
| ToDoViewModels.State.IsLoading | Momentum/ToDoView/ToDoViewModel.swift:22-27 | defines `isLoading`: true only in `loading` (properties in `DerivedViews`) |
| ToDoViewModels.State.ErrorMessage | Momentum/ToDoView/ToDoViewModel.swift:29-34 | defines `errorMessage`: the error's description in `error`, otherwise none (properties in `DerivedViews`) |
| ToDoViewModels.State.ActiveTodos | Momentum/ToDoView/ToDoViewModel.swift:36-38 | defines `activeTodos` as the incomplete records of `todos` (properties in `DerivedViews`) |
| ToDoViewModels.State.CompletedTodos | Momentum/ToDoView/ToDoViewModel.swift:40-42 | defines `completedTodos` as the completed records of `todos` (properties in `DerivedViews`) |
| ToDoViewModels.AfterLoad | Momentum/ToDoView/ToDoViewModel.swift:48-57 | defines the state `loadTodos` ends in (properties in `LoadOutcome`) |
| ToDoViewModels.AfterCreate | Momentum/ToDoView/ToDoViewModel.swift:59-69 | defines the state `createTodo` ends in (properties in `CreatePrepends`, `FailureDropsList`, `SuccessOutsideLoadedIsNoOp`) |
| ToDoViewModels.AfterUpdate | Momentum/ToDoView/ToDoViewModel.swift:71-83 | defines the state `updateTodo` ends in (properties in `UpdateReplacesFirstMatch`, `FailureDropsList`, `SuccessOutsideLoadedIsNoOp`) |
| ToDoViewModels.AfterDelete | Momentum/ToDoView/ToDoViewModel.swift:85-95 | defines the state `deleteTodo` ends in (properties in `DeleteRemovesEveryMatch`, `FailureDropsList`, `SuccessOutsideLoadedIsNoOp`) |
| ToDoViewModels.AfterToggle | Momentum/ToDoView/ToDoViewModel.swift:97-110 | defines the state `toggleCompletion` ends in (properties in `ToggleFlipsFirstMatch`, `FailureDropsList`, `SuccessOutsideLoadedIsNoOp`) |
| ToDoViewModels.DerivedViews | Momentum/ToDoView/ToDoViewModel.swift:15-42 | `todos` is the payload exactly when loaded, `isLoading` holds exactly when loading, `errorMessage` is set exactly in `error`, and active and completed split `todos`, each holding only its kind |
| ToDoViewModels.LoadOutcome | Momentum/ToDoView/ToDoViewModel.swift:48-57 | a load ends not loading, with exactly the fetched list and no message, or with an empty list and a message |
| ToDoViewModels.FailureDropsList | Momentum/ToDoView/ToDoViewModel.swift:66-109 | every failed command lands in `error(e)` whatever the prior state, so `todos` is empty and there is a message |
| ToDoViewModels.SuccessOutsideLoadedIsNoOp | Momentum/ToDoView/ToDoViewModel.swift:59-110 | outside `loaded`, a successful command leaves the state as it was |
| ToDoViewModels.CreatePrepends | Momentum/ToDoView/ToDoViewModel.swift:62-64 | in `loaded`, a successful create puts the new record in front of the unchanged list |
| ToDoViewModels.UpdateReplacesFirstMatch | Momentum/ToDoView/ToDoViewModel.swift:74-78 | in `loaded`, a successful update replaces the first record with the id and nothing else; without a match the state is unchanged |
| ToDoViewModels.DeleteRemovesEveryMatch | Momentum/ToDoView/ToDoViewModel.swift:88-90 | in `loaded`, a successful delete leaves no record with the id and keeps every other as often as it was there; with unique ids it equals the store's removal |
| ToDoViewModels.ToggleFlipsFirstMatch | Momentum/ToDoView/ToDoViewModel.swift:100-104 | in `loaded`, a successful toggle flips the first match, dates it with the view-model's `now` when it becomes completed and clears the date otherwise, keeps its id, title, notes and creation date, and changes nothing else; without a match the state is unchanged |
| ToDoViewModels.ToDoViewModel.constructor | Momentum/ToDoView/ToDoViewModel.swift:12 | the initial state is `idle` |
| ToDoViewModels.ToDoViewModel.LoadTodos | Momentum/ToDoView/ToDoViewModel.swift:48-57 | the state ends as `AfterLoad` of what the use case answered |
| ToDoViewModels.ToDoViewModel.CreateTodo | Momentum/ToDoView/ToDoViewModel.swift:59-69 | the use case is called in every state; its new world and answer, and the state as `AfterCreate` of that answer |
| ToDoViewModels.ToDoViewModel.UpdateTodo | Momentum/ToDoView/ToDoViewModel.swift:71-83 | the use case is called in every state; its new world and outcome, and the state as `AfterUpdate` |
| ToDoViewModels.ToDoViewModel.DeleteTodo | Momentum/ToDoView/ToDoViewModel.swift:85-95 | the use case is called in every state; its new world and outcome, and the state as `AfterDelete` |
| ToDoViewModels.ToDoViewModel.ToggleCompletion | Momentum/ToDoView/ToDoViewModel.swift:97-110 | the use case is called in every state; its new world and outcome, and the state as `AfterToggle` with the view-model's own clock reading |
| FeedViewModels.FetchOutcome | Momentum/FeedView/FeedViewModel.swift:58-65 | defines `fetchFeed`'s answer: `invalidURL` without a URL, otherwise the use case's answer reduced to its `results` (properties in `MissingUrl`, `InvalidUrlFromUseCase`, `FeedViewModel.FetchFeed`) |
| FeedViewModels.AfterLoadData | Momentum/FeedView/FeedViewModel.swift:36-53 | defines the three fields `loadData` ends with (properties in `LoadDataOutcome` and the lemmas below it) |
| FeedViewModels.LoadDataOutcome | Momentum/FeedView/FeedViewModel.swift:36-65 | a load ends not loading; on success the characters are exactly the results and there is no message; on failure the old characters remain and the message is the error's |
| FeedViewModels.MissingUrl | Momentum/FeedView/FeedViewModel.swift:59-61 | without a URL the use case is not consulted, the characters stay, and the message is "Invalid feed URL configuration" |
| FeedViewModels.InvalidUrlFromUseCase | Momentum/FeedView/FeedViewModel.swift:25-34 | an `invalidURL` thrown by the use case shows the same message as the missing URL |
| FeedViewModels.RetryClearsMessage | Momentum/FeedView/FeedViewModel.swift:39 | a successful load after any load leaves no message and the new results |
| FeedViewModels.FailedRefreshKeepsCharacters | Momentum/FeedView/FeedViewModel.swift:48-50 | a failed refresh keeps the characters of the last success and sets a message |
| FeedViewModels.LoadDataIdempotent | Momentum/FeedView/FeedViewModel.swift:36-53 | loading twice with the same answer ends as loading once |
| FeedViewModels.FeedViewModel.constructor | Momentum/FeedView/FeedViewModel.swift:16-23 | no characters, not loading, no message |
| FeedViewModels.FeedViewModel.LoadData | Momentum/FeedView/FeedViewModel.swift:36-53 | the three fields end as `AfterLoadData` of the fields before |
| FeedViewModels.FeedViewModel.FetchFeed | Momentum/FeedView/FeedViewModel.swift:58-65 | succeeds exactly when the URL is present and the use case succeeds, and then sets the characters to the results; on failure the characters are untouched and the error is the guard's or the use case's; flag and message are untouched |

The scenario methods replay the source's test cases through the classes:

- `MockToDoRepositories.CreationOrderScenario`, `DeleteScenario`, `ToggleTwiceScenario` and `UpdateMissingScenario`.
- `ToDoUseCases.BlankCreateScenario`, `ToDoUseCases.BlankUpdateScenario`.
- The `*Scenario` methods of `ToDoViewModels` and `FeedViewModels`.

They have no contract of their own; each ends in assertions that follow from the contracts above.

## Left out

- Concurrency: async/await, `@Observable`, `@MainActor`, overlapping loads and the DEBUG sleep (Momentum/FeedView/FeedViewModel.swift:42-46) are not modelled. Each command runs to completion before the next starts.
- `Date()` and `UUID()`: they are parameters. `Date` is an integer clock rather than a floating-point interval. `UUID()` is assumed fresh only where a lemma says so.
- SwiftData: `ModelContext` is a sequence of models in insertion order. `save()` and `fetch` failures are not modelled. A `#Predicate` fetch with `.first` is the first model with the id in that order.
- `ToDoModel` is a value. The object identity of SwiftData models is not modelled.
- MockToDoUseCase: its fields are fixed when the view-model captures it. Reconfiguring the mock between calls is not modelled for the to-do screen.
- `localizedDescription`: only `invalidURL`'s text is modelled. The texts Foundation generates for `notFound` and `emptyTitle` are placeholders. A foreign error carries its own text.
- ToDoUseCases.Trim: its contract promises only that the result is no longer than the title and neither starts nor ends with whitespace. That it is exactly the title without its leading and trailing whitespace is stated piecewise by `TrimLeading` and `TrimTrailing`, and for the guard by `BlankIffAllWhitespace`. Each character is one `char`, matched against the `.whitespaces` scalars.
- ToDoSequences.SortNewestFirst: is a stable insertion sort, so records created at the same instant keep their storage order. Swift's `sorted` and SwiftData's `SortDescriptor` leave ties unspecified, and the model fixes one order.
- NetworkService, FeedRepository, FeedUseCase, MockFeedRepository and MockFeedUseCase are not part of this model. The feed use case is a function from URL to a decoded feed or an error, passed to each `loadData`.
- FeedViewModels.FeedViewModel.constructor: takes no use case and no `debugDelay`. The use case is a parameter of each load, so a mock reconfigured between loads is covered.
- Constants: `Constants.url` is an optional parameter, absent when the URL text does not parse. URL parsing is not modelled.
- SwiftUI views, builders and the app entry point are not part of this model.
