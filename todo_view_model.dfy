/**
  `ToDoViewModel` of Momentum/ToDoView/ToDoViewModel.swift: a four-case state,
  the read-only views derived from it, and the five user commands. Every
  command calls the use case whatever the state; only the local patch on
  success is guarded by `loaded`, and any failure replaces the state by
  `error`, which carries the error and nothing else.
*/
module ToDoViewModels {
  import opened Wrappers
  import Errors
  import opened ToDoEntities
  import opened ToDoSequences
  import opened ToDoUseCases
  import opened MockToDoUseCases

  /** `ToDoViewModel.State`. */
  datatype State = Idle | Loading | Loaded(items: seq<ToDoEntity>) | Error(cause: Errors.Error) {

    /** `todos`: the payload when loaded, otherwise empty. */
    function Todos(): seq<ToDoEntity> {
      if Loaded? then items else []
    }

    /** `isLoading`. */
    predicate IsLoading() {
      Loading?
    }

    /** `errorMessage`: the error's description in the error state, otherwise none. */
    function ErrorMessage(): Option<string> {
      if Error? then Some(Errors.LocalizedDescription(cause)) else None
    }

    /** `activeTodos`. */
    function ActiveTodos(): seq<ToDoEntity> {
      FilterCompleted(Todos(), false)
    }

    /** `completedTodos`. */
    function CompletedTodos(): seq<ToDoEntity> {
      FilterCompleted(Todos(), true)
    }
  }

  /**
    The derived views follow the case: `todos` is the payload exactly when
    loaded, `isLoading` holds exactly when loading, `errorMessage` is set
    exactly in the error state; and the active and completed views split
    `todos` between them, each holding only its kind.
  */
  lemma DerivedViews(s: State)
    ensures s.Todos() == (if s.Loaded? then s.items else [])
    ensures s.IsLoading() <==> s.Loading?
    ensures s.ErrorMessage().Some? <==> s.Error?
    ensures multiset(s.ActiveTodos()) + multiset(s.CompletedTodos()) == multiset(s.Todos())
    ensures |s.ActiveTodos()| + |s.CompletedTodos()| == |s.Todos()|
    ensures forall k :: 0 <= k < |s.ActiveTodos()| ==> !s.ActiveTodos()[k].isCompleted
    ensures forall k :: 0 <= k < |s.CompletedTodos()| ==> s.CompletedTodos()[k].isCompleted
  {
    FiltersPartition(s.Todos());
  }

  /** The state `loadTodos` ends in, given what `fetchAll` returned. */
  function AfterLoad(fetched: Result<seq<ToDoEntity>, Errors.Error>): State {
    match fetched
    case Success(todos) => Loaded(todos)
    case Failure(e) => Error(e)
  }

  /** The state `createTodo` ends in, given the state before and what `create` returned. */
  function AfterCreate(s: State, created: Result<ToDoEntity, Errors.Error>): State {
    match created
    case Failure(e) => Error(e)
    case Success(todo) => if s.Loaded? then Loaded([todo] + s.items) else s
  }

  /** The state `updateTodo` ends in. */
  function AfterUpdate(s: State, todo: ToDoEntity, outcome: Outcome<Errors.Error>): State {
    match outcome
    case Fail(e) => Error(e)
    case Pass =>
      if s.Loaded? then
        match FirstIndex(s.items, todo.id)
        case Some(i) => Loaded(s.items[i := todo])
        case None => s
      else s
  }

  /** The state `deleteTodo` ends in. */
  function AfterDelete(s: State, id: Uuid, outcome: Outcome<Errors.Error>): State {
    match outcome
    case Fail(e) => Error(e)
    case Pass => if s.Loaded? then Loaded(RemoveAllWithId(s.items, id)) else s
  }

  /** The state `toggleCompletion` ends in; `now` is the view-model's own `Date()`. */
  function AfterToggle(s: State, id: Uuid, now: Timestamp, outcome: Outcome<Errors.Error>): State {
    match outcome
    case Fail(e) => Error(e)
    case Pass =>
      if s.Loaded? then
        match FirstIndex(s.items, id)
        case Some(i) => Loaded(s.items[i := Toggled(s.items[i], now)])
        case None => s
      else s
  }

  /** `loadTodos` ends loaded with exactly the fetched list, or in the error state with an empty `todos`. */
  lemma LoadOutcome(fetched: Result<seq<ToDoEntity>, Errors.Error>)
    ensures !AfterLoad(fetched).IsLoading()
    ensures fetched.Success? ==> AfterLoad(fetched).Todos() == fetched.value && AfterLoad(fetched).ErrorMessage() == None
    ensures fetched.Failure? ==> AfterLoad(fetched).Todos() == [] && AfterLoad(fetched).ErrorMessage().Some?
  {
  }

  /**
    A failed command lands in `error(e)` whatever the state was, so the
    list the view shows becomes empty: nothing from before is preserved.
  */
  lemma FailureDropsList(s: State, e: Errors.Error, todo: ToDoEntity, id: Uuid, now: Timestamp)
    ensures AfterCreate(s, Failure(e)) == Error(e)
    ensures AfterUpdate(s, todo, Fail(e)) == Error(e)
    ensures AfterDelete(s, id, Fail(e)) == Error(e)
    ensures AfterToggle(s, id, now, Fail(e)) == Error(e)
    ensures Error(e).Todos() == [] && Error(e).ErrorMessage().Some? && !Error(e).IsLoading()
  {
  }

  /** Outside `loaded`, a successful command leaves the state as it was. */
  lemma SuccessOutsideLoadedIsNoOp(s: State, created: ToDoEntity, todo: ToDoEntity, id: Uuid, now: Timestamp)
    requires !s.Loaded?
    ensures AfterCreate(s, Success(created)) == s
    ensures AfterUpdate(s, todo, Pass) == s
    ensures AfterDelete(s, id, Pass) == s
    ensures AfterToggle(s, id, now, Pass) == s
  {
  }

  /** A successful create in `loaded` puts the new record in front of the list. */
  lemma CreatePrepends(items: seq<ToDoEntity>, created: ToDoEntity)
    ensures var after := AfterCreate(Loaded(items), Success(created)).Todos();
      |after| == |items| + 1 && after[0] == created && after[1..] == items
  {
  }

  /**
    A successful update in `loaded` replaces the first record with the same id
    and nothing else; with no such record the state is unchanged.
  */
  lemma UpdateReplacesFirstMatch(items: seq<ToDoEntity>, todo: ToDoEntity)
    ensures !ContainsId(items, todo.id) ==> AfterUpdate(Loaded(items), todo, Pass) == Loaded(items)
    ensures ContainsId(items, todo.id) ==>
      var i := FirstIndex(items, todo.id).value;
      var after := AfterUpdate(Loaded(items), todo, Pass).Todos();
      |after| == |items| && after[i] == todo && forall k :: 0 <= k < |items| && k != i ==> after[k] == items[k]
  {
  }

  /**
    A successful delete in `loaded` removes every record with the id and keeps
    each other record as often as it was there; on a list whose ids are unique
    it is exactly the store's removal of the first match.
  */
  lemma DeleteRemovesEveryMatch(items: seq<ToDoEntity>, id: Uuid, other: ToDoEntity)
    requires other.id != id
    ensures var after := AfterDelete(Loaded(items), id, Pass).Todos();
      !ContainsId(after, id) && multiset(after)[other] == multiset(items)[other]
    ensures UniqueIds(items) && ContainsId(items, id) ==>
      AfterDelete(Loaded(items), id, Pass).Todos() == RemoveAt(items, FirstIndex(items, id).value)
  {
    RemoveAllKeepsOthers(items, id, other);
    if UniqueIds(items) && ContainsId(items, id) {
      RemoveAllIsRemoveAtFirst(items, id);
    }
  }

  /**
    A successful toggle in `loaded` flips the first match, stamps it with the
    view-model's `now` when it becomes completed and clears its date otherwise,
    and keeps its other fields; nothing else changes. With no such record the
    state is unchanged.
  */
  lemma ToggleFlipsFirstMatch(items: seq<ToDoEntity>, id: Uuid, now: Timestamp)
    ensures !ContainsId(items, id) ==> AfterToggle(Loaded(items), id, now, Pass) == Loaded(items)
    ensures ContainsId(items, id) ==>
      var i := FirstIndex(items, id).value;
      var after := AfterToggle(Loaded(items), id, now, Pass).Todos();
      |after| == |items| && after[i].isCompleted == !items[i].isCompleted &&
      after[i].completedAt == (if after[i].isCompleted then Some(now) else None) &&
      after[i].id == items[i].id && after[i].title == items[i].title && after[i].notes == items[i].notes &&
      after[i].createdAt == items[i].createdAt &&
      forall k :: 0 <= k < |items| && k != i ==> after[k] == items[k]
  {
  }

  /** The to-do screen's view-model. */
  class ToDoViewModel {
    var state: State
    const useCase: AnyToDoUseCase

    /** `init(useCase:)`: the initial state is `idle`. */
    constructor (useCase: AnyToDoUseCase)
      ensures state == Idle && this.useCase == useCase
    {
      state := Idle;
      this.useCase := useCase;
    }

    /** `loadTodos`: `loading`, then `loaded(list)` or `error(e)`. */
    method LoadTodos() returns (ghost fetched: Result<seq<ToDoEntity>, Errors.Error>)
      modifies this
      ensures fetched == WorldFetchAll(useCase.World())
      ensures state == AfterLoad(fetched)
    {
      state := Loading;
      var r := useCase.FetchAll();
      fetched := r;
      match r {
        case Success(todos) => state := Loaded(todos);
        case Failure(e) => state := Error(e);
      }
    }

    /** `createTodo(title:notes:)`: the id and time stand for the use case's `UUID()` and `Date()`. */
    method CreateTodo(title: string, notes: Option<string>, freshId: Uuid, now: Timestamp)
      returns (ghost created: Result<ToDoEntity, Errors.Error>)
      modifies this, useCase.Footprint()
      ensures (useCase.World(), created) == WorldCreate(old(useCase.World()), title, notes, freshId, now)
      ensures state == AfterCreate(old(state), created)
    {
      assert this !in useCase.Footprint();
      var before := state;
      var r := useCase.Create(title, notes, freshId, now);
      assert state == before;
      ghost var world := useCase.World();
      created := r;
      match r {
        case Success(newTodo) =>
          if state.Loaded? {
            var todos := state.items;
            todos := [newTodo] + todos;
            state := Loaded(todos);
          }
        case Failure(e) => state := Error(e);
      }
      assert useCase.World() == world;
    }

    /** `updateTodo(_:)`. */
    method UpdateTodo(todo: ToDoEntity) returns (ghost outcome: Outcome<Errors.Error>)
      modifies this, useCase.Footprint()
      ensures (useCase.World(), outcome) == WorldUpdate(old(useCase.World()), todo)
      ensures state == AfterUpdate(old(state), todo, outcome)
    {
      assert this !in useCase.Footprint();
      var before := state;
      var r := useCase.Update(todo);
      assert state == before;
      ghost var world := useCase.World();
      outcome := r;
      match r {
        case Pass =>
          if state.Loaded? {
            var todos := state.items;
            var index := FirstIndex(todos, todo.id);
            if index.Some? {
              todos := todos[index.value := todo];
              state := Loaded(todos);
            }
          }
        case Fail(e) => state := Error(e);
      }
      assert useCase.World() == world;
    }

    /** `deleteTodo(_:)`. */
    method DeleteTodo(id: Uuid) returns (ghost outcome: Outcome<Errors.Error>)
      modifies this, useCase.Footprint()
      ensures (useCase.World(), outcome) == WorldDelete(old(useCase.World()), id)
      ensures state == AfterDelete(old(state), id, outcome)
    {
      assert this !in useCase.Footprint();
      var before := state;
      var r := useCase.Delete(id);
      assert state == before;
      ghost var world := useCase.World();
      outcome := r;
      match r {
        case Pass =>
          if state.Loaded? {
            var todos := state.items;
            todos := RemoveAllWithId(todos, id);
            state := Loaded(todos);
          }
        case Fail(e) => state := Error(e);
      }
      assert useCase.World() == world;
    }

    /**
      `toggleCompletion(_:)`: `storeNow` is the `Date()` the store stamps,
      `now` the one the view-model stamps on its local copy.
    */
    method ToggleCompletion(id: Uuid, storeNow: Timestamp, now: Timestamp) returns (ghost outcome: Outcome<Errors.Error>)
      modifies this, useCase.Footprint()
      ensures (useCase.World(), outcome) == WorldToggle(old(useCase.World()), id, storeNow)
      ensures state == AfterToggle(old(state), id, now, outcome)
    {
      assert this !in useCase.Footprint();
      var before := state;
      var r := useCase.ToggleCompletion(id, storeNow);
      assert state == before;
      ghost var world := useCase.World();
      outcome := r;
      match r {
        case Pass =>
          if state.Loaded? {
            var todos := state.items;
            var index := FirstIndex(todos, id);
            if index.Some? {
              var i := index.value;
              todos := todos[i := todos[i].(isCompleted := !todos[i].isCompleted)];
              todos := todos[i := todos[i].(completedAt := if todos[i].isCompleted then Some(now) else None)];
              assert todos == state.items[i := Toggled(state.items[i], now)];
              state := Loaded(todos);
            }
          }
        case Fail(e) => state := Error(e);
      }
      assert useCase.World() == world;
    }
  }

  /** A stub use case whose `fetchAll` succeeds with `todos`; nothing else configured. */
  function StubLoading(todos: seq<ToDoEntity>): AnyToDoUseCase {
    Stub(FreshMock.(fetchAllResult := Success(todos)))
  }

  /** Load, then create with the stub unconfigured: the one new record heads the list. */
  method CreateAfterLoadScenario(freshId: Uuid, now: Timestamp) {
    var vm := new ToDoViewModel(StubLoading([]));
    assert vm.state.Todos() == [] && !vm.state.IsLoading();
    ghost var fetched := vm.LoadTodos();
    assert vm.state.Todos() == [] && !vm.state.IsLoading();
    ghost var created := vm.CreateTodo("New Task", Some("New Note"), freshId, now);
    assert vm.state.Todos() == [MakeToDo(freshId, "New Task", now, Some("New Note"))];
  }

  /** Three creates after an empty load: three records, the latest first. */
  method RapidCreatesScenario(a: Uuid, b: Uuid, c: Uuid, t1: Timestamp, t2: Timestamp, t3: Timestamp) {
    var vm := new ToDoViewModel(StubLoading([]));
    ghost var fetched := vm.LoadTodos();
    ghost var r1 := vm.CreateTodo("Task 1", None, a, t1);
    ghost var r2 := vm.CreateTodo("Task 2", None, b, t2);
    ghost var r3 := vm.CreateTodo("Task 3", None, c, t3);
    assert |vm.state.Todos()| == 3;
    assert vm.state.Todos()[0].title == "Task 3" && vm.state.Todos()[2].title == "Task 1";
  }

  /** Deleting the first of two loaded records leaves only the second. */
  method DeleteScenario(todo1: ToDoEntity, todo2: ToDoEntity)
    requires todo1.id != todo2.id
  {
    var vm := new ToDoViewModel(StubLoading([todo1, todo2]));
    ghost var fetched := vm.LoadTodos();
    assert vm.state == Loaded([todo1, todo2]);
    ghost var outcome := vm.DeleteTodo(todo1.id);
    assert outcome == Pass;
    assert [todo1, todo2][1..] == [todo2] && [todo2][1..] == [];
    assert RemoveAllWithId([todo2], todo1.id) == [todo2];
    assert vm.state.Todos() == [todo2];
  }

  /** Toggling a loaded open record completes it and stamps the view-model's time. */
  method ToggleScenario(todo: ToDoEntity, storeNow: Timestamp, now: Timestamp)
    requires !todo.isCompleted
  {
    var vm := new ToDoViewModel(StubLoading([todo]));
    ghost var fetched := vm.LoadTodos();
    ghost var outcome := vm.ToggleCompletion(todo.id, storeNow, now);
    assert vm.state.Todos()[0].isCompleted && vm.state.Todos()[0].completedAt == Some(now);
  }

  /** An update of a loaded record replaces it with the argument. */
  method UpdateScenario(todo: ToDoEntity, title: string, notes: Option<string>) {
    var vm := new ToDoViewModel(StubLoading([todo]));
    ghost var fetched := vm.LoadTodos();
    ghost var outcome := vm.UpdateTodo(todo.(title := title, notes := notes));
    assert vm.state.Todos() == [todo.(title := title, notes := notes)];
  }

  /**
    A delete that fails after a successful load drops the list: the error
    state carries no data, so `todos` is empty afterwards, not the one record
    loaded before.
  */
  method DeleteFailureScenario(todo: ToDoEntity, e: Errors.Error) {
    var vm := new ToDoViewModel(Stub(FreshMock.(fetchAllResult := Success([todo]), deleteError := Some(e))));
    ghost var fetched := vm.LoadTodos();
    assert |vm.state.Todos()| == 1;
    ghost var outcome := vm.DeleteTodo(todo.id);
    assert vm.state.ErrorMessage().Some? && vm.state.Todos() == [];
  }

  /** A toggle that fails likewise leaves no first record to inspect. */
  method ToggleFailureScenario(todo: ToDoEntity, e: Errors.Error, storeNow: Timestamp, now: Timestamp) {
    var vm := new ToDoViewModel(Stub(FreshMock.(fetchAllResult := Success([todo]), toggleCompletionError := Some(e))));
    ghost var fetched := vm.LoadTodos();
    ghost var outcome := vm.ToggleCompletion(todo.id, storeNow, now);
    assert vm.state.ErrorMessage().Some? && vm.state.Todos() == [];
  }

  /** A create that fails after a successful empty load: an error message and no records. */
  method CreateFailureScenario(e: Errors.Error, freshId: Uuid, now: Timestamp) {
    var vm := new ToDoViewModel(Stub(FreshMock.(createResult := Some(Failure(e)))));
    ghost var fetched := vm.LoadTodos();
    ghost var created := vm.CreateTodo("Task", None, freshId, now);
    assert vm.state.ErrorMessage().Some? && vm.state.Todos() == [];
  }
}
