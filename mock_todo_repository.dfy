/**
  `MockToDoRepository` of Momentum/Repository/MockToDoRepository.swift: the
  in-memory store over a private `todos` array. Each operation is given twice:
  as a transition function on the array (what the operation computes) and as a
  method of the class that performs it in place and is proved to agree.
*/
module MockToDoRepositories {
  import opened Wrappers
  import opened Errors
  import opened ToDoEntities
  import opened ToDoSequences

  /** `create`: append a fresh incomplete record, untouched earlier records, and return it. */
  function CreateInMemory(todos: seq<ToDoEntity>, title: string, notes: Option<string>,
                          freshId: Uuid, now: Timestamp): (r: (seq<ToDoEntity>, ToDoEntity))
    ensures |r.0| == |todos| + 1 && r.0[..|todos|] == todos && r.0[|todos|] == r.1
    ensures r.1.id == freshId && r.1.title == title && r.1.notes == notes && r.1.createdAt == now
    ensures !r.1.isCompleted && r.1.completedAt == None
  {
    var todo := MakeToDo(freshId, title, now, notes);
    (todos + [todo], todo)
  }

  /** `update`: replace the whole record at the first index with the same id, `createdAt` included. */
  function UpdateInMemory(todos: seq<ToDoEntity>, todo: ToDoEntity): (r: (seq<ToDoEntity>, Outcome<Error>))
    ensures r.1 == Fail(NotFound) <==> !ContainsId(todos, todo.id)
    ensures r.1.Fail? ==> r.1 == Fail(NotFound) && r.0 == todos
    ensures r.1 == Pass ==>
      var i := FirstIndex(todos, todo.id).value;
      |r.0| == |todos| && r.0[i] == todo &&
      forall k :: 0 <= k < |todos| && k != i ==> r.0[k] == todos[k]
  {
    match FirstIndex(todos, todo.id)
    case None => (todos, Fail(NotFound))
    case Some(i) => (todos[i := todo], Pass)
  }

  /** `delete`: remove exactly the first record with the id; the others keep their order. */
  function DeleteInMemory(todos: seq<ToDoEntity>, id: Uuid): (r: (seq<ToDoEntity>, Outcome<Error>))
    ensures r.1 == Fail(NotFound) <==> !ContainsId(todos, id)
    ensures r.1.Fail? ==> r.1 == Fail(NotFound) && r.0 == todos
    ensures r.1 == Pass ==>
      var i := FirstIndex(todos, id).value;
      |r.0| == |todos| - 1 && r.0 == todos[..i] + todos[i + 1..]
  {
    match FirstIndex(todos, id)
    case None => (todos, Fail(NotFound))
    case Some(i) => (RemoveAt(todos, i), Pass)
  }

  /** `toggleCompletion`: flip and stamp the first record with the id; nothing else changes. */
  function ToggleInMemory(todos: seq<ToDoEntity>, id: Uuid, now: Timestamp): (r: (seq<ToDoEntity>, Outcome<Error>))
    ensures r.1 == Fail(NotFound) <==> !ContainsId(todos, id)
    ensures r.1.Fail? ==> r.1 == Fail(NotFound) && r.0 == todos
    ensures r.1 == Pass ==>
      var i := FirstIndex(todos, id).value;
      |r.0| == |todos| && r.0[i].isCompleted == !todos[i].isCompleted &&
      CompletionConsistent(r.0[i]) && (r.0[i].isCompleted ==> r.0[i].completedAt == Some(now)) &&
      r.0[i].id == todos[i].id && r.0[i].title == todos[i].title &&
      r.0[i].notes == todos[i].notes && r.0[i].createdAt == todos[i].createdAt &&
      forall k :: 0 <= k < |todos| && k != i ==> r.0[k] == todos[k]
  {
    match FirstIndex(todos, id)
    case None => (todos, Fail(NotFound))
    case Some(i) => (todos[i := Toggled(todos[i], now)], Pass)
  }

  /** Ids stay pairwise distinct under every operation, given that `create` draws a fresh id. */
  lemma InMemoryKeepsIdsUnique(todos: seq<ToDoEntity>, title: string, notes: Option<string>,
                               freshId: Uuid, todo: ToDoEntity, id: Uuid, now: Timestamp)
    requires UniqueIds(todos)
    ensures !ContainsId(todos, freshId) ==> UniqueIds(CreateInMemory(todos, title, notes, freshId, now).0)
    ensures UniqueIds(UpdateInMemory(todos, todo).0)
    ensures UniqueIds(DeleteInMemory(todos, id).0)
    ensures UniqueIds(ToggleInMemory(todos, id, now).0)
  {
    if !ContainsId(todos, freshId) {
      AppendFreshKeepsUniqueIds(todos, MakeToDo(freshId, title, now, notes));
    }
    match FirstIndex(todos, todo.id) {
      case None =>
      case Some(i) => ReplaceKeepsIds(todos, i, todo);
    }
    match FirstIndex(todos, id) {
      case None =>
      case Some(i) =>
        RemoveKeepsUniqueIds(todos, i);
        ReplaceKeepsIds(todos, i, Toggled(todos[i], now));
    }
  }

  /**
    Toggling the same id twice restores the store when that record started
    incomplete without a completion date, whatever the two clock readings.
  */
  lemma ToggleTwiceInMemory(todos: seq<ToDoEntity>, id: Uuid, first: Timestamp, second: Timestamp)
    requires ContainsId(todos, id)
    requires var t := todos[FirstIndex(todos, id).value]; !t.isCompleted && t.completedAt == None
    ensures var once := ToggleInMemory(todos, id, first);
      once.1 == Pass && ToggleInMemory(once.0, id, second) == (todos, Pass)
  {
    var i := FirstIndex(todos, id).value;
    var once := todos[i := Toggled(todos[i], first)];
    ReplaceKeepsIds(todos, i, Toggled(todos[i], first));
    assert FirstIndex(once, id) == Some(i);
    ToggleTwice(todos[i], first, second);
    assert once[i := Toggled(once[i], second)] == todos;
  }

  /** The in-memory store. */
  class MockToDoRepository {
    var todos: seq<ToDoEntity>

    /** A new repository holds no records. */
    constructor ()
      ensures todos == []
    {
      todos := [];
    }

    /** `fetchAll`: a newest-first permutation of the store; the store is not changed. */
    method FetchAll() returns (r: seq<ToDoEntity>)
      ensures SortedNewestFirst(r)
      ensures multiset(r) == multiset(todos)
      ensures r == SortNewestFirst(todos)
    {
      r := SortNewestFirst(todos);
    }

    /** `create(title:notes:)`: the id stands for `UUID()` and the timestamp for `Date()`. */
    method Create(title: string, notes: Option<string>, freshId: Uuid, now: Timestamp) returns (todo: ToDoEntity)
      modifies this
      ensures (todos, todo) == CreateInMemory(old(todos), title, notes, freshId, now)
    {
      todo := MakeToDo(freshId, title, now, notes);
      todos := todos + [todo];
    }

    /** `update(_:)`. */
    method Update(todo: ToDoEntity) returns (outcome: Outcome<Error>)
      modifies this
      ensures (todos, outcome) == UpdateInMemory(old(todos), todo)
    {
      var index := FirstIndex(todos, todo.id);
      if index.None? {
        return Fail(NotFound);
      }
      todos := todos[index.value := todo];
      outcome := Pass;
    }

    /** `delete(_:)`. */
    method Delete(id: Uuid) returns (outcome: Outcome<Error>)
      modifies this
      ensures (todos, outcome) == DeleteInMemory(old(todos), id)
    {
      var index := FirstIndex(todos, id);
      if index.None? {
        return Fail(NotFound);
      }
      todos := todos[..index.value] + todos[index.value + 1..];
      outcome := Pass;
    }

    /** `toggleCompletion(_:)`: the timestamp stands for `Date()`. */
    method ToggleCompletion(id: Uuid, now: Timestamp) returns (outcome: Outcome<Error>)
      modifies this
      ensures (todos, outcome) == ToggleInMemory(old(todos), id, now)
    {
      var index := FirstIndex(todos, id);
      if index.None? {
        return Fail(NotFound);
      }
      var i := index.value;
      todos := todos[i := todos[i].(isCompleted := !todos[i].isCompleted)];
      todos := todos[i := todos[i].(completedAt := if todos[i].isCompleted then Some(now) else None)];
      assert todos == old(todos)[i := Toggled(old(todos)[i], now)];
      outcome := Pass;
    }
  }

  /** Three records listed oldest first, reversed. */
  lemma ReverseOfThree(todo1: ToDoEntity, todo2: ToDoEntity, todo3: ToDoEntity)
    ensures Reverse([todo1, todo2, todo3]) == [todo3, todo2, todo1]
  {
    var r := Reverse([todo1, todo2, todo3]);
    assert |r| == 3 && r[0] == todo3 && r[1] == todo2 && r[2] == todo1;
  }

  /** Three records created one after another come back newest first. */
  lemma ThreeCreatedInOrder(todo1: ToDoEntity, todo2: ToDoEntity, todo3: ToDoEntity)
    requires todo1.createdAt < todo2.createdAt < todo3.createdAt
    ensures SortNewestFirst([todo1, todo2, todo3]) == [todo3, todo2, todo1]
  {
    assert CreatedStrictlyInOrder([todo1, todo2, todo3]);
    SortOfCreationOrderIsReverse([todo1, todo2, todo3]);
    ReverseOfThree(todo1, todo2, todo3);
  }

  /**
    Three creates at strictly increasing times come back newest first. With
    two equal clock readings the relative order of the tied records would be
    whatever the sort leaves.
  */
  method CreationOrderScenario(a: Uuid, b: Uuid, c: Uuid, t1: Timestamp, t2: Timestamp, t3: Timestamp)
    requires t1 < t2 < t3
  {
    var repo := new MockToDoRepository();
    var todo1 := repo.Create("First", None, a, t1);
    var todo2 := repo.Create("Second", None, b, t2);
    var todo3 := repo.Create("Third", None, c, t3);
    assert repo.todos == [todo1, todo2, todo3];
    assert todo1.createdAt == t1 && todo2.createdAt == t2 && todo3.createdAt == t3;
    ThreeCreatedInOrder(todo1, todo2, todo3);
    var todos := repo.FetchAll();
    assert todos == [todo3, todo2, todo1];
  }

  /** Deleting the first of two records leaves the second; a second delete of it reports `notFound`. */
  method DeleteScenario(a: Uuid, b: Uuid, t1: Timestamp, t2: Timestamp)
    requires a != b
  {
    var repo := new MockToDoRepository();
    var todo1 := repo.Create("Task 1", None, a, t1);
    var todo2 := repo.Create("Task 2", None, b, t2);
    var outcome := repo.Delete(todo1.id);
    assert outcome == Pass && repo.todos == [todo2];
    outcome := repo.Delete(todo1.id);
    assert outcome == Fail(NotFound) && repo.todos == [todo2];
  }

  /** Toggling a new record once completes it; toggling it again restores it. */
  method ToggleTwiceScenario(a: Uuid, t0: Timestamp, t1: Timestamp, t2: Timestamp) {
    var repo := new MockToDoRepository();
    var todo := repo.Create("Task", None, a, t0);
    var outcome := repo.ToggleCompletion(todo.id, t1);
    assert repo.todos[0].isCompleted && repo.todos[0].completedAt == Some(t1);
    outcome := repo.ToggleCompletion(todo.id, t2);
    assert repo.todos == [todo];
  }

  /** An update of a record nobody stored reports `notFound` and changes nothing. */
  method UpdateMissingScenario(todo: ToDoEntity) {
    var repo := new MockToDoRepository();
    var outcome := repo.Update(todo);
    assert outcome == Fail(NotFound) && repo.todos == [];
  }
}
