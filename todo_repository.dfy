/**
  The durable store of Momentum/Repository/ToDoRepository.swift, with the
  `ToDoModel` record of Momentum/Repository/ToDoModel.swift. The SwiftData
  `ModelContext` is the sequence of stored models, in insertion order; a
  `FetchDescriptor` with an id predicate followed by `.first` is the first model
  with that id. Also `ToDoRepositoryProtocol`: its two conforming stores.
*/
module ToDoRepositories {
  import opened Wrappers
  import opened Errors
  import opened ToDoEntities
  import opened ToDoSequences
  import opened MockToDoRepositories

  /** The persisted `@Model` record; every field is a `var`. */
  datatype ToDoModel = ToDoModel(
    id: Uuid,
    title: string,
    notes: Option<string>,
    isCompleted: bool,
    createdAt: Timestamp,
    completedAt: Option<Timestamp>)

  /** The model's initializer with its defaults (`title` defaults to the empty string). */
  function NewModel(
    id: Uuid,
    createdAt: Timestamp,
    title: string := "",
    notes: Option<string> := None,
    isCompleted: bool := false,
    completedAt: Option<Timestamp> := None): (m: ToDoModel)
    ensures m.id == id && m.title == title && m.notes == notes
    ensures m.isCompleted == isCompleted && m.createdAt == createdAt && m.completedAt == completedAt
  {
    ToDoModel(id, title, notes, isCompleted, createdAt, completedAt)
  }

  /** `toEntity()`: copies all six fields unchanged. */
  function ToEntity(m: ToDoModel): (t: ToDoEntity)
    ensures t.id == m.id && t.title == m.title && t.notes == m.notes
    ensures t.isCompleted == m.isCompleted && t.createdAt == m.createdAt && t.completedAt == m.completedAt
  {
    ToDoEntity(m.id, m.title, m.notes, m.isCompleted, m.createdAt, m.completedAt)
  }

  /** `models.map { $0.toEntity() }`. */
  function Entities(context: seq<ToDoModel>): (r: seq<ToDoEntity>)
    ensures |r| == |context|
    ensures forall k :: 0 <= k < |context| ==> r[k] == ToEntity(context[k])
  {
    if context == [] then [] else [ToEntity(context[0])] + Entities(context[1..])
  }

  /** `toEntity` loses nothing: distinct models give distinct entities. */
  lemma ToEntityInjective(a: ToDoModel, b: ToDoModel)
    ensures ToEntity(a) == ToEntity(b) ==> a == b
  {
  }

  /** The four assignments of `update`: title, notes, isCompleted and completedAt, and nothing else. */
  function ApplyUpdate(m: ToDoModel, todo: ToDoEntity): (r: ToDoModel)
    ensures r.id == m.id && r.createdAt == m.createdAt
    ensures r.title == todo.title && r.notes == todo.notes
    ensures r.isCompleted == todo.isCompleted && r.completedAt == todo.completedAt
  {
    m.(title := todo.title, notes := todo.notes, isCompleted := todo.isCompleted, completedAt := todo.completedAt)
  }

  /** The stored record reads back as the argument exactly when the argument kept the stored id and `createdAt`. */
  lemma ApplyUpdateRoundTrip(m: ToDoModel, todo: ToDoEntity)
    ensures ToEntity(ApplyUpdate(m, todo)) == todo <==> todo.id == m.id && todo.createdAt == m.createdAt
  {
  }

  /** `model.isCompleted.toggle()` and `model.completedAt = model.isCompleted ? now : nil`. */
  function ToggledModel(m: ToDoModel, now: Timestamp): (r: ToDoModel)
    ensures ToEntity(r) == Toggled(ToEntity(m), now)
  {
    var done := !m.isCompleted;
    m.(isCompleted := done, completedAt := if done then Some(now) else None)
  }

  /** Replacing one model replaces the one entity it reads back as. */
  lemma {:induction false} EntitiesOfReplace(context: seq<ToDoModel>, i: nat, m: ToDoModel)
    requires i < |context|
    ensures Entities(context[i := m]) == Entities(context)[i := ToEntity(m)]
  {
  }

  /** Deleting one model deletes the one entity it reads back as. */
  lemma {:induction false} EntitiesOfRemove(context: seq<ToDoModel>, i: nat)
    requires i < |context|
    ensures Entities(context[..i] + context[i + 1..]) == RemoveAt(Entities(context), i)
  {
    var smaller := context[..i] + context[i + 1..];
    var a, b := Entities(smaller), RemoveAt(Entities(context), i);
    forall k | 0 <= k < |a| ensures a[k] == b[k] {
      if k < i {
        assert smaller[k] == context[k];
      } else {
        assert smaller[k] == context[k + 1];
      }
    }
  }

  /** `fetchAll`: every stored record, newest first. */
  function FetchAllStored(context: seq<ToDoModel>): (r: seq<ToDoEntity>)
    ensures SortedNewestFirst(r)
    ensures multiset(r) == multiset(Entities(context))
  {
    SortNewestFirst(Entities(context))
  }

  /** `create`: insert one new incomplete model and return its entity. */
  function CreateStored(context: seq<ToDoModel>, title: string, notes: Option<string>,
                        freshId: Uuid, now: Timestamp): (r: (seq<ToDoModel>, ToDoEntity))
    ensures |r.0| == |context| + 1 && r.0[..|context|] == context && ToEntity(r.0[|context|]) == r.1
    ensures r.1.id == freshId && r.1.title == title && r.1.notes == notes && r.1.createdAt == now
    ensures !r.1.isCompleted && r.1.completedAt == None
  {
    var model := NewModel(freshId, now, title, notes);
    (context + [model], ToEntity(model))
  }

  /** `update`: overwrite the four mutable fields of the first model with the id; keep its id and `createdAt`. */
  function UpdateStored(context: seq<ToDoModel>, todo: ToDoEntity): (r: (seq<ToDoModel>, Outcome<Error>))
    ensures r.1 == Fail(NotFound) <==> !ContainsId(Entities(context), todo.id)
    ensures r.1.Fail? ==> r.1 == Fail(NotFound) && r.0 == context
    ensures r.1 == Pass ==>
      var i := FirstIndex(Entities(context), todo.id).value;
      |r.0| == |context| && r.0[i].id == context[i].id && r.0[i].createdAt == context[i].createdAt &&
      ToEntity(r.0[i]) == todo.(createdAt := context[i].createdAt) &&
      forall k :: 0 <= k < |context| && k != i ==> r.0[k] == context[k]
  {
    match FirstIndex(Entities(context), todo.id)
    case None => (context, Fail(NotFound))
    case Some(i) => (context[i := ApplyUpdate(context[i], todo)], Pass)
  }

  /** Read back through `toEntity`, a successful update stores the argument with the stored `createdAt`. */
  lemma UpdateStoredReadsBack(context: seq<ToDoModel>, todo: ToDoEntity)
    ensures UpdateStored(context, todo).1 == Pass ==>
      var i := FirstIndex(Entities(context), todo.id).value;
      Entities(UpdateStored(context, todo).0) == Entities(context)[i := todo.(createdAt := context[i].createdAt)]
  {
    match FirstIndex(Entities(context), todo.id) {
      case None =>
      case Some(i) => EntitiesOfReplace(context, i, ApplyUpdate(context[i], todo));
    }
  }

  /** `delete`: remove the first model with the id, and no other. */
  function DeleteStored(context: seq<ToDoModel>, id: Uuid): (r: (seq<ToDoModel>, Outcome<Error>))
    ensures r.1 == Fail(NotFound) <==> !ContainsId(Entities(context), id)
    ensures r.1.Fail? ==> r.1 == Fail(NotFound) && r.0 == context
    ensures r.1 == Pass ==>
      var i := FirstIndex(Entities(context), id).value;
      r.0 == context[..i] + context[i + 1..]
  {
    match FirstIndex(Entities(context), id)
    case None => (context, Fail(NotFound))
    case Some(i) => (context[..i] + context[i + 1..], Pass)
  }

  /** `toggleCompletion`: flip `isCompleted` of the first model with the id and stamp or clear `completedAt`. */
  function ToggleStored(context: seq<ToDoModel>, id: Uuid, now: Timestamp): (r: (seq<ToDoModel>, Outcome<Error>))
    ensures r.1 == Fail(NotFound) <==> !ContainsId(Entities(context), id)
    ensures r.1.Fail? ==> r.1 == Fail(NotFound) && r.0 == context
    ensures r.1 == Pass ==>
      var i := FirstIndex(Entities(context), id).value;
      |r.0| == |context| && r.0[i].isCompleted == !context[i].isCompleted &&
      CompletionConsistent(ToEntity(r.0[i])) && (r.0[i].isCompleted ==> r.0[i].completedAt == Some(now)) &&
      r.0[i].id == context[i].id && r.0[i].title == context[i].title &&
      r.0[i].notes == context[i].notes && r.0[i].createdAt == context[i].createdAt &&
      forall k :: 0 <= k < |context| && k != i ==> r.0[k] == context[k]
  {
    match FirstIndex(Entities(context), id)
    case None => (context, Fail(NotFound))
    case Some(i) => (context[i := ToggledModel(context[i], now)], Pass)
  }

  /**
    The durable store and the in-memory store agree on create, delete and
    toggle: seen through `toEntity`, they compute the same records and the
    same errors.
  */
  lemma {:induction false} StoresAgreeExceptUpdate(context: seq<ToDoModel>, title: string, notes: Option<string>,
                                freshId: Uuid, id: Uuid, now: Timestamp)
    ensures CreateStored(context, title, notes, freshId, now).1 ==
            CreateInMemory(Entities(context), title, notes, freshId, now).1
    ensures Entities(CreateStored(context, title, notes, freshId, now).0) ==
            CreateInMemory(Entities(context), title, notes, freshId, now).0
    ensures DeleteStored(context, id).1 == DeleteInMemory(Entities(context), id).1
    ensures Entities(DeleteStored(context, id).0) == DeleteInMemory(Entities(context), id).0
    ensures ToggleStored(context, id, now).1 == ToggleInMemory(Entities(context), id, now).1
    ensures Entities(ToggleStored(context, id, now).0) == ToggleInMemory(Entities(context), id, now).0
  {
    var model := NewModel(freshId, now, title, notes);
    var grown := context + [model];
    var e := Entities(grown);
    assert e == Entities(context) + [ToEntity(model)] by {
      forall k | 0 <= k < |e| ensures e[k] == (Entities(context) + [ToEntity(model)])[k] {
        assert grown[k] == (context + [model])[k];
      }
    }
    match FirstIndex(Entities(context), id) {
      case None =>
      case Some(i) =>
        EntitiesOfRemove(context, i);
        EntitiesOfReplace(context, i, ToggledModel(context[i], now));
    }
  }

  /**
    On `update` the two stores part: the durable store keeps the stored
    `createdAt` while the in-memory one takes the argument's, so they agree
    exactly when the argument carries the stored `createdAt`.
  */
  lemma StoresDisagreeOnUpdate(context: seq<ToDoModel>, todo: ToDoEntity)
    requires ContainsId(Entities(context), todo.id)
    ensures var i := FirstIndex(Entities(context), todo.id).value;
      Entities(UpdateStored(context, todo).0) == UpdateInMemory(Entities(context), todo).0
      <==> todo.createdAt == context[i].createdAt
  {
    var i := FirstIndex(Entities(context), todo.id).value;
    EntitiesOfReplace(context, i, ApplyUpdate(context[i], todo));
    var stored := Entities(UpdateStored(context, todo).0);
    var inMemory := UpdateInMemory(Entities(context), todo).0;
    if stored == inMemory {
      assert stored[i] == inMemory[i];
    }
  }

  /** The SwiftData-backed store. */
  class ToDoRepository {
    var context: seq<ToDoModel>

    /** `init(modelContext:)`, over the models the context already holds. */
    constructor (models: seq<ToDoModel>)
      ensures context == models
    {
      context := models;
    }

    /** `fetchAll`: the store is not changed. */
    method FetchAll() returns (r: seq<ToDoEntity>)
      ensures SortedNewestFirst(r)
      ensures multiset(r) == multiset(Entities(context))
      ensures r == FetchAllStored(context)
    {
      r := SortNewestFirst(Entities(context));
    }

    /** `create(title:notes:)`: the id stands for `UUID()` and the timestamp for `Date()`. */
    method Create(title: string, notes: Option<string>, freshId: Uuid, now: Timestamp) returns (todo: ToDoEntity)
      modifies this
      ensures (context, todo) == CreateStored(old(context), title, notes, freshId, now)
    {
      var model := NewModel(freshId, now, title, notes);
      context := context + [model];
      todo := ToEntity(model);
    }

    /** `update(_:)`. */
    method Update(todo: ToDoEntity) returns (outcome: Outcome<Error>)
      modifies this
      ensures (context, outcome) == UpdateStored(old(context), todo)
    {
      var found := FirstIndex(Entities(context), todo.id);
      if found.None? {
        return Fail(NotFound);
      }
      var i := found.value;
      var model := context[i];
      model := model.(title := todo.title);
      model := model.(notes := todo.notes);
      model := model.(isCompleted := todo.isCompleted);
      model := model.(completedAt := todo.completedAt);
      context := context[i := model];
      outcome := Pass;
    }

    /** `delete(_:)`. */
    method Delete(id: Uuid) returns (outcome: Outcome<Error>)
      modifies this
      ensures (context, outcome) == DeleteStored(old(context), id)
    {
      var found := FirstIndex(Entities(context), id);
      if found.None? {
        return Fail(NotFound);
      }
      context := context[..found.value] + context[found.value + 1..];
      outcome := Pass;
    }

    /** `toggleCompletion(_:)`: the timestamp stands for `Date()`. */
    method ToggleCompletion(id: Uuid, now: Timestamp) returns (outcome: Outcome<Error>)
      modifies this
      ensures (context, outcome) == ToggleStored(old(context), id, now)
    {
      var found := FirstIndex(Entities(context), id);
      if found.None? {
        return Fail(NotFound);
      }
      var i := found.value;
      var model := context[i];
      model := model.(isCompleted := !model.isCompleted);
      model := model.(completedAt := if model.isCompleted then Some(now) else None);
      context := context[i := model];
      outcome := Pass;
    }
  }

  /** What a conforming store holds, as a value. */
  datatype StoreSnapshot = InMemoryRows(todos: seq<ToDoEntity>) | StoredRows(context: seq<ToDoModel>)

  /** The records a store holds, as entities, in storage order. */
  function StoredEntities(s: StoreSnapshot): seq<ToDoEntity> {
    match s
    case InMemoryRows(todos) => todos
    case StoredRows(context) => Entities(context)
  }

  /** `fetchAll` of either store: every stored record, newest first. */
  function SnapshotFetchAll(s: StoreSnapshot): (r: seq<ToDoEntity>)
    ensures SortedNewestFirst(r) && multiset(r) == multiset(StoredEntities(s))
  {
    match s
    case InMemoryRows(todos) => SortNewestFirst(todos)
    case StoredRows(context) => FetchAllStored(context)
  }

  /** `create` of either store. */
  function SnapshotCreate(s: StoreSnapshot, title: string, notes: Option<string>,
                          freshId: Uuid, now: Timestamp): (r: (StoreSnapshot, ToDoEntity))
    ensures r.0.InMemoryRows? == s.InMemoryRows?
    ensures StoredEntities(r.0) == StoredEntities(s) + [r.1]
    ensures r.1 == MakeToDo(freshId, title, now, notes)
  {
    match s
    case InMemoryRows(todos) =>
      var (t, e) := CreateInMemory(todos, title, notes, freshId, now); (InMemoryRows(t), e)
    case StoredRows(context) =>
      StoresAgreeExceptUpdate(context, title, notes, freshId, freshId, now);
      var (c, e) := CreateStored(context, title, notes, freshId, now); (StoredRows(c), e)
  }

  /** `update` of either store. */
  function SnapshotUpdate(s: StoreSnapshot, todo: ToDoEntity): (r: (StoreSnapshot, Outcome<Error>))
    ensures r.0.InMemoryRows? == s.InMemoryRows?
    ensures r.1 == Fail(NotFound) <==> !ContainsId(StoredEntities(s), todo.id)
    ensures r.1.Fail? ==> r.1 == Fail(NotFound) && r.0 == s
    ensures r.1 == Pass ==>
      var i := FirstIndex(StoredEntities(s), todo.id).value;
      var kept := if s.InMemoryRows? then todo.createdAt else StoredEntities(s)[i].createdAt;
      StoredEntities(r.0) == StoredEntities(s)[i := todo.(createdAt := kept)]
  {
    match s
    case InMemoryRows(todos) => var (t, o) := UpdateInMemory(todos, todo); (InMemoryRows(t), o)
    case StoredRows(context) =>
      UpdateStoredReadsBack(context, todo);
      var (c, o) := UpdateStored(context, todo); (StoredRows(c), o)
  }

  /** `delete` of either store. */
  function SnapshotDelete(s: StoreSnapshot, id: Uuid): (r: (StoreSnapshot, Outcome<Error>))
    ensures r.0.InMemoryRows? == s.InMemoryRows?
    ensures r.1 == Fail(NotFound) <==> !ContainsId(StoredEntities(s), id)
    ensures r.1.Fail? ==> r.1 == Fail(NotFound) && r.0 == s
    ensures r.1 == Pass ==> StoredEntities(r.0) == RemoveAt(StoredEntities(s), FirstIndex(StoredEntities(s), id).value)
  {
    match s
    case InMemoryRows(todos) => var (t, o) := DeleteInMemory(todos, id); (InMemoryRows(t), o)
    case StoredRows(context) =>
      StoresAgreeExceptUpdate(context, "", None, id, id, 0);
      var (c, o) := DeleteStored(context, id); (StoredRows(c), o)
  }

  /** `toggleCompletion` of either store. */
  function SnapshotToggle(s: StoreSnapshot, id: Uuid, now: Timestamp): (r: (StoreSnapshot, Outcome<Error>))
    ensures r.0.InMemoryRows? == s.InMemoryRows?
    ensures r.1 == Fail(NotFound) <==> !ContainsId(StoredEntities(s), id)
    ensures r.1.Fail? ==> r.1 == Fail(NotFound) && r.0 == s
    ensures r.1 == Pass ==>
      var i := FirstIndex(StoredEntities(s), id).value;
      StoredEntities(r.0) == StoredEntities(s)[i := Toggled(StoredEntities(s)[i], now)]
  {
    match s
    case InMemoryRows(todos) => var (t, o) := ToggleInMemory(todos, id, now); (InMemoryRows(t), o)
    case StoredRows(context) =>
      StoresAgreeExceptUpdate(context, "", None, id, id, now);
      var (c, o) := ToggleStored(context, id, now); (StoredRows(c), o)
  }

  /** `ToDoRepositoryProtocol`: one of its two conforming stores. */
  datatype AnyToDoRepository = InMemory(mock: MockToDoRepository) | Persistent(store: ToDoRepository) {

    /** The object the store's operations change. */
    ghost function Target(): object {
      match this
      case InMemory(m) => m
      case Persistent(p) => p
    }

    /** What the store holds now. */
    ghost function Snapshot(): StoreSnapshot
      reads Target()
    {
      match this
      case InMemory(m) => InMemoryRows(m.todos)
      case Persistent(p) => StoredRows(p.context)
    }

    method FetchAll() returns (r: seq<ToDoEntity>)
      ensures r == SnapshotFetchAll(Snapshot())
    {
      match this
      case InMemory(m) => r := m.FetchAll();
      case Persistent(p) => r := p.FetchAll();
    }

    method Create(title: string, notes: Option<string>, freshId: Uuid, now: Timestamp) returns (todo: ToDoEntity)
      modifies Target()
      ensures (Snapshot(), todo) == SnapshotCreate(old(Snapshot()), title, notes, freshId, now)
    {
      match this
      case InMemory(m) => todo := m.Create(title, notes, freshId, now);
      case Persistent(p) => todo := p.Create(title, notes, freshId, now);
    }

    method Update(todo: ToDoEntity) returns (outcome: Outcome<Error>)
      modifies Target()
      ensures (Snapshot(), outcome) == SnapshotUpdate(old(Snapshot()), todo)
    {
      match this
      case InMemory(m) => outcome := m.Update(todo);
      case Persistent(p) => outcome := p.Update(todo);
    }

    method Delete(id: Uuid) returns (outcome: Outcome<Error>)
      modifies Target()
      ensures (Snapshot(), outcome) == SnapshotDelete(old(Snapshot()), id)
    {
      match this
      case InMemory(m) => outcome := m.Delete(id);
      case Persistent(p) => outcome := p.Delete(id);
    }

    method ToggleCompletion(id: Uuid, now: Timestamp) returns (outcome: Outcome<Error>)
      modifies Target()
      ensures (Snapshot(), outcome) == SnapshotToggle(old(Snapshot()), id, now)
    {
      match this
      case InMemory(m) => outcome := m.ToggleCompletion(id, now);
      case Persistent(p) => outcome := p.ToggleCompletion(id, now);
    }
  }
}
