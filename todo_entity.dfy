/** The to-do record of Momentum/UseCase/ToDoEntity.swift. */
module ToDoEntities {
  import opened Wrappers

  /** A `UUID`: only equality is observable. */
  type Uuid(==, !new)

  /** A `Date`, read off an abstract integer clock. */
  type Timestamp = int

  /**
    `struct ToDoEntity: Identifiable, Hashable`. A value: equality is the
    synthesized field-wise `==` over all six fields. `id` is a `let`; the
    other five are `var`s, which a value type expresses as `t.(field := v)`.
  */
  datatype ToDoEntity = ToDoEntity(
    id: Uuid,
    title: string,
    notes: Option<string>,
    isCompleted: bool,
    createdAt: Timestamp,
    completedAt: Option<Timestamp>)

  /**
    The memberwise initializer with its defaults. Swift defaults `id` to
    `UUID()` and `createdAt` to `Date()`; here the caller supplies both.
  */
  function MakeToDo(
    id: Uuid,
    title: string,
    createdAt: Timestamp,
    notes: Option<string> := None,
    isCompleted: bool := false,
    completedAt: Option<Timestamp> := None): (t: ToDoEntity)
    ensures t.id == id && t.title == title && t.notes == notes
    ensures t.isCompleted == isCompleted && t.createdAt == createdAt && t.completedAt == completedAt
  {
    ToDoEntity(id, title, notes, isCompleted, createdAt, completedAt)
  }

  /** The invariant the app intends: `completedAt` is set exactly when the item is completed. */
  predicate CompletionConsistent(t: ToDoEntity) {
    t.completedAt.Some? <==> t.isCompleted
  }

  /** With only the required arguments, the record is incomplete, without notes and without a completion date. */
  lemma DefaultInitializer(id: Uuid, title: string, now: Timestamp)
    ensures MakeToDo(id, title, now).notes == None
    ensures !MakeToDo(id, title, now).isCompleted
    ensures MakeToDo(id, title, now).completedAt == None
    ensures CompletionConsistent(MakeToDo(id, title, now))
  {
  }

  /** Equality is field-wise: two records are equal exactly when all six fields agree. */
  lemma EqualityIsFieldwise(a: ToDoEntity, b: ToDoEntity)
    ensures a == b <==>
      a.id == b.id && a.title == b.title && a.notes == b.notes &&
      a.isCompleted == b.isCompleted && a.createdAt == b.createdAt && a.completedAt == b.completedAt
  {
  }

  /** Mutating a `var` field keeps the `let` identity. */
  lemma MutableFieldsKeepIdentity(t: ToDoEntity, title: string, notes: Option<string>, done: bool,
                                  createdAt: Timestamp, completedAt: Option<Timestamp>)
    ensures t.(title := title, notes := notes, isCompleted := done,
               createdAt := createdAt, completedAt := completedAt).id == t.id
  {
  }

  /**
    The type does not enforce CompletionConsistent: the initializer accepts
    `isCompleted: true` with the default `completedAt: nil`, as a test fixture does.
  */
  lemma CompletionNotEnforced(id: Uuid, now: Timestamp)
    ensures !CompletionConsistent(MakeToDo(id, "Task 2", now, isCompleted := true))
  {
  }
}
