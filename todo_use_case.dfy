/**
  `ToDoUseCase` of Momentum/UseCase/ToDoUseCase.swift: the title guard in
  front of `create` and `update`, and plain delegation for the rest. Also
  `ToDoUseCaseProtocol`: its two conforming implementations.
*/
module ToDoUseCases {
  import opened Wrappers
  import opened Errors
  import opened ToDoEntities
  import opened ToDoSequences
  import opened ToDoRepositories
  import opened MockToDoUseCases
  import opened MockToDoRepositories

  /**
    Membership in Foundation's `CharacterSet.whitespaces`: the Unicode space
    separators (general category Zs) and the horizontal tab. Line breaks are not in it.
  */
  predicate IsWhitespace(c: char) {
    || c == '\t'
    || c == ' '
    || c == '\U{00A0}'
    || c == '\U{1680}'
    || ('\U{2000}' <= c <= '\U{200A}')
    || c == '\U{202F}'
    || c == '\U{205F}'
    || c == '\U{3000}'
  }

  /** Drops the leading whitespace. */
  function TrimLeading(s: string): (r: string)
    ensures |r| <= |s| && r == s[|s| - |r|..]
    ensures forall i :: 0 <= i < |s| - |r| ==> IsWhitespace(s[i])
    ensures r != [] ==> !IsWhitespace(r[0])
  {
    if s != [] && IsWhitespace(s[0]) then TrimLeading(s[1..]) else s
  }

  /** Drops the trailing whitespace. */
  function TrimTrailing(s: string): (r: string)
    ensures |r| <= |s| && r == s[..|r|]
    ensures forall i :: |r| <= i < |s| ==> IsWhitespace(s[i])
    ensures r != [] ==> !IsWhitespace(r[|r| - 1])
  {
    if s != [] && IsWhitespace(s[|s| - 1]) then TrimTrailing(s[..|s| - 1]) else s
  }

  /** `s.trimmingCharacters(in: .whitespaces)`. */
  function Trim(s: string): (r: string)
    ensures |r| <= |s|
    ensures r != [] ==> !IsWhitespace(r[0]) && !IsWhitespace(r[|r| - 1])
  {
    TrimTrailing(TrimLeading(s))
  }

  /** The guard of `create` and `update`: the title is not empty once trimmed. */
  predicate HasContent(title: string) {
    Trim(title) != []
  }

  /** A title is rejected exactly when every character of it is whitespace (the empty title included). */
  lemma {:induction false} BlankIffAllWhitespace(title: string)
    ensures !HasContent(title) <==> forall i :: 0 <= i < |title| ==> IsWhitespace(title[i])
  {
    var lead := TrimLeading(title);
    if lead != [] {
      assert !IsWhitespace(lead[0]);
      assert lead[0] == title[|title| - |lead|];
    }
  }

  /** One character outside `.whitespaces` is enough for a title to pass. */
  lemma ContentAt(title: string, i: nat)
    requires i < |title| && !IsWhitespace(title[i])
    ensures HasContent(title)
  {
    BlankIffAllWhitespace(title);
  }

  /** Spaces and tabs alone are trimmed away. */
  lemma BlankTitleExamples()
    ensures !HasContent("") && !HasContent("   ") && !HasContent("\t \t")
  {
    BlankIffAllWhitespace("");
    BlankIffAllWhitespace("   ");
    BlankIffAllWhitespace("\t \t");
  }

  /**
    A newline is not in `.whitespaces`: a title with a newline anywhere, such
    as "Task\nwith\nnewlines", passes the guard.
  */
  lemma NewlineIsContent(before: string, after: string)
    ensures HasContent(before + "\n" + after)
  {
    var title := before + "\n" + after;
    assert title[|before|] == '\n';
    ContentAt(title, |before|);
  }

  /** `create` through the use case: blank titles are refused before the store is touched. */
  function UseCaseCreate(s: StoreSnapshot, title: string, notes: Option<string>,
                         freshId: Uuid, now: Timestamp): (r: (StoreSnapshot, Result<ToDoEntity, Error>))
    ensures r.1 == Failure(EmptyTitle) <==> !HasContent(title)
    ensures !HasContent(title) ==> r.0 == s
    ensures HasContent(title) ==>
      r.1.Success? && r.1.value.title == title && (r.0, r.1.value) == SnapshotCreate(s, title, notes, freshId, now)
  {
    if !HasContent(title) then (s, Failure(EmptyTitle))
    else
      var (s', todo) := SnapshotCreate(s, title, notes, freshId, now);
      (s', Success(todo))
  }

  /** `update` through the use case: blank titles are refused before the store is touched. */
  function UseCaseUpdate(s: StoreSnapshot, todo: ToDoEntity): (r: (StoreSnapshot, Outcome<Error>))
    ensures r.1 == Fail(EmptyTitle) <==> !HasContent(todo.title)
    ensures !HasContent(todo.title) ==> r.0 == s
    ensures HasContent(todo.title) ==> r == SnapshotUpdate(s, todo)
  {
    if !HasContent(todo.title) then (s, Fail(EmptyTitle)) else SnapshotUpdate(s, todo)
  }

  /**
    The title guard comes first: a blank title is refused with `emptyTitle`
    even for an id the store lacks; a valid title on a missing id gets the
    store's `notFound`.
  */
  lemma UpdateErrorPrecedence(s: StoreSnapshot, todo: ToDoEntity)
    requires !ContainsId(StoredEntities(s), todo.id)
    ensures UseCaseUpdate(s, todo) == (s, if HasContent(todo.title) then Fail(NotFound) else Fail(EmptyTitle))
  {
  }

  /** The use case, over whichever store the composition root injected. */
  class ToDoUseCase {
    const repository: AnyToDoRepository

    constructor (repository: AnyToDoRepository)
      ensures this.repository == repository
    {
      this.repository := repository;
    }

    /** `fetchAll`: the store's answer, unchanged. */
    method FetchAll() returns (r: seq<ToDoEntity>)
      ensures r == SnapshotFetchAll(repository.Snapshot())
    {
      r := repository.FetchAll();
    }

    method Create(title: string, notes: Option<string>, freshId: Uuid, now: Timestamp) returns (r: Result<ToDoEntity, Error>)
      modifies repository.Target()
      ensures (repository.Snapshot(), r) == UseCaseCreate(old(repository.Snapshot()), title, notes, freshId, now)
    {
      if Trim(title) == [] {
        return Failure(EmptyTitle);
      }
      var todo := repository.Create(title, notes, freshId, now);
      r := Success(todo);
    }

    method Update(todo: ToDoEntity) returns (r: Outcome<Error>)
      modifies repository.Target()
      ensures (repository.Snapshot(), r) == UseCaseUpdate(old(repository.Snapshot()), todo)
    {
      if Trim(todo.title) == [] {
        return Fail(EmptyTitle);
      }
      r := repository.Update(todo);
    }

    /** `delete`: the store's outcome, unchanged. */
    method Delete(id: Uuid) returns (r: Outcome<Error>)
      modifies repository.Target()
      ensures (repository.Snapshot(), r) == SnapshotDelete(old(repository.Snapshot()), id)
    {
      r := repository.Delete(id);
    }

    /** `toggleCompletion`: the store's outcome, unchanged. */
    method ToggleCompletion(id: Uuid, now: Timestamp) returns (r: Outcome<Error>)
      modifies repository.Target()
      ensures (repository.Snapshot(), r) == SnapshotToggle(old(repository.Snapshot()), id, now)
    {
      r := repository.ToggleCompletion(id, now);
    }
  }

  /** What a `ToDoUseCaseProtocol` conformer depends on, as a value. */
  datatype UseCaseWorld = LiveWorld(store: StoreSnapshot) | StubWorld(mock: MockToDoUseCase)

  function WorldFetchAll(w: UseCaseWorld): Result<seq<ToDoEntity>, Error> {
    match w
    case LiveWorld(s) => Success(SnapshotFetchAll(s))
    case StubWorld(m) => m.FetchAll()
  }

  function WorldCreate(w: UseCaseWorld, title: string, notes: Option<string>,
                       freshId: Uuid, now: Timestamp): (UseCaseWorld, Result<ToDoEntity, Error>) {
    match w
    case LiveWorld(s) => var (s', r) := UseCaseCreate(s, title, notes, freshId, now); (LiveWorld(s'), r)
    case StubWorld(m) => (w, m.Create(title, notes, freshId, now))
  }

  function WorldUpdate(w: UseCaseWorld, todo: ToDoEntity): (UseCaseWorld, Outcome<Error>) {
    match w
    case LiveWorld(s) => var (s', r) := UseCaseUpdate(s, todo); (LiveWorld(s'), r)
    case StubWorld(m) => (w, m.Update(todo))
  }

  function WorldDelete(w: UseCaseWorld, id: Uuid): (UseCaseWorld, Outcome<Error>) {
    match w
    case LiveWorld(s) => var (s', r) := SnapshotDelete(s, id); (LiveWorld(s'), r)
    case StubWorld(m) => (w, m.Delete(id))
  }

  function WorldToggle(w: UseCaseWorld, id: Uuid, now: Timestamp): (UseCaseWorld, Outcome<Error>) {
    match w
    case LiveWorld(s) => var (s', r) := SnapshotToggle(s, id, now); (LiveWorld(s'), r)
    case StubWorld(m) => (w, m.ToggleCompletion(id))
  }

  /** `ToDoUseCaseProtocol`: the real use case or the mock. */
  datatype AnyToDoUseCase = Live(service: ToDoUseCase) | Stub(mock: MockToDoUseCase) {

    /** The objects a call may change. */
    ghost function Footprint(): set<object> {
      match this
      case Live(u) => {u.repository.Target()}
      case Stub(_) => {}
    }

    ghost function World(): UseCaseWorld
      reads Footprint()
    {
      match this
      case Live(u) => LiveWorld(u.repository.Snapshot())
      case Stub(m) => StubWorld(m)
    }

    method FetchAll() returns (r: Result<seq<ToDoEntity>, Error>)
      ensures r == WorldFetchAll(World())
    {
      match this
      case Live(u) =>
        var todos := u.FetchAll();
        r := Success(todos);
      case Stub(m) => r := m.FetchAll();
    }

    method Create(title: string, notes: Option<string>, freshId: Uuid, now: Timestamp) returns (r: Result<ToDoEntity, Error>)
      modifies Footprint()
      ensures (World(), r) == WorldCreate(old(World()), title, notes, freshId, now)
    {
      match this
      case Live(u) => r := u.Create(title, notes, freshId, now);
      case Stub(m) => r := m.Create(title, notes, freshId, now);
    }

    method Update(todo: ToDoEntity) returns (r: Outcome<Error>)
      modifies Footprint()
      ensures (World(), r) == WorldUpdate(old(World()), todo)
    {
      match this
      case Live(u) => r := u.Update(todo);
      case Stub(m) => r := m.Update(todo);
    }

    method Delete(id: Uuid) returns (r: Outcome<Error>)
      modifies Footprint()
      ensures (World(), r) == WorldDelete(old(World()), id)
    {
      match this
      case Live(u) => r := u.Delete(id);
      case Stub(m) => r := m.Delete(id);
    }

    method ToggleCompletion(id: Uuid, now: Timestamp) returns (r: Outcome<Error>)
      modifies Footprint()
      ensures (World(), r) == WorldToggle(old(World()), id, now)
    {
      match this
      case Live(u) => r := u.ToggleCompletion(id, now);
      case Stub(m) => r := m.ToggleCompletion(id);
    }
  }

  /** No operation of the mock changes it: the stub world after a call is the one before. */
  lemma StubIsUnchanged(m: MockToDoUseCase, title: string, notes: Option<string>, freshId: Uuid,
                        todo: ToDoEntity, id: Uuid, now: Timestamp)
    ensures WorldCreate(StubWorld(m), title, notes, freshId, now) == (StubWorld(m), m.Create(title, notes, freshId, now))
    ensures WorldUpdate(StubWorld(m), todo) == (StubWorld(m), m.Update(todo))
    ensures WorldDelete(StubWorld(m), id) == (StubWorld(m), m.Delete(id))
    ensures WorldToggle(StubWorld(m), id, now) == (StubWorld(m), m.ToggleCompletion(id))
  {
  }

  /** Blank titles are refused before the in-memory store is reached. */
  method BlankCreateScenario(a: Uuid, now: Timestamp) {
    var repo := new MockToDoRepository();
    var useCase := new ToDoUseCase(InMemory(repo));
    BlankTitleExamples();
    var r := useCase.Create("", Some("Note"), a, now);
    assert r == Failure(EmptyTitle) && repo.todos == [];
    r := useCase.Create("   ", Some("Note"), a, now);
    assert r == Failure(EmptyTitle) && repo.todos == [];
  }

  /** A valid title is stored as given; an update that blanks it is refused and leaves the store alone. */
  method BlankUpdateScenario(b: Uuid, now: Timestamp) {
    var repo := new MockToDoRepository();
    var useCase := new ToDoUseCase(InMemory(repo));
    ContentAt("Original", 0);
    BlankTitleExamples();
    var r := useCase.Create("Original", None, b, now);
    assert r.Success? && repo.todos == [r.value] && r.value.title == "Original";
    var todo := r.value;
    var outcome := useCase.Update(todo.(title := "   "));
    assert outcome == Fail(EmptyTitle) && repo.todos == [todo];
  }
}
