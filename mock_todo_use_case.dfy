/**
  `MockToDoUseCase` of Momentum/UseCase/MockToDoUseCase.swift: a configurable
  oracle. Its five properties are set from outside; its methods only read them
  and return or throw, so here it is a value and its methods are functions of
  that value.
*/
module MockToDoUseCases {
  import opened Wrappers
  import opened Errors
  import opened ToDoEntities

  datatype MockToDoUseCase = MockToDoUseCase(
    fetchAllResult: Result<seq<ToDoEntity>, Error>,
    createResult: Option<Result<ToDoEntity, Error>>,
    updateError: Option<Error>,
    deleteError: Option<Error>,
    toggleCompletionError: Option<Error>)
  {
    /** `fetchAll`: the configured list, or the configured error. */
    function FetchAll(): (r: Result<seq<ToDoEntity>, Error>)
      ensures r.Success? <==> fetchAllResult.Success?
      ensures r.Success? ==> r.value == fetchAllResult.value
      ensures r.Failure? ==> r.error == fetchAllResult.error
    {
      fetchAllResult
    }

    /**
      `create`: the configured result when one is set; otherwise a new record
      with the given title and notes, with no check on the title.
    */
    function Create(title: string, notes: Option<string>, freshId: Uuid, now: Timestamp): (r: Result<ToDoEntity, Error>)
      ensures createResult.Some? ==> r == createResult.value
      ensures createResult.None? ==> r.Success? && r.value.title == title && r.value.notes == notes
      ensures createResult.None? ==> !r.value.isCompleted && r.value.completedAt == None
    {
      match createResult
      case Some(result) => result
      case None => Success(MakeToDo(freshId, title, now, notes))
    }

    /** `update`: throws the configured error if one is set, whatever the argument. */
    function Update(todo: ToDoEntity): (r: Outcome<Error>)
      ensures r.Fail? <==> updateError.Some?
      ensures r.Fail? ==> r.error == updateError.value
    {
      Throwing(updateError)
    }

    /** `delete`: throws the configured error if one is set, whatever the argument. */
    function Delete(id: Uuid): (r: Outcome<Error>)
      ensures r.Fail? <==> deleteError.Some?
      ensures r.Fail? ==> r.error == deleteError.value
    {
      Throwing(deleteError)
    }

    /** `toggleCompletion`: throws the configured error if one is set, whatever the argument. */
    function ToggleCompletion(id: Uuid): (r: Outcome<Error>)
      ensures r.Fail? <==> toggleCompletionError.Some?
      ensures r.Fail? ==> r.error == toggleCompletionError.value
    {
      Throwing(toggleCompletionError)
    }
  }

  /** `if let error = configured { throw error }`. */
  function Throwing(configured: Option<Error>): (r: Outcome<Error>)
    ensures r.Fail? <==> configured.Some?
    ensures r.Fail? ==> r.error == configured.value
  {
    match configured
    case Some(e) => Fail(e)
    case None => Pass
  }

  /** A freshly made mock: `fetchAll` succeeds with no records and nothing else is configured. */
  const FreshMock: MockToDoUseCase := MockToDoUseCase(Success([]), None, None, None, None)

  /** Unconfigured, the mock accepts any title, blank ones included: it does no validation. */
  lemma MockAcceptsAnyTitle(m: MockToDoUseCase, title: string, notes: Option<string>, freshId: Uuid, now: Timestamp)
    requires m.createResult.None?
    ensures m.Create(title, notes, freshId, now) == Success(MakeToDo(freshId, title, now, notes))
  {
  }
}
