/**
  `FeedViewModel` of Momentum/FeedView/FeedViewModel.swift: three fields the
  screen observes and one command, `loadData`, that sets them around a fetch.

  The feed use case is a function from URL to a decoded feed or an error,
  passed at each load: the mock's answer may be reconfigured between loads.
  `Constants.url` is an optional parameter, absent when the URL text does not
  parse.
*/
module FeedViewModels {
  import opened Wrappers
  import opened Errors
  import opened FeedEntities

  /** The three observable fields, as one value. */
  datatype FeedState = FeedState(characters: seq<CharactersResponse>, isLoading: bool, errorMessage: Option<string>)

  /** A freshly made view-model: no characters, not loading, no message. */
  const InitialFeedState: FeedState := FeedState([], false, None)

  /** `fetchFeed`'s answer: `invalidURL` without a URL, otherwise the use case's answer, reduced to its `results`. */
  function FetchOutcome(url: Option<Url>, feedUseCase: Url -> Result<FeedEntity, Error>): Result<seq<CharactersResponse>, Error> {
    match url
    case None => Failure(InvalidURL)
    case Some(u) =>
      match feedUseCase(u)
      case Success(feed) => Success(feed.results)
      case Failure(e) => Failure(e)
  }

  /** The state `loadData` ends in. */
  function AfterLoadData(s: FeedState, url: Option<Url>, feedUseCase: Url -> Result<FeedEntity, Error>): FeedState {
    match FetchOutcome(url, feedUseCase)
    case Success(results) => FeedState(results, false, None)
    case Failure(e) => FeedState(s.characters, false, Some(LocalizedDescription(e)))
  }

  /**
    `loadData` always ends not loading. On success the characters are the
    feed's `results`, wholesale and in order, and there is no message; on
    failure the characters are the ones from before and the message is the
    error's description.
  */
  lemma LoadDataOutcome(s: FeedState, u: Url, feedUseCase: Url -> Result<FeedEntity, Error>)
    ensures !AfterLoadData(s, Some(u), feedUseCase).isLoading
    ensures feedUseCase(u).Success? ==>
      AfterLoadData(s, Some(u), feedUseCase) == FeedState(feedUseCase(u).value.results, false, None)
    ensures feedUseCase(u).Failure? ==>
      AfterLoadData(s, Some(u), feedUseCase) == FeedState(s.characters, false, Some(LocalizedDescription(feedUseCase(u).error)))
  {
  }

  /**
    Without a URL the load fails with `invalidURL`, whose message is the fixed
    text; the use case is not consulted, so any two use cases give the same
    state, and the characters stay as they were.
  */
  lemma MissingUrl(s: FeedState, f: Url -> Result<FeedEntity, Error>, g: Url -> Result<FeedEntity, Error>)
    ensures AfterLoadData(s, None, f) == AfterLoadData(s, None, g)
    ensures AfterLoadData(s, None, f) == FeedState(s.characters, false, Some(InvalidURLMessage))
  {
  }

  /** A use case that throws `invalidURL` itself produces the same message as the missing URL. */
  lemma InvalidUrlFromUseCase(s: FeedState, u: Url, f: Url -> Result<FeedEntity, Error>)
    requires f(u) == Failure(InvalidURL)
    ensures AfterLoadData(s, Some(u), f) == AfterLoadData(s, None, f)
  {
  }

  /**
    The message is cleared at the start of every load, so a retry that
    succeeds leaves no message, whatever the first load did.
  */
  lemma RetryClearsMessage(s: FeedState, url: Option<Url>, first: Url -> Result<FeedEntity, Error>,
                           second: Url -> Result<FeedEntity, Error>)
    requires FetchOutcome(url, second).Success?
    ensures AfterLoadData(AfterLoadData(s, url, first), url, second).errorMessage == None
    ensures AfterLoadData(AfterLoadData(s, url, first), url, second).characters == FetchOutcome(url, second).value
  {
  }

  /** A failed refresh keeps what the last successful load showed. */
  lemma FailedRefreshKeepsCharacters(s: FeedState, url: Option<Url>, first: Url -> Result<FeedEntity, Error>,
                                     second: Url -> Result<FeedEntity, Error>)
    requires FetchOutcome(url, first).Success? && FetchOutcome(url, second).Failure?
    ensures AfterLoadData(AfterLoadData(s, url, first), url, second).characters == FetchOutcome(url, first).value
    ensures AfterLoadData(AfterLoadData(s, url, first), url, second).errorMessage.Some?
  {
  }

  /** Loading twice with the same answer is the same as loading once. */
  lemma LoadDataIdempotent(s: FeedState, url: Option<Url>, f: Url -> Result<FeedEntity, Error>)
    ensures AfterLoadData(AfterLoadData(s, url, f), url, f) == AfterLoadData(s, url, f)
  {
  }

  /** The feed screen's view-model. */
  class FeedViewModel {
    var characters: seq<CharactersResponse>
    var isLoading: bool
    var errorMessage: Option<string>

    /** The three fields as one value. */
    function State(): FeedState
      reads this
    {
      FeedState(characters, isLoading, errorMessage)
    }

    /** `init`: the fields' defaults. */
    constructor ()
      ensures State() == InitialFeedState
    {
      characters := [];
      isLoading := false;
      errorMessage := None;
    }

    /** `loadData`: raise the flag, clear the message, fetch, record a failure's message, lower the flag. */
    method LoadData(url: Option<Url>, feedUseCase: Url -> Result<FeedEntity, Error>)
      modifies this
      ensures State() == AfterLoadData(old(State()), url, feedUseCase)
    {
      isLoading := true;
      errorMessage := None;
      var outcome := FetchFeed(url, feedUseCase);
      match outcome {
        case Fail(e) => errorMessage := Some(LocalizedDescription(e));
        case Pass =>
      }
      isLoading := false;
    }

    /** `fetchFeed`: the URL guard, then the use case; only a success touches `characters`. */
    method FetchFeed(url: Option<Url>, feedUseCase: Url -> Result<FeedEntity, Error>) returns (outcome: Outcome<Error>)
      modifies this
      ensures isLoading == old(isLoading) && errorMessage == old(errorMessage)
      ensures outcome.Pass? <==> FetchOutcome(url, feedUseCase).Success?
      ensures outcome.Pass? ==> characters == FetchOutcome(url, feedUseCase).value
      ensures outcome.Fail? ==> characters == old(characters) && outcome.error == FetchOutcome(url, feedUseCase).error
    {
      if url.None? {
        return Fail(InvalidURL);
      }
      var response := feedUseCase(url.value);
      match response {
        case Success(feed) =>
          characters := feed.results;
          outcome := Pass;
        case Failure(e) =>
          outcome := Fail(e);
      }
    }
  }

  /** A mock use case answering every URL with `result`. */
  function MockFeed(result: Result<FeedEntity, Error>): Url -> Result<FeedEntity, Error> {
    _ => result
  }

  /** A first load shows the feed's results exactly, duplicates included. */
  method FetchSuccessScenario(u: Url) {
    var c := CharactersResponse(1, "Obada", Some("Human"), None);
    var vm := new FeedViewModel();
    assert !vm.isLoading && vm.errorMessage == None;
    vm.LoadData(Some(u), MockFeed(Success(FeedEntity(InfoResponse(1, 1), [c, c]))));
    assert vm.characters == [c, c] && !vm.isLoading;
  }

  /** A failed first load leaves no characters and sets a message. */
  method FetchFailureScenario(u: Url, e: Error) {
    var vm := new FeedViewModel();
    vm.LoadData(Some(u), MockFeed(Failure(e)));
    assert vm.characters == [] && vm.errorMessage.Some? && !vm.isLoading;
  }

  /** A failure, then a success with the reconfigured mock: the message is gone. */
  method RetryScenario(u: Url, e: Error) {
    var vm := new FeedViewModel();
    vm.LoadData(Some(u), MockFeed(Failure(e)));
    assert vm.errorMessage.Some?;
    vm.LoadData(Some(u), MockFeed(Success(FeedEntity(InfoResponse(1, 1), []))));
    assert vm.errorMessage == None;
  }

  /** A second successful load replaces the characters; a failed one after it keeps them. */
  method RefreshScenario(u: Url, e: Error) {
    var first := [CharactersResponse(1, "First", Some("Human"), None)];
    var second := [CharactersResponse(2, "Second", Some("Alien"), None)];
    var vm := new FeedViewModel();
    vm.LoadData(Some(u), MockFeed(Success(FeedEntity(InfoResponse(1, 1), first))));
    assert vm.characters == first;
    vm.LoadData(Some(u), MockFeed(Success(FeedEntity(InfoResponse(1, 1), second))));
    assert vm.characters == second;
    vm.LoadData(Some(u), MockFeed(Failure(e)));
    assert vm.characters == second && vm.errorMessage.Some?;
  }

  /** An `invalidURL` failure, from the guard or from the use case, shows the fixed message. */
  method InvalidUrlScenario(u: Url, f: Url -> Result<FeedEntity, Error>) {
    var vm := new FeedViewModel();
    vm.LoadData(Some(u), MockFeed(Failure(InvalidURL)));
    assert vm.errorMessage == Some("Invalid feed URL configuration") && vm.characters == [];
    vm.LoadData(None, f);
    assert vm.errorMessage == Some("Invalid feed URL configuration") && vm.characters == [];
  }
}
