/**
 * The application state that drives the stories reducer: the search term the
 * user types, the request URL derived from it on submit, and the fetch
 * handler that dispatches the fetch lifecycle. The HTTP response is a
 * parameter: `Some(hits)` for a resolved request, `None` for a rejected one.
 */
module SearchApp {
  import opened Wrappers
  import opened Stories

  /** The search endpoint; the term is appended to it verbatim. */
  const API_ENDPOINT: string := "https://hn.algolia.com/api/v1/search?query="

  /**
   * How a term that may be `undefined` reads inside a template literal or
   * when written to local storage.
   */
  function TermText(term: Option<string>): string {
    match term
    case Some(t) => t
    case None => "undefined"
  }

  /** The request URL built from a term. */
  function RequestUrl(term: Option<string>): string {
    API_ENDPOINT + TermText(term)
  }

  /**
   * The text after the endpoint in a URL that starts with it. The term is
   * appended raw, without URL-encoding, so this is not in general the query
   * the server parses.
   */
  function TextAfterEndpoint(url: string): Option<string> {
    if API_ENDPOINT <= url then Some(url[|API_ENDPOINT|..]) else None
  }

  /** A built URL is the endpoint followed by the raw text of its term. */
  lemma RequestUrlText(term: Option<string>)
    ensures TextAfterEndpoint(RequestUrl(term)) == Some(TermText(term))
  {
  }

  /** Two terms give the same URL exactly when they read the same. */
  lemma RequestUrlInjective(a: Option<string>, b: Option<string>)
    ensures RequestUrl(a) == RequestUrl(b) <==> TermText(a) == TermText(b)
  {
    RequestUrlText(a);
    RequestUrlText(b);
  }

  /** JavaScript truthiness of a term: defined and not the empty string. */
  predicate IsTruthy(term: Option<string>) {
    term.Some? && term.value != ""
  }

  /**
   * The term at start-up: the stored value when it is a non-empty string,
   * otherwise the initial state, which the caller leaves undefined.
   */
  function InitialTerm(stored: Option<string>): (t: Option<string>)
    ensures t.Some? ==> t == stored && IsTruthy(t)
    ensures t.None? ==> !IsTruthy(stored)
  {
    if IsTruthy(stored) then stored else None
  }

  /**
   * Persisting a term and reading it back gives the same term exactly when
   * the term is truthy: an undefined term comes back as the string
   * "undefined", an empty one comes back undefined.
   */
  lemma StoredTermRoundTrip(term: Option<string>)
    ensures InitialTerm(Some(TermText(term))) == term <==> IsTruthy(term)
  {
  }

  /** The actions one fetch dispatches, in order, for a given response. */
  function FetchActions(response: Option<seq<Story>>): seq<Action> {
    [FetchInit, if response.Some? then FetchSuccess(response.value) else FetchFailure]
  }

  /**
   * A whole fetch ends idle: the list is the response's hits, or the list from
   * before the fetch when the request failed, and the error flag says which.
   */
  lemma {:induction false} FetchCycleOutcome(state: StoriesState, response: Option<seq<Story>>)
    ensures ReduceAll(state, FetchActions(response)).Ok?
    ensures !ReduceAll(state, FetchActions(response)).value.isLoading
    ensures ReduceAll(state, FetchActions(response)).value.isError <==> response.None?
    ensures ReduceAll(state, FetchActions(response)).value.data
         == if response.Some? then response.value else state.data
  {
    var acts := FetchActions(response);
    var mid := Reduce(state, acts[0]).value;
    assert acts[1..] == [acts[1]];
    assert ReduceAll(state, acts) == ReduceAll(mid, [acts[1]]);
    assert ReduceAll(mid, [acts[1]]) == Reduce(mid, acts[1]);
  }


  /**
   * The component's state. `fetchTerm` is the search term the fetch handler
   * was created with: the handler is rebuilt only when `url` changes, so it
   * sees the term that was submitted, not the one being typed. `log` records
   * every action the reducer has applied, in dispatch order.
   */
  class App {
    var searchTerm: Option<string>
    var url: string
    var fetchTerm: Option<string>
    var stories: StoriesState
    ghost var log: seq<Action>

    /** The record is the replay of every applied action from the initial record. */
    ghost predicate Replayed()
      reads this
    {
      ReduceAll(InitialStories, log) == Ok(stories)
    }

    /**
     * Between handlers: the record replays the log, the URL is built from the
     * handler's term, and no fetch is half done.
     */
    ghost predicate Valid()
      reads this
    {
      Replayed() && url == RequestUrl(fetchTerm) && !stories.isLoading
    }

    /** Mounting: the term from storage (or undefined), its URL, the empty record. */
    constructor (stored: Option<string>)
      ensures Valid()
      ensures searchTerm == InitialTerm(stored) && fetchTerm == searchTerm
      ensures url == RequestUrl(searchTerm)
      ensures stories == InitialStories && log == []
    {
      searchTerm := InitialTerm(stored);
      fetchTerm := InitialTerm(stored);
      url := RequestUrl(InitialTerm(stored));
      stories := InitialStories;
      log := [];
    }

    /**
     * One dispatch: the reducer's record replaces the held one and the action
     * joins the log; when the reducer throws, nothing changes.
     */
    method Dispatch(action: Action) returns (outcome: Result<(), ReducerError>)
      requires Replayed()
      modifies this`stories, this`log
      ensures Replayed()
      ensures outcome.Ok? <==> IsKnown(action)
      ensures outcome.Ok? ==> log == old(log) + [action] && Reduce(old(stories), action) == Ok(stories)
      ensures outcome.Err? ==>
        log == old(log) && stories == old(stories) && Reduce(old(stories), action) == Err(outcome.error)
    {
      match Reduce(stories, action)
      case Ok(next) =>
        ReduceAllSnoc(InitialStories, log, action);
        stories := next;
        log := log + [action];
        outcome := Ok(());
      case Err(e) =>
        outcome := Err(e);
    }

    /** Typing: the term follows the input; the URL does not move. */
    method SearchInput(value: string)
      requires Valid()
      modifies this`searchTerm
      ensures Valid()
      ensures searchTerm == Some(value)
    {
      searchTerm := Some(value);
    }

    /**
     * The fetch handler. With a falsy term it dispatches nothing; otherwise it
     * requests `url` and dispatches INIT, then SUCCESS with the hits or
     * FAILURE, and ends idle.
     */
    method FetchStories(response: Option<seq<Story>>) returns (requested: Option<string>)
      requires Valid()
      modifies this`stories, this`log
      ensures Valid()
      ensures !IsTruthy(fetchTerm) ==> requested == None && log == old(log) && stories == old(stories)
      ensures IsTruthy(fetchTerm) ==>
        requested == Some(url) && log == old(log) + FetchActions(response) &&
        ReduceAll(old(stories), FetchActions(response)) == Ok(stories)
      ensures IsTruthy(fetchTerm) ==>
        stories.isError == response.None? &&
        stories.data == (if response.Some? then response.value else old(stories.data))
    {
      if !IsTruthy(fetchTerm) {
        return None;
      }
      ghost var before := stories;
      var _ := Dispatch(FetchInit);
      requested := Some(url);
      ghost var mid := stories;
      var _ := Dispatch(if response.Some? then FetchSuccess(response.value) else FetchFailure);
      var acts := FetchActions(response);
      assert acts[1..] == [acts[1]];
      assert ReduceAll(before, acts) == ReduceAll(mid, [acts[1]]) == Ok(stories);
      FetchCycleOutcome(before, response);
      assert log == old(log) + [acts[0]] + [acts[1]];
    }

    /**
     * Submitting: the URL is rebuilt from the current term. Only a URL that
     * actually changes rebuilds the fetch handler, which then runs once.
     */
    method SearchSubmit(response: Option<seq<Story>>) returns (requested: Option<string>)
      requires Valid()
      modifies this`url, this`fetchTerm, this`stories, this`log
      ensures Valid()
      ensures url == RequestUrl(searchTerm)
      ensures url == old(url) ==>
        fetchTerm == old(fetchTerm) && requested == None && log == old(log) && stories == old(stories)
      ensures url != old(url) ==> fetchTerm == searchTerm
      ensures url != old(url) && IsTruthy(searchTerm) ==>
        requested == Some(url) && log == old(log) + FetchActions(response) &&
        stories.isError == response.None? &&
        stories.data == (if response.Some? then response.value else old(stories.data))
      ensures !IsTruthy(searchTerm) ==> requested == None && log == old(log) && stories == old(stories)
    {
      var next := RequestUrl(searchTerm);
      if next == url {
        return None;
      }
      url, fetchTerm := next, searchTerm;
      requested := FetchStories(response);
    }

    /** Dismissing a story: every story with its identifier leaves the list. */
    method RemoveStory(item: Story)
      requires Valid()
      modifies this`stories, this`log
      ensures Valid()
      ensures log == old(log) + [RemoveStories(item)]
      ensures Reduce(old(stories), RemoveStories(item)) == Ok(stories)
      ensures forall s :: s in stories.data <==> s in old(stories.data) && s.objectID != item.objectID
    {
      var _ := Dispatch(RemoveStories(item));
    }
  }

  /**
   * Mounting the component: its state is initialised, then the fetch effect
   * runs once with the start-up term.
   */
  method Mount(stored: Option<string>, response: Option<seq<Story>>) returns (app: App, requested: Option<string>)
    ensures fresh(app) && app.Valid()
    ensures app.searchTerm == InitialTerm(stored) && app.fetchTerm == app.searchTerm
    ensures app.url == RequestUrl(app.searchTerm)
    ensures !IsTruthy(app.searchTerm) ==>
      requested == None && app.log == [] && app.stories == InitialStories
    ensures IsTruthy(app.searchTerm) ==>
      requested == Some(app.url) && app.log == FetchActions(response) &&
      app.stories == StoriesState(if response.Some? then response.value else [], false, response.None?)
  {
    app := new App(stored);
    requested := app.FetchStories(response);
  }

  /** A first search for "React" that resolves with one hit, then its dismissal. */
  method ReactSearchScenario() {
    var hit := Story("1", "A", "http://a");
    var app, requested := Mount(Some("React"), Some([hit]));
    assert requested == Some(API_ENDPOINT + "React");
    assert app.log == [FetchInit, FetchSuccess([hit])];
    assert app.stories == StoriesState([hit], false, false);
    app.RemoveStory(hit);
    assert hit !in app.stories.data;
    assert app.stories.data == [];
  }

  /** Nothing stored under the key: the term is undefined and nothing is fetched. */
  method NothingStoredScenario(response: Option<seq<Story>>) {
    var app, requested := Mount(None, response);
    assert app.url == API_ENDPOINT + "undefined";
    assert requested == None && app.log == [] && app.stories == InitialStories;
  }

  /** A failing fetch after a successful one keeps the stale list and raises the flag. */
  method FailureKeepsStaleScenario(first: seq<Story>) {
    var app, _ := Mount(Some("React"), Some(first));
    app.SearchInput("Dafny");
    assert app.url == API_ENDPOINT + "React";
    RequestUrlInjective(Some("Dafny"), Some("React"));
    var _ := app.SearchSubmit(None);
    assert app.url == API_ENDPOINT + "Dafny";
    assert app.log == [FetchInit, FetchSuccess(first), FetchInit, FetchFailure];
    assert app.stories == StoriesState(first, false, true);
  }
}
