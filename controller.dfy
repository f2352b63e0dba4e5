/** The search state of the `App` component (src/App.jsx): the query, the
    page, the books shown, the reported total, the loading flag and the error
    message, changed by the search bar, the recent-search chips, the
    pagination buttons, the Retry button, and the load effect with its
    completions.

    The effect's `cancel` flag is modelled as a request token: every load
    takes the next token, and a completion carries the token of the load that
    issued it. A completion whose token is not the latest one belongs to an
    effect run that React has already cleaned up (its `cancel` is true) and
    changes nothing. `awaiting` records that the latest load sent a fetch that
    has not settled yet; each fetch settles once.

    Module `Controller` gives the transitions as functions on a `Session`
    value and proves what they guarantee; module `AppComponent` holds the
    component's state slots as the fields of a class whose methods perform
    those transitions. */
module Controller {
  import opened Basics
  import opened Api
  import Paging

  /** The query the app starts with. */
  const InitialQuery := "harry potter"
  /** The message shown when the latest fetch failed. */
  const FailureMessage := "Failed to fetch results. Try again."

  datatype Session = Session(
    query: string,
    page: int,
    books: seq<Book>,
    totalResults: int,
    loading: bool,
    error: string,
    token: nat,
    awaiting: bool)

  /** The state slots' initial values; no load has been issued. */
  function Initial(): Session {
    Session(InitialQuery, 1, [], 0, false, "", 0, false)
  }

  /** The call of `fetchBooksByTitle` a load makes: its token and arguments. */
  datatype Ticket = Ticket(token: nat, query: string, page: int)

  /** `handleSearch(q)`, and likewise a click on a recent-search chip: the
      new query, back on the first page. */
  function HandleSearch(s: Session, q: string): (r: Session)
    ensures r.query == q && r.page == 1
    ensures r.books == s.books && r.totalResults == s.totalResults && r.error == s.error
    ensures r.loading == s.loading && r.awaiting == s.awaiting && r.token == s.token
    ensures Issued(r) == if q == "" then None else Some(Ticket(s.token + 1, q, 1))
  {
    s.(query := q, page := 1)
  }

  /** The pagination buttons' `onChange`: the page asked for, unclamped. */
  function SetPage(s: Session, p: int): (r: Session)
    ensures r.page == p && r.query == s.query
    ensures r.books == s.books && r.totalResults == s.totalResults && r.error == s.error
    ensures r.loading == s.loading && r.awaiting == s.awaiting && r.token == s.token
    ensures s.query != "" ==> Issued(r) == Some(Ticket(s.token + 1, s.query, p))
  {
    s.(page := p)
  }

  /** The Retry button: clear the message and go back to the first page. */
  function Retry(s: Session): (r: Session)
    ensures r.error == "" && r.page == 1 && r.query == s.query
    ensures r.books == s.books && r.totalResults == s.totalResults
    ensures r.loading == s.loading && r.awaiting == s.awaiting && r.token == s.token
    ensures s.query != "" ==> Issued(r) == Some(Ticket(s.token + 1, s.query, 1))
  {
    s.(error := "", page := 1)
  }

  /** The fetch a load issues: none for the empty query, otherwise one for
      the current query and page under the next token. */
  function Issued(s: Session): (t: Option<Ticket>)
    ensures t.None? <==> s.query == ""
    ensures t.Some? ==> t.value == Ticket(s.token + 1, s.query, s.page) && t.value.token > s.token
  {
    if s.query == "" then None else Some(Ticket(s.token + 1, s.query, s.page))
  }

  /** The load effect as the source writes it. Every run supersedes the
      previous one. For the empty query it only empties the books, leaving
      the loading flag, the message and the total as they were; otherwise it
      raises the loading flag and clears the message before fetching. */
  function LoadAsWritten(s: Session): (r: Session)
    ensures r.token == s.token + 1
    ensures r.query == s.query && r.page == s.page
    ensures s.query == "" ==>
      && r.books == [] && !r.awaiting
      && r.loading == s.loading && r.error == s.error && r.totalResults == s.totalResults
    ensures s.query != "" ==>
      && r.loading && r.awaiting && r.error == ""
      && r.books == s.books && r.totalResults == s.totalResults
  {
    if s.query == "" then s.(books := [], token := s.token + 1, awaiting := false)
    else s.(loading := true, error := "", token := s.token + 1, awaiting := true)
  }

  /** The load effect with the empty-query branch also lowering the loading
      flag, since no fetch of its own will ever lower it; otherwise as
      written. */
  function Load(s: Session): (r: Session)
    ensures r.token == s.token + 1
    ensures r.query == s.query && r.page == s.page
    ensures s.query == "" ==>
      && r.books == [] && !r.awaiting && !r.loading
      && r.error == s.error && r.totalResults == s.totalResults
    ensures s.query != "" ==> r == LoadAsWritten(s)
  {
    if s.query == "" then s.(books := [], loading := false, token := s.token + 1, awaiting := false)
    else LoadAsWritten(s)
  }

  /** A fetch settles. Only the completion of the latest load, while its
      fetch is outstanding, is applied: success replaces the books and the
      total, failure sets the fixed message and keeps the books, and either
      lowers the loading flag. Any other completion changes nothing. */
  function Complete(s: Session, t: nat, outcome: Result<SearchPage, FetchError>): (r: Session)
    ensures t != s.token || !s.awaiting ==> r == s
    ensures t == s.token && s.awaiting ==>
      && !r.loading && !r.awaiting
      && r.query == s.query && r.page == s.page && r.token == s.token
      && (outcome.Success? ==>
            r.books == outcome.value.results && r.totalResults == outcome.value.numFound
            && r.error == s.error)
      && (outcome.Failure? ==>
            r.books == s.books && r.totalResults == s.totalResults && r.error == FailureMessage)
  {
    if t != s.token || !s.awaiting then s
    else
      var settled := s.(loading := false, awaiting := false);
      match outcome
      case Success(p) => settled.(books := p.results, totalResults := p.numFound)
      case Failure(_) => settled.(error := FailureMessage)
  }

  /** The page count shown by the pagination. */
  function TotalPages(s: Session): (n: int)
    ensures n >= 1
    ensures s.totalResults > 0 ==> (n - 1) * Paging.PerPage < s.totalResults <= n * Paging.PerPage
    ensures s.totalResults == 0 && |s.books| > 0 ==> (n - 1) * Paging.PerPage < |s.books| <= n * Paging.PerPage
    ensures s.totalResults < 0 || (s.totalResults == 0 && |s.books| == 0) ==> n == 1
  {
    Paging.TotalPages(s.totalResults, |s.books|)
  }

  /** What can happen to the search state, one event at a time. */
  datatype Event =
    | Search(q: string)
    | GoTo(p: int)
    | RetryClicked
    | LoadRun
    | Settle(t: nat, outcome: Result<SearchPage, FetchError>)

  /** One event. A load runs the effect as written (`LoadAsWritten`) when
      `asWritten` holds and the corrected one (`Load`) otherwise. Only a load
      moves the token, and only a load or a completion touches the books, the
      total or the loading flag. */
  function Step(s: Session, e: Event, asWritten: bool): (r: Session)
    ensures r.token == if e.LoadRun? then s.token + 1 else s.token
    ensures !e.LoadRun? && !e.Settle? ==>
      r.books == s.books && r.totalResults == s.totalResults
      && r.loading == s.loading && r.awaiting == s.awaiting
  {
    match e
    case Search(q) => HandleSearch(s, q)
    case GoTo(p) => SetPage(s, p)
    case RetryClicked => Retry(s)
    case LoadRun => if asWritten then LoadAsWritten(s) else Load(s)
    case Settle(t, outcome) => Complete(s, t, outcome)
  }

  /** A sequence of events, applied in order, with the load as written or
      the corrected one. The token counts the loads. */
  function Run(s: Session, events: seq<Event>, asWritten: bool): (r: Session)
    ensures r.token == s.token + multiset(events)[LoadRun]
    decreases |events|
  {
    if events == [] then s
    else
      assert events == [events[0]] + events[1..];
      Run(Step(s, events[0], asWritten), events[1..], asWritten)
  }

  /** The loading flag is up exactly while the latest load's fetch is
      outstanding. */
  predicate Honest(s: Session) {
    s.loading == s.awaiting
  }

  lemma StepKeepsHonest(s: Session, e: Event)
    requires Honest(s)
    ensures Honest(Step(s, e, false))
  {
  }

  /** With the corrected load, whatever happens, the loading flag never
      outlives the fetch it waits for, nor is it down while that fetch is
      outstanding. (With the load as written it can outlive it: see
      `EmptyLoadStrandsSpinner`.) */
  lemma {:induction false} RunKeepsHonest(s: Session, events: seq<Event>)
    requires Honest(s)
    ensures Honest(Run(s, events, false))
    decreases |events|
  {
    if events != [] {
      StepKeepsHonest(s, events[0]);
      RunKeepsHonest(Step(s, events[0], false), events[1..]);
    }
  }

  /** Latest request wins, for the load as written and the corrected one
      alike: once a later load has been issued, the completion of an earlier
      load, whatever its outcome, changes nothing. */
  lemma SupersededCompletionIgnored(s: Session, events: seq<Event>, outcome: Result<SearchPage, FetchError>, asWritten: bool)
    requires LoadRun in events
    ensures var first := if asWritten then LoadAsWritten(s) else Load(s);
      var later := Run(first, events, asWritten);
      Complete(later, first.token, outcome) == later
  {
  }

  /** The fetch a load issues is the one whose completion is applied: right
      after a load for a non-empty query, the session awaits exactly the
      issued ticket's token, and its completion lands. A load for the empty
      query issues nothing and awaits nothing, so no completion lands. */
  lemma IssuedIsAwaited(s: Session, t: nat, outcome: Result<SearchPage, FetchError>)
    ensures s.query != "" ==>
      var ticket := Issued(s).value;
      && Load(s).awaiting && Load(s).token == ticket.token
      && Load(s).query == ticket.query && Load(s).page == ticket.page
      && !Complete(Load(s), ticket.token, outcome).loading
      && (outcome.Success? ==> Complete(Load(s), ticket.token, outcome).books == outcome.value.results)
      && (outcome.Failure? ==> Complete(Load(s), ticket.token, outcome).error == FailureMessage)
    ensures s.query == "" ==> Issued(s).None? && Complete(Load(s), t, outcome) == Load(s)
  {
  }

  /** A page of `n` copies of a book, for the scenarios below. */
  function Books(n: nat, b: Book): seq<Book> {
    seq(n, _ => b)
  }

  /** Searching "dune": the load shows the spinner, a result of 45 matches
      of which 20 were returned stops it and gives three pages; moving to page
      2 and loading again shows the second page's books. */
  lemma DuneScenario(b1: Book, b2: Book)
    ensures var s1 := Load(HandleSearch(Initial(), "dune"));
      && s1.loading && s1.query == "dune" && s1.page == 1
      && Issued(HandleSearch(Initial(), "dune")) == Some(Ticket(1, "dune", 1))
    ensures var s2 := Complete(Load(HandleSearch(Initial(), "dune")), 1, Success(SearchPage(Books(20, b1), 45)));
      && !s2.loading && s2.page == 1 && s2.books == Books(20, b1) && TotalPages(s2) == 3 && s2.error == ""
    ensures var s2 := Complete(Load(HandleSearch(Initial(), "dune")), 1, Success(SearchPage(Books(20, b1), 45)));
      var s3 := Complete(Load(SetPage(s2, 2)), 2, Success(SearchPage(Books(20, b2), 45)));
      && !s3.loading && s3.page == 2 && s3.books == Books(20, b2) && TotalPages(s3) == 3
  {
  }

  /** A failed search keeps the books on screen and shows the message. */
  lemma FailureScenario(s: Session, e: FetchError)
    ensures var f := Complete(Load(HandleSearch(s, "xyz")), s.token + 1, Failure(e));
      && !f.loading && f.error == FailureMessage && f.books == s.books && f.query == "xyz"
  {
  }

  /** Race safety: page 1's fetch is still in flight when page 2 is loaded;
      page 2's answer arrives first and page 1's after it. Only page 2's
      books are shown, and the spinner is down. */
  lemma RaceScenario(s: Session, q: string, page1Answer: SearchPage, page2Answer: SearchPage)
    requires q != ""
    ensures var first := Load(HandleSearch(s, q));
      var second := Load(SetPage(first, 2));
      var last := Complete(Complete(second, second.token, Success(page2Answer)), first.token, Success(page1Answer));
      && last.books == page2Answer.results && last.totalResults == page2Answer.numFound
      && last.page == 2 && !last.loading
  {
  }

  /** The empty query is fetched by no one: the books are emptied, the page
      count of the previous search stays. */
  lemma EmptyQueryKeepsTotal(s: Session)
    requires s.query == ""
    ensures Issued(s).None?
    ensures Load(s).books == [] && TotalPages(Load(s)) == TotalPages(s.(books := []))
  {
  }

  /** As written, clearing the search box while a search is in flight
      leaves the spinner up: the empty-query load supersedes the fetch, whose
      completion is then ignored, and nothing else lowers the flag. */
  lemma EmptyLoadStrandsSpinner(p: SearchPage)
    ensures var loading := Load(HandleSearch(Initial(), "dune"));
      var cleared := LoadAsWritten(HandleSearch(loading, ""));
      var after := Complete(cleared, 1, Success(p));
      && Honest(loading)
      && after.loading && !after.awaiting && !Honest(after)
  {
  }

  /** ... and it stays up through any clicks and completions until the next
      load. */
  lemma {:induction false} StrandedSpinnerStaysUp(s: Session, events: seq<Event>, asWritten: bool)
    requires s.loading && !s.awaiting
    requires LoadRun !in events
    ensures Run(s, events, asWritten).loading && !Run(s, events, asWritten).awaiting
    decreases |events|
  {
    if events != [] {
      assert events[0] != LoadRun && LoadRun !in events[1..];
      StrandedSpinnerStaysUp(Step(s, events[0], asWritten), events[1..], asWritten);
    }
  }

  /** With the corrected load, the same sequence ends with the spinner down. */
  lemma EmptyLoadClearsSpinner(p: SearchPage)
    ensures var loading := Load(HandleSearch(Initial(), "dune"));
      var after := Complete(Load(HandleSearch(loading, "")), 1, Success(p));
      && !after.loading && after.books == [] && Honest(after)
  {
  }
}

/** The `App` component's search state slots as an object. */
module AppComponent {
  import opened Basics
  import opened Api
  import Controller
  import Paging

  class App {
    var query: string
    var page: int
    var books: seq<Book>
    var totalResults: int
    var loading: bool
    var error: string
    /** The latest load's token: the one effect run whose `cancel` is false. */
    var token: nat
    /** The latest load's fetch has not settled yet. */
    var awaiting: bool

    ghost function Snapshot(): Controller.Session
      reads this
    {
      Controller.Session(query, page, books, totalResults, loading, error, token, awaiting)
    }

    ghost predicate Valid()
      reads this
    {
      Controller.Honest(Snapshot())
    }

    constructor()
      ensures Valid() && Snapshot() == Controller.Initial()
    {
      query, page, books, totalResults := Controller.InitialQuery, 1, [], 0;
      loading, error, token, awaiting := false, "", 0, false;
    }

    /** `handleSearch(q)`: new query, first page. */
    method HandleSearch(q: string)
      requires Valid()
      modifies this
      ensures Valid() && Snapshot() == Controller.HandleSearch(old(Snapshot()), q)
      ensures query == q && page == 1
    {
      query, page := q, 1;
    }

    /** A recent-search chip: the same two updates as `handleSearch`. */
    method SelectRecent(r: string)
      requires Valid()
      modifies this
      ensures Valid() && Snapshot() == Controller.HandleSearch(old(Snapshot()), r)
    {
      query := r;
      page := 1;
    }

    /** A pagination button: `setPage(p)`. */
    method SetPage(p: int)
      requires Valid()
      modifies this
      ensures Valid() && Snapshot() == Controller.SetPage(old(Snapshot()), p)
    {
      page := p;
    }

    /** The Retry button. */
    method Retry()
      requires Valid()
      modifies this
      ensures Valid() && Snapshot() == Controller.Retry(old(Snapshot()))
    {
      error := "";
      page := 1;
    }

    /** One run of the load effect for the current query and page; returns
        the fetch it issues, whose completion is to be passed to `Complete`. */
    method Load() returns (ticket: Option<Controller.Ticket>)
      requires Valid()
      modifies this
      ensures Valid() && Snapshot() == Controller.Load(old(Snapshot()))
      ensures ticket == Controller.Issued(old(Snapshot()))
      ensures ticket.Some? ==> ticket.value.token == token && loading
    {
      token := token + 1;
      if query == "" {
        books := [];
        loading := false;
        awaiting := false;
        ticket := None;
      } else {
        loading := true;
        error := "";
        awaiting := true;
        ticket := Some(Controller.Ticket(token, query, page));
      }
    }

    /** The fetch issued under token `t` settled with `outcome`. */
    method Complete(t: nat, outcome: Result<SearchPage, FetchError>)
      requires Valid()
      modifies this
      ensures Valid() && Snapshot() == Controller.Complete(old(Snapshot()), t, outcome)
    {
      if t == token && awaiting {
        match outcome {
          case Success(p) =>
            books := p.results;
            totalResults := p.numFound;
          case Failure(_) =>
            error := Controller.FailureMessage;
        }
        loading := false;
        awaiting := false;
      }
    }

    /** The page count the pagination is drawn with. */
    function TotalPages(): (n: int)
      reads this
      ensures n >= 1
      ensures n == Controller.TotalPages(Snapshot())
    {
      Paging.TotalPages(totalResults, |books|)
    }
  }
}
