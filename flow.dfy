/**
 * The console flow as a state machine. The program threads it through
 * mutual recursion (`askUser` → fetch completion → `promptUserWithQuestion`
 * → `askUser…`); here each input the program waits for is an event, and
 * `Next` gives the state after it together with what the program shows.
 */
module Flow {
  import opened Wrappers
  import opened Company
  import opened Query
  import opened Ratings

  /** `QuestionType`: the screen a yes/no prompt leads to on "y". */
  datatype Question = SearchNewCompany | GetProsAndCons | GetWorkLifeBalance | GetRatingDetail | GetStanleyRating | AskExit

  /** The screens, one per `askUser…` function. */
  datatype Screen = Search | ProsCons | OverallRating | RatingDetail | CustomScore | ExitGate

  /** Where the program is waiting. */
  datatype Phase =
    | AtSearch                    // `askUser` waits for a company name
    | Fetching(query: string)     // the request is out; the completion has not run
    | AtGate(question: Question)  // `promptUserWithQuestion` waits for y/n
    | AtExitGate                  // `askUserExit` waits for y/n
    | Terminated                  // `exit(0)`
    | Stuck                       // input ended at the search prompt; nothing more happens

  /** What the program waits for: a console line (`None` once input has ended) or the fetched employers. */
  datatype Event = Line(text: Option<string>) | Fetched(employers: seq<CompanyDetails>)

  /** What the program shows, without the wording and the emoji. */
  datatype Shown =
    | Welcome                                                     // banner and search prompt
    | NothingEntered                                              // empty search line
    | Help                                                        // usage text
    | Request(url: string)                                        // the one fetch of a search
    | NotFound(query: string)                                     // no employer matched
    | Found(blurb: Blurb, headline: string, whereabouts: Whereabouts)
    | ProsAndCons(pros: string, cons: string)
    | Stars(name: string, reviews: int, line: string)
    | Details(rows: seq<Rating>)
    | Score(value: real)
    | Farewell

  /** The program's state: where it waits, and the globals `companyOverview` and `companyReview`. */
  datatype Session = Session(phase: Phase, overview: Option<CompanyDetails>, review: Option<CompanyReview>)

  /** The state after an event and what was shown on the way. */
  datatype Transition = Transition(session: Session, shown: seq<Shown>)

  /** At launch the program is at the search prompt with nothing selected. */
  function Start(): Session
  {
    Session(AtSearch, None, None)
  }

  /** The switch of `promptUserWithQuestion`. */
  function Target(q: Question): Screen
  {
    match q
    case SearchNewCompany => Search
    case GetProsAndCons => ProsCons
    case GetWorkLifeBalance => OverallRating
    case GetRatingDetail => RatingDetail
    case GetStanleyRating => CustomScore
    case AskExit => ExitGate
  }

  /** Which events can arrive in a phase: lines at the prompts, employers while a fetch is out. */
  predicate Awaits(p: Phase, e: Event)
  {
    match p
    case AtSearch => e.Line?
    case Fetching(_) => e.Fetched? && forall i :: 0 <= i < |e.employers| ==> Rated(e.employers[i])
    case AtGate(_) => e.Line?
    case AtExitGate => e.Line?
    case Terminated => false
    case Stuck => false
  }

  /** A company is selected, its review is the company's featured review, and its ratings are on the scale. */
  predicate Selected(s: Session)
  {
    && s.overview.Some?
    && s.review == Some(s.overview.value.featuredReview)
    && Rated(s.overview.value)
  }

  /**
   * The invariant of the flow: the two globals are set together, and every
   * screen after the search has a selection to show (no unwrap of
   * `companyOverview` or `companyReview` in the source can fail).
   */
  predicate Ready(s: Session)
  {
    && (s.overview.Some? || s.review.Some? ==> Selected(s))
    && (s.phase.AtGate? || s.phase.AtExitGate? ==> Selected(s))
  }

  /** Shows `before` and then makes transition `t`. */
  function Then(before: seq<Shown>, t: Transition): Transition
  {
    Transition(t.session, before + t.shown)
  }

  /** The `askUser…` function of each screen: what it shows and where it then waits. */
  function Enter(s: Session, screen: Screen): Transition
    requires screen == Search || Selected(s)
  {
    match screen
    case Search =>
      Transition(s.(phase := AtSearch), [Welcome])
    case ProsCons =>
      Transition(s.(phase := AtGate(GetWorkLifeBalance)), [ProsAndCons(s.review.value.pros, s.review.value.cons)])
    case OverallRating =>
      var c := s.overview.value;
      Transition(s.(phase := AtGate(GetRatingDetail)), [Stars(c.name, c.numberOfRatings, StarLine(StarCount(c.overallRating)))])
    case RatingDetail =>
      Transition(s.(phase := AtGate(GetStanleyRating)), [Details(RankedCategories(s.overview.value))])
    case CustomScore =>
      Transition(s.(phase := AtExitGate), [Score(StanleyRating(s.overview.value))])
    case ExitGate =>
      Transition(s.(phase := AtExitGate), [])
  }

  /** The farewell and `exit(0)`. */
  function Quit(s: Session): Transition
  {
    Transition(s.(phase := Terminated), [Farewell])
  }

  /** `askUser` after `readLine()`. */
  function OnSearchLine(s: Session, line: Option<string>): Transition
  {
    match line
    case None => Transition(s.(phase := Stuck), [])
    case Some(text) =>
      if text == "" then Then([NothingEntered], Enter(s, Search))
      else if text == "help" then Then([Help], Enter(s, Search))
      else Transition(s.(phase := Fetching(text)), [Request(RequestUrl(text))])
  }

  /** What the completion prints for one employer: description, headline and location. */
  function Announce(company: CompanyDetails): Shown
  {
    Found(Describe(company, Some(company)), company.featuredReview.headline, WhereaboutsOf(company.featuredReview))
  }

  /** The completion handler of the fetch started for `query`. */
  function OnFetched(s: Session, query: string, employers: seq<CompanyDetails>): Transition
  {
    if |employers| == 0 then
      Then([NotFound(query)], Enter(s, Search))
    else
      var last := employers[|employers| - 1];
      Transition(Session(AtGate(GetProsAndCons), Some(last), Some(last.featuredReview)),
                 seq(|employers|, i requires 0 <= i < |employers| => Announce(employers[i])))
  }

  /** `promptUserWithQuestion` after `readLine()`. */
  function OnGateLine(s: Session, q: Question, line: Option<string>): Transition
    requires Selected(s)
  {
    if line == Some("y") then Enter(s, Target(q)) else Quit(s)
  }

  /** `askUserExit` after `readLine()`. */
  function OnExitLine(s: Session, line: Option<string>): Transition
  {
    if line == Some("y") then Enter(s, Search) else Quit(s)
  }

  /** One step of the flow; it keeps the invariant. */
  function Next(s: Session, e: Event): (t: Transition)
    requires Ready(s) && Awaits(s.phase, e)
    ensures Ready(t.session)
  {
    match s.phase
    case AtSearch => OnSearchLine(s, e.text)
    case Fetching(q) => OnFetched(s, q, e.employers)
    case AtGate(q) => OnGateLine(s, q, e.text)
    case AtExitGate => OnExitLine(s, e.text)
  }

  /** The events of a run, taken one at a time until one is not awaited. */
  function Run(s: Session, events: seq<Event>): (t: Transition)
    requires Ready(s)
    ensures Ready(t.session)
    decreases |events|
  {
    if events == [] || !Awaits(s.phase, events[0]) then Transition(s, [])
    else
      var t := Next(s, events[0]);
      Then(t.shown, Run(t.session, events[1..]))
  }

  /** How many fetches a stretch of output issues. */
  function Requests(shown: seq<Shown>): nat
  {
    if shown == [] then 0
    else (if shown[0].Request? then 1 else 0) + Requests(shown[1..])
  }

  // ------------------------------------------------------------ properties

  /**
   * At the search prompt an empty line or "help" shows a message and the
   * prompt again without a fetch; any other line issues exactly one fetch, for
   * the normalised name, and waits for it.
   */
  lemma SearchLine(s: Session, text: string)
    requires Ready(s) && s.phase == AtSearch
    ensures var t := Next(s, Line(Some(text)));
            if text == "" || text == "help" then
              t.session == s && Requests(t.shown) == 0
              && t.shown == [if text == "" then NothingEntered else Help, Welcome]
            else
              t.session == s.(phase := Fetching(text)) && Requests(t.shown) == 1
              && t.shown == [Request(RequestUrl(text))]
              && QueryOf(t.shown[0].url) == Hyphenate(text)
  {
    var t := Next(s, Line(Some(text)));
    if text == "" || text == "help" {
      assert t.shown[1..][1..] == [];
    } else {
      RequestUrlRoundTrip(text);
    }
  }

  /** Only a search line issues a fetch. */
  lemma OnlySearchLinesFetch(s: Session, e: Event)
    requires Ready(s) && Awaits(s.phase, e)
    requires Requests(Next(s, e).shown) > 0
    ensures s.phase == AtSearch && e.text.Some? && e.text.value != "" && e.text.value != "help"
  {
    var t := Next(s, e);
    match s.phase {
      case AtSearch =>
        if e.text.Some? {
          SearchLine(s, e.text.value);
        }
      case Fetching(q) =>
        if |e.employers| != 0 {
          NoRequestsAnnounced(t.shown);
        }
      case AtGate(q) =>
      case AtExitGate =>
    }
  }

  /** The output of a successful fetch holds no request. */
  lemma {:induction false} NoRequestsAnnounced(shown: seq<Shown>)
    requires forall i :: 0 <= i < |shown| ==> shown[i].Found?
    ensures Requests(shown) == 0
  {
    if shown != [] {
      NoRequestsAnnounced(shown[1..]);
    }
  }

  /** An empty result leaves the selection as it was and returns to the search prompt. */
  lemma FetchedNothing(s: Session, q: string)
    requires Ready(s) && s.phase == Fetching(q)
    ensures Next(s, Fetched([])) == Transition(s.(phase := AtSearch), [NotFound(q), Welcome])
  {
  }

  /**
   * A non-empty result selects its last employer, stores that employer's
   * featured review, announces every employer in turn and moves to the
   * pros/cons prompt.
   */
  lemma FetchedEmployers(s: Session, q: string, employers: seq<CompanyDetails>)
    requires Ready(s) && s.phase == Fetching(q) && Awaits(s.phase, Fetched(employers))
    requires employers != []
    ensures var t := Next(s, Fetched(employers));
            var last := employers[|employers| - 1];
            && t.session.phase == AtGate(GetProsAndCons)
            && t.session.overview == Some(last)
            && t.session.review == Some(CompanyReview(last.featuredReview.location, last.featuredReview.headline,
                                                      last.featuredReview.pros, last.featuredReview.cons))
            && |t.shown| == |employers|
            && (forall i :: 0 <= i < |employers| ==> t.shown[i].Found? && t.shown[i].blurb.name == employers[i].name)
            && Requests(t.shown) == 0
  {
    var t := Next(s, Fetched(employers));
    NoRequestsAnnounced(t.shown);
  }

  /**
   * Announcement `i` of a result is all about employer `i`: its own name,
   * website and industry (the global read by `description` is that employer
   * at that moment), its featured headline, and its location, or "various
   * places" exactly when the location is empty.
   */
  lemma AnnouncedEmployer(s: Session, q: string, employers: seq<CompanyDetails>, i: nat)
    requires Ready(s) && s.phase == Fetching(q) && Awaits(s.phase, Fetched(employers))
    requires i < |employers|
    ensures var a := Next(s, Fetched(employers)).shown[i];
            var e := employers[i];
            && a.Found?
            && a.blurb == (if e.industryName.Some? then InIndustry(e.name, e.website, e.industryName.value)
                           else NotIdentifiable(e.name, e.website))
            && a.headline == e.featuredReview.headline
            && (a.whereabouts.VariousPlaces? <==> |e.featuredReview.location| == 0)
            && (a.whereabouts.At? ==> a.whereabouts.place == e.featuredReview.location)
  {
    DescribeSelected(employers[i]);
  }

  /**
   * At a prompt exactly "y" opens the screen the question names; "n", any
   * other text and the end of input say farewell and terminate, keeping the
   * selection.
   */
  lemma GateLine(s: Session, q: Question, line: Option<string>)
    requires Ready(s) && s.phase == AtGate(q)
    ensures line == Some("y") ==> Next(s, Line(line)) == Enter(s, Target(q))
    ensures line != Some("y") ==> Next(s, Line(line)) == Transition(s.(phase := Terminated), [Farewell])
  {
  }

  /** At the last prompt "y" goes back to the search with the selection kept; anything else terminates. */
  lemma ExitLine(s: Session, line: Option<string>)
    requires Ready(s) && s.phase == AtExitGate
    ensures line == Some("y") ==> Next(s, Line(line)) == Transition(s.(phase := AtSearch), [Welcome])
    ensures line != Some("y") ==> Next(s, Line(line)) == Transition(s.(phase := Terminated), [Farewell])
  {
  }

  /**
   * Every screen after the search waits at the prompt for the next screen;
   * the custom score goes straight on to the last prompt.
   */
  lemma ScreenOrder(s: Session)
    requires Selected(s)
    ensures Enter(s, ProsCons).session.phase == AtGate(GetWorkLifeBalance)
    ensures Enter(s, OverallRating).session.phase == AtGate(GetRatingDetail)
    ensures Enter(s, RatingDetail).session.phase == AtGate(GetStanleyRating)
    ensures Enter(s, CustomScore).session.phase == AtExitGate
    ensures Target(SearchNewCompany) == Search && Target(AskExit) == ExitGate
  {
  }

  /** Only the completion of a fetch with a result changes the selection. */
  lemma SelectionChangesOnlyOnResult(s: Session, e: Event)
    requires Ready(s) && Awaits(s.phase, e)
    requires !(e.Fetched? && e.employers != [])
    ensures Next(s, e).session.overview == s.overview
    ensures Next(s, e).session.review == s.review
  {
  }

  /**
   * Answering "y" at every prompt after a search shows pros and cons, the
   * stars, the sorted categories and the score, and comes back to the
   * search prompt with the selection kept.
   */
  lemma YesToEverything(s: Session)
    requires Ready(s) && s.phase == AtGate(GetProsAndCons)
    ensures var yes := Line(Some("y"));
            var c := s.overview.value;
            Run(s, [yes, yes, yes, yes, yes]) == Transition(s.(phase := AtSearch), [
              ProsAndCons(c.featuredReview.pros, c.featuredReview.cons),
              Stars(c.name, c.numberOfRatings, StarLine(StarCount(c.overallRating))),
              Details(RankedCategories(c)),
              Score(StanleyRating(c)),
              Welcome])
  {
    var yes := Line(Some("y"));
    var s1 := s.(phase := AtGate(GetWorkLifeBalance));
    ProsConsOnYes(s);
    RunCons(s, yes, [yes, yes, yes, yes]);
    YesFromOverallRating(s1);
    assert [yes] + [yes, yes, yes, yes] == [yes, yes, yes, yes, yes];
  }

  /** The last four answers of `YesToEverything`. */
  lemma YesFromOverallRating(s: Session)
    requires Ready(s) && s.phase == AtGate(GetWorkLifeBalance)
    ensures var yes := Line(Some("y"));
            var c := s.overview.value;
            Run(s, [yes, yes, yes, yes]) == Transition(s.(phase := AtSearch), [
              Stars(c.name, c.numberOfRatings, StarLine(StarCount(c.overallRating))),
              Details(RankedCategories(c)),
              Score(StanleyRating(c)),
              Welcome])
  {
    var yes := Line(Some("y"));
    OverallRatingOnYes(s);
    RunCons(s, yes, [yes, yes, yes]);
    YesFromRatingDetail(s.(phase := AtGate(GetRatingDetail)));
    assert [yes] + [yes, yes, yes] == [yes, yes, yes, yes];
  }

  /** The last three answers of `YesToEverything`. */
  lemma YesFromRatingDetail(s: Session)
    requires Ready(s) && s.phase == AtGate(GetRatingDetail)
    ensures var yes := Line(Some("y"));
            var c := s.overview.value;
            Run(s, [yes, yes, yes]) == Transition(s.(phase := AtSearch), [
              Details(RankedCategories(c)),
              Score(StanleyRating(c)),
              Welcome])
  {
    var yes := Line(Some("y"));
    RatingDetailOnYes(s);
    RunCons(s, yes, [yes, yes]);
    YesFromCustomScore(s.(phase := AtGate(GetStanleyRating)));
    assert [yes] + [yes, yes] == [yes, yes, yes];
  }

  /** The last two answers of `YesToEverything`. */
  lemma YesFromCustomScore(s: Session)
    requires Ready(s) && s.phase == AtGate(GetStanleyRating)
    ensures var yes := Line(Some("y"));
            Run(s, [yes, yes]) == Transition(s.(phase := AtSearch), [Score(StanleyRating(s.overview.value)), Welcome])
  {
    var yes := Line(Some("y"));
    var s4 := s.(phase := AtExitGate);
    CustomScoreOnYes(s);
    ExitLine(s4, Some("y"));
    RunCons(s4, yes, []);
    assert [yes] + [] == [yes];
    RunCons(s, yes, [yes]);
    assert [yes] + [yes] == [yes, yes];
  }

  /** "y" at the first prompt shows the featured review's pros and cons. */
  lemma ProsConsOnYes(s: Session)
    requires Ready(s) && s.phase == AtGate(GetProsAndCons)
    ensures var r := s.overview.value.featuredReview;
            Next(s, Line(Some("y"))) == Transition(s.(phase := AtGate(GetWorkLifeBalance)), [ProsAndCons(r.pros, r.cons)])
  {
  }

  /** "y" at the second prompt shows the overall rating as truncated stars. */
  lemma OverallRatingOnYes(s: Session)
    requires Ready(s) && s.phase == AtGate(GetWorkLifeBalance)
    ensures var c := s.overview.value;
            Next(s, Line(Some("y"))) == Transition(s.(phase := AtGate(GetRatingDetail)),
              [Stars(c.name, c.numberOfRatings, StarLine(StarCount(c.overallRating)))])
  {
  }

  /** "y" at the third prompt shows the four categories ranked. */
  lemma RatingDetailOnYes(s: Session)
    requires Ready(s) && s.phase == AtGate(GetRatingDetail)
    ensures Next(s, Line(Some("y"))) == Transition(s.(phase := AtGate(GetStanleyRating)),
              [Details(RankedCategories(s.overview.value))])
  {
  }

  /** "y" at the fourth prompt shows the custom score and goes on to the last prompt. */
  lemma CustomScoreOnYes(s: Session)
    requires Ready(s) && s.phase == AtGate(GetStanleyRating)
    ensures Next(s, Line(Some("y"))) == Transition(s.(phase := AtExitGate), [Score(StanleyRating(s.overview.value))])
  {
  }

  /** A run that starts with an awaited event takes that step first. */
  lemma RunCons(s: Session, e: Event, rest: seq<Event>)
    requires Ready(s) && Awaits(s.phase, e)
    ensures Run(s, [e] + rest) == Then(Next(s, e).shown, Run(Next(s, e).session, rest))
  {
    assert ([e] + rest)[0] == e && ([e] + rest)[1..] == rest;
  }

  /** A run from launch never reaches a screen without a selection. */
  lemma RunFromStartIsReady(events: seq<Event>)
    ensures Ready(Run(Start(), events).session)
  {
  }
}
