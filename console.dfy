/**
 * The program itself: the two globals `companyOverview` and `companyReview`
 * and the point where the program waits, updated in place by the
 * `askUser…` functions. Each method is proved to do what the matching
 * function of `Flow` says, so every property proved there holds of it.
 */
module Cli {
  import opened Wrappers
  import opened Company
  import opened Query
  import opened Ratings
  import opened Flow

  class Console {
    var phase: Phase
    var companyOverview: Option<CompanyDetails>
    var companyReview: Option<CompanyReview>

    /** The state as a value of the flow. */
    function Model(): Session
      reads this
    {
      Session(phase, companyOverview, companyReview)
    }

    /** The globals are set together and every screen after the search has a selection. */
    ghost predicate Valid()
      reads this
    {
      Ready(Model())
    }

    /** Launch: nothing selected, waiting at the search prompt. */
    constructor ()
      ensures Model() == Start()
      ensures Valid()
    {
      phase := AtSearch;
      companyOverview := None;
      companyReview := None;
    }

    /** Handles the event the program waits for. */
    method Step(e: Event) returns (shown: seq<Shown>)
      requires Valid() && Awaits(phase, e)
      modifies this
      ensures Valid()
      ensures Transition(Model(), shown) == Next(old(Model()), e)
    {
      if phase == AtSearch {
        shown := AskUser(e.text);
      } else if phase.Fetching? {
        shown := Complete(phase.query, e.employers);
      } else if phase.AtGate? {
        shown := PromptUserWithQuestion(phase.question, e.text);
      } else {
        shown := AskUserExit(e.text);
      }
    }

    /** Handles events one after the other until one is not awaited. */
    method Serve(events: seq<Event>) returns (shown: seq<Shown>)
      requires Valid()
      modifies this
      ensures Valid()
      ensures Transition(Model(), shown) == Run(old(Model()), events)
    {
      shown := [];
      var i := 0;
      while i < |events| && Awaits(phase, events[i])
        invariant 0 <= i <= |events|
        invariant Valid()
        invariant Then(shown, Run(Model(), events[i..])) == Run(old(Model()), events)
      {
        var more := Step(events[i]);
        assert events[i..][0] == events[i] && events[i..][1..] == events[i + 1..];
        shown := shown + more;
        i := i + 1;
      }
    }

    /** `askUser` once a line has been read. */
    method AskUser(line: Option<string>) returns (shown: seq<Shown>)
      requires Valid() && phase == AtSearch
      modifies this
      ensures Valid()
      ensures Transition(Model(), shown) == OnSearchLine(old(Model()), line)
    {
      match line
      case None =>
        phase := Stuck;
        shown := [];
      case Some(input) =>
        if input == "" {
          var again := Open(Search);
          shown := [NothingEntered] + again;
        } else if input == "help" {
          var again := Open(Search);
          shown := [Help] + again;
        } else {
          var urlString := RequestUrl(input);
          phase := Fetching(input);
          shown := [Request(urlString)];
        }
    }

    /** The completion handler of the fetch for `query`: the loop over the employers. */
    method Complete(query: string, employers: seq<CompanyDetails>) returns (shown: seq<Shown>)
      requires Valid() && phase == Fetching(query)
      requires forall i :: 0 <= i < |employers| ==> Rated(employers[i])
      modifies this
      ensures Valid()
      ensures Transition(Model(), shown) == OnFetched(old(Model()), query, employers)
    {
      var success := false;
      shown := [];
      if |employers| == 0 {
        shown := [NotFound(query)];
        success := false;
      } else {
        for i := 0 to |employers|
          invariant phase == Fetching(query)
          invariant |shown| == i
          invariant forall k :: 0 <= k < i ==> shown[k] == Announce(employers[k])
          invariant success <==> 0 < i
          invariant 0 < i ==> companyOverview == Some(employers[i - 1])
          invariant 0 < i ==> companyReview == Some(employers[i - 1].featuredReview)
        {
          var company := employers[i];
          companyReview := Some(company.featuredReview);
          companyOverview := Some(company);
          shown := shown + [Announce(company)];
          success := true;
        }
      }
      if success {
        phase := AtGate(GetProsAndCons);
      } else {
        var again := Open(Search);
        shown := shown + again;
      }
    }

    /** `promptUserWithQuestion` once a line has been read. */
    method PromptUserWithQuestion(q: Question, line: Option<string>) returns (shown: seq<Shown>)
      requires Valid() && phase == AtGate(q)
      modifies this
      ensures Valid()
      ensures Transition(Model(), shown) == OnGateLine(old(Model()), q, line)
    {
      if line == Some("y") {
        shown := Open(Target(q));
      } else if line == Some("n") {
        shown := Exit();
      } else {
        shown := Exit();
      }
    }

    /** `askUserExit` once a line has been read. */
    method AskUserExit(line: Option<string>) returns (shown: seq<Shown>)
      requires Valid() && phase == AtExitGate
      modifies this
      ensures Valid()
      ensures Transition(Model(), shown) == OnExitLine(old(Model()), line)
    {
      if line == Some("y") {
        shown := Open(Search);
      } else if line == Some("n") {
        shown := Exit();
      } else {
        shown := Exit();
      }
    }

    /** The farewell and `exit(0)`. */
    method Exit() returns (shown: seq<Shown>)
      modifies this
      ensures Transition(Model(), shown) == Quit(old(Model()))
    {
      phase := Terminated;
      shown := [Farewell];
    }

    /** Calls the `askUser…` function of a screen. */
    method Open(screen: Screen) returns (shown: seq<Shown>)
      requires screen == Search || Selected(Model())
      modifies this
      ensures Transition(Model(), shown) == Enter(old(Model()), screen)
    {
      match screen
      case Search =>
        phase := AtSearch;
        shown := [Welcome];
      case ProsCons =>
        shown := AskUserProCon();
      case OverallRating =>
        shown := AskUserOverallRating();
      case RatingDetail =>
        shown := AskUserRatingDetail();
      case CustomScore =>
        shown := AskUserStanleyRating();
      case ExitGate =>
        phase := AtExitGate;
        shown := [];
    }

    /** `askUserProCon`: the featured review's pros and cons. */
    method AskUserProCon() returns (shown: seq<Shown>)
      requires Selected(Model())
      modifies this
      ensures Transition(Model(), shown) == Enter(old(Model()), ProsCons)
    {
      shown := [ProsAndCons(companyReview.value.pros, companyReview.value.cons)];
      phase := AtGate(GetWorkLifeBalance);
    }

    /** `askUserOverallRating`: the overall rating drawn one star at a time. */
    method AskUserOverallRating() returns (shown: seq<Shown>)
      requires Selected(Model())
      modifies this
      ensures Transition(Model(), shown) == Enter(old(Model()), OverallRating)
    {
      var company := companyOverview.value;
      var convertStar := StarCount(company.overallRating);
      StarCountOnScale(company.overallRating);
      var stars := DrawStars(convertStar);
      shown := [Stars(company.name, company.numberOfRatings, stars)];
      phase := AtGate(GetRatingDetail);
    }

    /** `askUserRatingDetail`: the four categories, highest rating first. */
    method AskUserRatingDetail() returns (shown: seq<Shown>)
      requires Selected(Model())
      modifies this
      ensures Transition(Model(), shown) == Enter(old(Model()), RatingDetail)
    {
      var sortedOutput := RankedCategories(companyOverview.value);
      shown := [Details(sortedOutput)];
      phase := AtGate(GetStanleyRating);
    }

    /** `askUserStanleyRating`: the custom score, then the last prompt. */
    method AskUserStanleyRating() returns (shown: seq<Shown>)
      requires Selected(Model())
      modifies this
      ensures Transition(Model(), shown) == Enter(old(Model()), CustomScore)
    {
      var ratingScale100 := StanleyRating(companyOverview.value);
      shown := [Score(ratingScale100)];
      phase := AtExitGate;
    }
  }
}
