/**
 * The employer record decoded from the API and the custom `==`, `<` and
 * `description` that the program gives it.
 *
 * Rating fields arrive as numeric strings; here they are the values that
 * parsing them yields.
 */
module Company {
  import opened Wrappers

  /** The featured review embedded in every employer record. */
  datatype CompanyReview = CompanyReview(location: string, headline: string, pros: string, cons: string)

  /** One employer as decoded from the `employers` array of a response. */
  datatype CompanyDetails = CompanyDetails(
    name: string,
    industryName: Option<string>,
    website: string,
    numberOfRatings: int,
    ratingDescription: string,
    seniorLeadershipRating: real,
    compensationAndBenefitsRating: real,
    careerOpportunitiesRating: real,
    workLifeBalanceRating: real,
    overallRating: real,
    featuredReview: CompanyReview)

  /** The custom `==`: two records are the same company when name and website agree. */
  predicate Same(a: CompanyDetails, b: CompanyDetails)
  {
    a.name == b.name && a.website == b.website
  }

  /** The custom `<`: records are ordered by how many ratings they received. */
  predicate Before(a: CompanyDetails, b: CompanyDetails)
  {
    a.numberOfRatings < b.numberOfRatings
  }

  /** `==` is an equivalence relation. */
  lemma SameIsEquivalence(a: CompanyDetails, b: CompanyDetails, c: CompanyDetails)
    ensures Same(a, a)
    ensures Same(a, b) ==> Same(b, a)
    ensures Same(a, b) && Same(b, c) ==> Same(a, c)
  {
  }

  /** `==` only looks at name and website: rewriting any other field leaves the verdict unchanged. */
  lemma SameIgnoresOtherFields(a: CompanyDetails, b: CompanyDetails, industry: Option<string>, count: int,
                               description: string, leadership: real, compensation: real, career: real,
                               workLife: real, overall: real, review: CompanyReview)
    ensures Same(a.(industryName := industry, numberOfRatings := count, ratingDescription := description,
                    seniorLeadershipRating := leadership, compensationAndBenefitsRating := compensation,
                    careerOpportunitiesRating := career, workLifeBalanceRating := workLife,
                    overallRating := overall, featuredReview := review), b)
            <==> Same(a, b)
  {
  }

  /** `<` is a strict order: irreflexive, asymmetric and transitive. */
  lemma BeforeIsStrictOrder(a: CompanyDetails, b: CompanyDetails, c: CompanyDetails)
    ensures !Before(a, a)
    ensures Before(a, b) ==> !Before(b, a)
    ensures Before(a, b) && Before(b, c) ==> Before(a, c)
  {
  }

  /**
   * `==` and `<` look at disjoint fields, so they do not form one total order:
   * a record can be `==` to another and `<` it at the same time, and two
   * different companies with equally many ratings are neither `==` nor `<`.
   */
  lemma SameAndBeforeDisagree(a: CompanyDetails)
    ensures Same(a, a.(numberOfRatings := a.numberOfRatings + 1))
    ensures Before(a, a.(numberOfRatings := a.numberOfRatings + 1))
    ensures var b := a.(name := a.name + "!");
            !Same(a, b) && !Before(a, b) && !Before(b, a)
  {
    var b := a.(name := a.name + "!");
    assert |b.name| == |a.name| + 1;
  }

  /** What the first line of `description` says about the company. */
  datatype Blurb =
    | InIndustry(name: string, website: string, industry: string)
    | NotIdentifiable(name: string, website: string)

  /**
   * `description` of `company`. Name and website are the company's own, but
   * the industry is read from the global selection `selected`, not from
   * `company` itself.
   */
  function Describe(company: CompanyDetails, selected: Option<CompanyDetails>): (r: Blurb)
    ensures r.name == company.name && r.website == company.website
    ensures r.InIndustry? <==> selected.Some? && selected.value.industryName.Some?
    ensures r.InIndustry? ==> r.industry == selected.value.industryName.value
  {
    if selected.Some? && selected.value.industryName.Some? then
      InIndustry(company.name, company.website, selected.value.industryName.value)
    else
      NotIdentifiable(company.name, company.website)
  }

  /** When the selection is the company itself, the description reports the company's own industry. */
  lemma DescribeSelected(company: CompanyDetails)
    ensures Describe(company, Some(company)).InIndustry? <==> company.industryName.Some?
    ensures company.industryName.Some? ==>
              Describe(company, Some(company)) == InIndustry(company.name, company.website, company.industryName.value)
    ensures company.industryName.None? ==>
              Describe(company, Some(company)) == NotIdentifiable(company.name, company.website)
  {
  }

  /** Where the featured review says the company is located. */
  datatype Whereabouts = VariousPlaces | At(place: string)

  /** An empty location reads as "various places in the States"; any other is shown as given. */
  function WhereaboutsOf(review: CompanyReview): (r: Whereabouts)
    ensures r.VariousPlaces? <==> |review.location| == 0
    ensures r.At? ==> r.place == review.location
  {
    if |review.location| == 0 then VariousPlaces else At(review.location)
  }
}
