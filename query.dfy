/**
 * The search request: the typed company name with every space replaced by a
 * hyphen, placed into the fixed employer-search URL of the web API.
 */
module Query {

  /** Everything of the request URL that comes before the employer name. */
  const Prefix: string := "http://api.glassdoor.com/api/api.htm?v=1&format=json&t.p=233892&t.k=CoMVQrzTBC&action=employers&q="

  /** Everything of the request URL that comes after the employer name. */
  const Suffix: string := "&ps=1"

  /** `replacingOccurrences(of: " ", with: "-")`, one character at a time. */
  function Hyphenate(s: string): (r: string)
    ensures |r| == |s|
    ensures forall i :: 0 <= i < |s| ==> r[i] == if s[i] == ' ' then '-' else s[i]
  {
    if s == [] then []
    else [if s[0] == ' ' then '-' else s[0]] + Hyphenate(s[1..])
  }

  /** The normalised name has no spaces left and keeps every other character in place. */
  lemma HyphenateNoSpaces(s: string)
    ensures ' ' !in Hyphenate(s)
    ensures forall i :: 0 <= i < |s| && s[i] != ' ' ==> Hyphenate(s)[i] == s[i]
    ensures forall i :: 0 <= i < |s| && s[i] == ' ' ==> Hyphenate(s)[i] == '-'
  {
  }

  /** A name without spaces is left as it is. */
  lemma HyphenateFixesSpaceless(s: string)
    requires ' ' !in s
    ensures Hyphenate(s) == s
  {
  }

  /** Normalising twice is normalising once. */
  lemma HyphenateIdempotent(s: string)
    ensures Hyphenate(Hyphenate(s)) == Hyphenate(s)
  {
    HyphenateNoSpaces(s);
    HyphenateFixesSpaceless(Hyphenate(s));
  }

  /** The URL string that the search hands to the fetcher for the text the user typed. */
  function RequestUrl(input: string): (url: string)
    ensures |url| == |Prefix| + |input| + |Suffix|
    ensures url[..|Prefix|] == Prefix
    ensures url[|url| - |Suffix|..] == Suffix
  {
    Prefix + Hyphenate(input) + Suffix
  }

  /** The employer name that a request URL asks for: the text between prefix and suffix. */
  function QueryOf(url: string): (name: string)
    requires |url| >= |Prefix| + |Suffix|
    ensures |name| == |url| - |Prefix| - |Suffix|
  {
    url[|Prefix|..|url| - |Suffix|]
  }

  /** Reading the name back out of a request URL gives the normalised input. */
  lemma RequestUrlRoundTrip(input: string)
    ensures QueryOf(RequestUrl(input)) == Hyphenate(input)
    ensures ' ' !in QueryOf(RequestUrl(input))
  {
    var url := RequestUrl(input);
    assert url == Prefix + Hyphenate(input) + Suffix;
    assert url[|Prefix|..|url| - |Suffix|] == Hyphenate(input);
  }

  /**
   * Two inputs lead to the same request exactly when they agree at every
   * position up to spaces and hyphens: a space and a hyphen are
   * indistinguishable to the API.
   */
  lemma RequestUrlCollides(a: string, b: string)
    ensures RequestUrl(a) == RequestUrl(b) <==> Hyphenate(a) == Hyphenate(b)
  {
    if RequestUrl(a) == RequestUrl(b) {
      RequestUrlRoundTrip(a);
      RequestUrlRoundTrip(b);
    }
  }

  /** For instance, "Trunk Club" and "Trunk-Club" send the same request. */
  lemma SpaceAndHyphenCollide()
    ensures RequestUrl("Trunk Club") == RequestUrl("Trunk-Club")
  {
    RequestUrlCollides("Trunk Club", "Trunk-Club");
    assert Hyphenate("Trunk Club") == Hyphenate("Trunk-Club");
  }
}
