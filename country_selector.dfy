/** The list logic of src/components/auth/CountrySelector.jsx: the search
    filter, the dial code shown for an entry, and the default selection made
    once the list has loaded. */
module CountrySelector {
  import opened Seqs
  import opened Text
  import opened Api

  predicate NameMatches(c: Country, query: string)
  {
    Contains(Lower(c.name), Lower(query))
  }

  function NameMatcher(query: string): Country -> bool
  {
    (c: Country) => NameMatches(c, query)
  }

  /** filteredCountries: the entries whose lower-cased name includes the
      lower-cased query, in list order; an empty query keeps them all. */
  function FilteredCountries(countries: seq<Country>, query: string): (r: seq<Country>)
    ensures forall c :: c in r <==> c in countries && NameMatches(c, query)
    ensures forall c :: multiset(r)[c] == if NameMatches(c, query) then multiset(countries)[c] else 0
    ensures IsSubsequence(r, countries)
    ensures query == "" ==> r == countries
  {
    if query == "" then
      forall c | c in countries ensures NameMatches(c, query) {
        ContainsEmpty(Lower(c.name));
      }
      Filter(countries, NameMatcher(query))
    else
      Filter(countries, NameMatcher(query))
  }

  /** An absent root concatenates as the text "undefined". */
  function RootText(root: Option<string>): string
  {
    match root
    case None => "undefined"
    case Some(s) => s
  }

  /** `suffixes?.[0] || ''`. */
  function FirstSuffix(suffixes: seq<string>): string
  {
    if |suffixes| > 0 then suffixes[0] else ""
  }

  /** getDialCode: the root followed by the first suffix, if any. */
  function DialCode(c: Country): (r: string)
    ensures IsPrefix(RootText(c.idd.root), r)
    ensures HasDialCode(c) ==> r == c.idd.root.value + c.idd.suffixes[0]
    ensures |c.idd.suffixes| > 0 ==> r == RootText(c.idd.root) + c.idd.suffixes[0]
    ensures |c.idd.suffixes| == 0 ==> r == RootText(c.idd.root)
  {
    var root := RootText(c.idd.root);
    assert (root + FirstSuffix(c.idd.suffixes))[..|root|] == root;
    root + FirstSuffix(c.idd.suffixes)
  }

  /** Every entry that fetchCountries keeps shows its own non-empty root
      followed by its first suffix as its dial code. */
  lemma ListedDialCodes(fetched: seq<Country>, leq: (string, string) -> bool)
    requires Total(leq)
    ensures forall c :: c in ListCountries(fetched, leq) ==>
      c.idd.root.Some? && DialCode(c) == c.idd.root.value + c.idd.suffixes[0] && |DialCode(c)| > 0
  {
  }

  predicate IsUS(c: Country)
  {
    c.cca2 == "US"
  }

  /** The country handed to onSelect after loading, if any: only when nothing
      is selected and the list is not empty, the first entry with code "US",
      or else the first entry. */
  function DefaultCountry(selected: Option<Country>, data: seq<Country>): (r: Option<Country>)
    ensures selected.Some? || data == [] ==> r == None
    ensures selected.None? && data != [] ==> r.Some? && r.value in data
    ensures selected.None? && (exists i :: 0 <= i < |data| && IsUS(data[i])) ==>
      r.Some? && IsUS(r.value) && exists i :: 0 <= i < |data| && data[i] == r.value && forall j :: 0 <= j < i ==> !IsUS(data[j])
    ensures selected.None? && data != [] && (forall i :: 0 <= i < |data| ==> !IsUS(data[i])) ==> r == Some(data[0])
  {
    if selected.Some? || data == [] then None
    else
      match FindIndex(data, IsUS)
      case Some(i) => Some(data[i])
      case None => Some(data[0])
  }
}
