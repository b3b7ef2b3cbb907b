/** The pure parts of src/utils/api.js: the country list that fetchCountries
    derives from the fetched entries, and the two simulated OTP calls. */
module Api {
  import opened Seqs
  import opened Text

  /** `idd` of a fetched country: the dial-code root (possibly absent) and
      its suffixes (an absent list reads as empty). */
  datatype Idd = Idd(root: Option<string>, suffixes: seq<string>)

  /** A fetched country; `name` is its `name.common`. */
  datatype Country = Country(name: string, cca2: string, idd: Idd)

  /** The filter of fetchCountries: a truthy root and at least one suffix. */
  predicate HasDialCode(c: Country)
  {
    c.idd.root.Some? && c.idd.root.value != "" && |c.idd.suffixes| > 0
  }

  /** `leq(a, b)` stands for `a.localeCompare(b) <= 0`; any two names are
      comparable. */
  ghost predicate Total(leq: (string, string) -> bool)
  {
    forall a, b :: leq(a, b) || leq(b, a)
  }

  ghost predicate SortedByName(cs: seq<Country>, leq: (string, string) -> bool)
  {
    forall i :: 0 < i < |cs| ==> leq(cs[i - 1].name, cs[i].name)
  }

  /** Puts `c` in front of the first entry it does not sort after. */
  function InsertByName(c: Country, sorted: seq<Country>, leq: (string, string) -> bool): (r: seq<Country>)
    requires Total(leq) && SortedByName(sorted, leq)
    ensures SortedByName(r, leq)
    ensures multiset(r) == multiset(sorted) + multiset{c}
    ensures r[0] == c || (sorted != [] && r[0] == sorted[0])
  {
    if sorted == [] then [c]
    else if leq(c.name, sorted[0].name) then [c] + sorted
    else
      assert sorted == [sorted[0]] + sorted[1..];
      [sorted[0]] + InsertByName(c, sorted[1..], leq)
  }

  /** The `sort` of fetchCountries, by `name.common`. */
  function SortByName(cs: seq<Country>, leq: (string, string) -> bool): (r: seq<Country>)
    requires Total(leq)
    ensures SortedByName(r, leq)
    ensures multiset(r) == multiset(cs)
  {
    if cs == [] then []
    else
      assert cs == [cs[0]] + cs[1..];
      InsertByName(cs[0], SortByName(cs[1..], leq), leq)
  }

  /** fetchCountries once the response is parsed: exactly the entries with
      a dial code, each as often as fetched, sorted by name. */
  function ListCountries(fetched: seq<Country>, leq: (string, string) -> bool): (r: seq<Country>)
    requires Total(leq)
    ensures SortedByName(r, leq)
    ensures multiset(r) == multiset(Filter(fetched, HasDialCode))
    ensures forall c :: c in r <==> c in fetched && HasDialCode(c)
  {
    var r := SortByName(Filter(fetched, HasDialCode), leq);
    assert forall c :: c in r <==> c in multiset(r);
    r
  }

  /** simulateOTPSend resolves to true whatever the number. */
  function SimulateOtpSend(phone: string): (sent: bool)
    ensures sent
  {
    true
  }

  /** simulateOTPVerification: 4 to 6 characters, all ASCII digits. */
  predicate SimulateOtpVerification(otp: string)
  {
    4 <= |otp| <= 6 && AllDigits(otp)
  }

  /** The simulated verification accepts the decimal rendering of a number
      exactly when the number has four to six digits. */
  lemma RenderedCodeVerifies(n: nat)
    ensures SimulateOtpVerification(NatToDecimal(n)) <==> 1000 <= n < 1000000
  {
    DecimalLength(n, 3);
    DecimalLength(n, 6);
    assert Pow10(3) == 1000;
    assert Pow10(6) == 1000000;
  }
}
