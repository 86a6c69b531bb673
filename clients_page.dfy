/**
 * The admin client list view: the country options it offers, the five
 * filters it ANDs together, the two in-place sorts it runs on the result,
 * and the seven pieces of filter state its controls update.
 *
 * The list rows carry a subscription tier that the flat fixture record
 * does not have, so a row here is a fixture record paired with a tier.
 */
module ClientsPage {
  import opened Wrappers
  import opened Seqs
  import opened JsString
  import opened StableSort
  import opened Clients

  /** A row of the list: the flat record plus the subscription tier the view reads. */
  datatype ListedClient = ListedClient(base: Client, subscriptionType: SubscriptionType)

  // -------------------------------------------------------------- countries

  /** `location.split(",").pop()?.trim()`: the trimmed text after the last comma. */
  function CountryOf(location: string): string {
    Trim(LastSegment(location, ','))
  }

  /** A `"City, Country"` location yields its country. */
  lemma CountryOfCityCountry(city: string, country: string)
    requires ',' !in city && ',' !in country
    requires country != [] && !IsJsWhitespace(country[0]) && !IsJsWhitespace(country[|country| - 1])
    ensures CountryOf(city + ", " + country) == country
  {
    var s, tail := city + ", " + country, " " + country;
    assert s == (city + ",") + tail;
    assert s[|s| - |tail|..] == tail;
    assert s[|s| - |tail| - 1] == ',';
    assert ',' !in tail;
    LastSegmentUnique(s, ',', tail);
    TrimAfterSpace(country);
  }

  /** The country the view reads off a client's location. */
  function ClientCountry(c: Client): string {
    CountryOf(c.location)
  }

  predicate NonEmpty(s: string) { s != "" }

  /** The non-empty countries of the clients, in list order. */
  function AllCountries(clients: seq<Client>): seq<string> {
    Filter(Map(clients, ClientCountry), NonEmpty)
  }

  /** A country is listed exactly when it is non-empty and some client's location yields it. */
  lemma AllCountriesMembers(clients: seq<Client>)
    ensures forall x :: x in AllCountries(clients) <==> x != "" && exists c :: c in clients && ClientCountry(c) == x
  {
    MapMembers(clients, ClientCountry);
  }

  /**
   * `[...new Set(allCountries)].sort()`: every non-empty country once, in
   * increasing order.
   */
  function CountryOptions(clients: seq<Client>): (r: seq<string>)
    ensures StrictlyIncreasing(r)
    ensures forall x :: x in r <==> x != "" && exists c :: c in clients && ClientCountry(c) == x
  {
    var distinct := Dedupe(AllCountries(clients));
    SortStringsIncreasing(distinct);
    AllCountriesMembers(clients);
    SortStrings(distinct)
  }

  /** Strictly increasing and holding exactly the clients' countries: no other list has both properties. */
  lemma CountryOptionsUnique(clients: seq<Client>, r: seq<string>)
    requires StrictlyIncreasing(r)
    requires forall x :: x in r <==> x != "" && exists c :: c in clients && ClientCountry(c) == x
    ensures r == CountryOptions(clients)
  {
    IncreasingUnique(r, CountryOptions(clients));
  }

  // ---------------------------------------------------------- filter ranges

  datatype LastContactRange = LastContactRange(name: string, days: int)

  const LAST_CONTACT_RANGES: seq<LastContactRange> := [
    LastContactRange("Last 7 days", 7),
    LastContactRange("Last 30 days", 30),
    LastContactRange("Last 90 days", 90)
  ]

  /** An AUA bracket; no upper bound stands for `Infinity`. */
  datatype AuaRange = AuaRange(name: string, min: int, max: Option<int>)

  const AUA_RANGES: seq<AuaRange> := [
    AuaRange("Under $50k", 0, Some(50000)),
    AuaRange("$50k - $250k", 50000, Some(250000)),
    AuaRange("$250k - $500k", 250000, Some(500000)),
    AuaRange("Over $500k", 500000, None)
  ]

  function LastContactLabelIs(choice: string): LastContactRange -> bool {
    (r: LastContactRange) => r.name == choice
  }

  function AuaLabelIs(choice: string): AuaRange -> bool {
    (r: AuaRange) => r.name == choice
  }

  // ----------------------------------------------------------- filter state

  datatype FilterState = FilterState(
    query: string,
    selectedCountries: seq<string>,
    selectedSubscriptions: seq<SubscriptionType>,
    selectedLastContact: Option<string>,
    lastContactSort: Option<SortOrder>,
    selectedAUARange: Option<string>,
    auaSort: Option<SortOrder>)

  /** Every piece of state as the page first renders it. */
  const INITIAL_STATE: FilterState := FilterState("", [], [], None, None, None, None)

  /** JavaScript truthiness of a `string | null`: null and `""` are false. */
  predicate Truthy(choice: Option<string>) {
    choice.Some? && choice.value != ""
  }

  // ------------------------------------------------------------ the filters

  /** The query as the view uses it: trimmed, then lower-cased. */
  function PageQuery(query: string): string {
    ToLower(Trim(query))
  }

  /** Text search over name, email, location, status, risk and subscription. */
  predicate SearchOk(c: ListedClient, q: string) {
    q == []
    || Includes(ToLower(c.base.fullName), q)
    || Includes(ToLower(c.base.email), q)
    || Includes(ToLower(c.base.location), q)
    || Includes(ToLower(StatusName(c.base.status)), q)
    || Includes(ToLower(RiskName(c.base.riskProfile)), q)
    || Includes(ToLower(SubscriptionName(c.subscriptionType)), q)
  }

  /** A client without a country fails a non-empty country selection. */
  predicate CountryOk(c: ListedClient, selected: seq<string>) {
    |selected| == 0 || (ClientCountry(c.base) != "" && ClientCountry(c.base) in selected)
  }

  predicate SubscriptionOk(c: ListedClient, selected: seq<SubscriptionType>) {
    |selected| == 0 || c.subscriptionType in selected
  }

  /** Whole days since the last contact, `Math.floor((now - contact) / day)`; negative for future dates. */
  function DaysSince(c: ListedClient, now: int): int {
    (now - c.base.lastContactedAt) / DAY_MS
  }

  /** An unknown label is no restriction; a known one caps the days since contact. */
  predicate LastContactOk(c: ListedClient, choice: Option<string>, now: int) {
    !Truthy(choice) ||
    match Find(LAST_CONTACT_RANGES, LastContactLabelIs(choice.value))
    case None => true
    case Some(range) => DaysSince(c, now) <= range.days
  }

  /** An unknown label is no restriction; a known one bounds the AUA, both ends inclusive. */
  predicate AuaOk(c: ListedClient, choice: Option<string>) {
    !Truthy(choice) ||
    match Find(AUA_RANGES, AuaLabelIs(choice.value))
    case None => true
    case Some(range) => !(c.base.aua < range.min || (range.max.Some? && c.base.aua > range.max.value))
  }

  /** The filter callback: all five checks pass. */
  predicate Matches(c: ListedClient, st: FilterState, now: int) {
    && SearchOk(c, PageQuery(st.query))
    && CountryOk(c, st.selectedCountries)
    && SubscriptionOk(c, st.selectedSubscriptions)
    && LastContactOk(c, st.selectedLastContact, now)
    && AuaOk(c, st.selectedAUARange)
  }

  function Matcher(st: FilterState, now: int): ListedClient -> bool {
    c => Matches(c, st, now)
  }

  function LastContactKey(c: ListedClient): int { c.base.lastContactedAt }

  function AuaKey(c: ListedClient): int { c.base.aua }

  /** The rows that pass the filter, in list order. */
  function Kept(rows: seq<ListedClient>, st: FilterState, now: int): seq<ListedClient> {
    Filter(rows, Matcher(st, now))
  }

  /** Kept rows sorted by last contact when that sort is set. */
  function AfterContactSort(rows: seq<ListedClient>, st: FilterState, now: int): seq<ListedClient> {
    var kept := Kept(rows, st, now);
    if st.lastContactSort.Some? then Sort(kept, LastContactKey, st.lastContactSort.value) else kept
  }

  /** `filtered`: the kept rows, then the last-contact sort, then the AUA sort. */
  function FilteredView(rows: seq<ListedClient>, st: FilterState, now: int): seq<ListedClient> {
    var sorted := AfterContactSort(rows, st, now);
    if st.auaSort.Some? then Sort(sorted, AuaKey, st.auaSort.value) else sorted
  }

  /** Before sorting, a row is kept exactly when it passes all five checks, in list order. */
  lemma KeptRows(rows: seq<ListedClient>, st: FilterState, now: int)
    ensures Selected(Kept(rows, st, now), rows, Matcher(st, now))
    ensures forall c :: c in Kept(rows, st, now) <==>
      && c in rows
      && SearchOk(c, PageQuery(st.query))
      && CountryOk(c, st.selectedCountries)
      && SubscriptionOk(c, st.selectedSubscriptions)
      && LastContactOk(c, st.selectedLastContact, now)
      && AuaOk(c, st.selectedAUARange)
  {
    FilterSelected(rows, Matcher(st, now));
  }

  /** The sorts only reorder: the view holds the kept rows, each as often. */
  lemma ViewIsPermutationOfKept(rows: seq<ListedClient>, st: FilterState, now: int)
    ensures multiset(FilteredView(rows, st, now)) == multiset(Kept(rows, st, now))
  {
    var kept := Kept(rows, st, now);
    if st.lastContactSort.Some? {
      SortPermutes(kept, LastContactKey, st.lastContactSort.value);
    }
    if st.auaSort.Some? {
      SortPermutes(AfterContactSort(rows, st, now), AuaKey, st.auaSort.value);
    }
  }

  /** With an AUA sort the view is ordered by AUA, whatever else is set. */
  lemma ViewOrderedByAua(rows: seq<ListedClient>, st: FilterState, now: int)
    requires st.auaSort.Some?
    ensures Ordered(FilteredView(rows, st, now), AuaKey, st.auaSort.value)
  {
    SortOrdered(AfterContactSort(rows, st, now), AuaKey, st.auaSort.value);
  }

  /** With only a last-contact sort the view is ordered by last contact. */
  lemma ViewOrderedByLastContact(rows: seq<ListedClient>, st: FilterState, now: int)
    requires st.lastContactSort.Some? && st.auaSort.None?
    ensures Ordered(FilteredView(rows, st, now), LastContactKey, st.lastContactSort.value)
  {
    SortOrdered(Kept(rows, st, now), LastContactKey, st.lastContactSort.value);
  }

  /**
   * With both sorts, rows with equal AUA stay in last-contact order: the
   * AUA sort runs second and is stable.
   */
  lemma AuaTiesKeepContactOrder(rows: seq<ListedClient>, st: FilterState, now: int, aua: int)
    requires st.auaSort.Some? && st.lastContactSort.Some?
    ensures Ordered(WithKey(FilteredView(rows, st, now), AuaKey, aua), LastContactKey, st.lastContactSort.value)
  {
    var sorted := AfterContactSort(rows, st, now);
    SortOrdered(Kept(rows, st, now), LastContactKey, st.lastContactSort.value);
    SortStable(sorted, AuaKey, st.auaSort.value, aua);
    FilterOrdered(sorted, KeyIs(AuaKey, aua), LastContactKey, st.lastContactSort.value);
  }

  /** Without a sort the view is the kept rows in list order. */
  lemma UnsortedViewIsKept(rows: seq<ListedClient>, st: FilterState, now: int)
    requires st.lastContactSort.None? && st.auaSort.None?
    ensures FilteredView(rows, st, now) == Kept(rows, st, now)
    ensures IsSubsequence(FilteredView(rows, st, now), rows)
  {
    FilterSelected(rows, Matcher(st, now));
  }

  /** With a blank query, no selection and no recency label, only the AUA bracket decides. */
  lemma OnlyAuaDecides(c: ListedClient, st: FilterState, now: int)
    requires PageQuery(st.query) == []
    requires st.selectedCountries == [] && st.selectedSubscriptions == [] && st.selectedLastContact.None?
    ensures Matches(c, st, now) <==> AuaOk(c, st.selectedAUARange)
  {
    assert SearchOk(c, PageQuery(st.query));
    assert CountryOk(c, st.selectedCountries) && SubscriptionOk(c, st.selectedSubscriptions);
    assert LastContactOk(c, st.selectedLastContact, now);
  }

  /** With a blank query, nothing selected and no sort, the view is the whole list. */
  lemma NothingSetShowsAll(rows: seq<ListedClient>, st: FilterState, now: int)
    requires PageQuery(st.query) == []
    requires st.selectedCountries == [] && st.selectedSubscriptions == []
    requires st.selectedLastContact.None? && st.selectedAUARange.None?
    requires st.lastContactSort.None? && st.auaSort.None?
    ensures FilteredView(rows, st, now) == rows
  {
    forall c | c in rows ensures Matcher(st, now)(c) {
      OnlyAuaDecides(c, st, now);
    }
    FilterAll(rows, Matcher(st, now));
    UnsortedViewIsKept(rows, st, now);
  }

  // --------------------------------------------------- the filters in detail

  /** The case of the query does not matter, nor the order of trimming and lower-casing. */
  lemma PageQueryNormalizes(query: string)
    ensures PageQuery(query) == Trim(ToLower(query))
    ensures PageQuery(ToLower(query)) == PageQuery(query)
  {
    TrimLowerCommute(query);
    TrimLowerCommute(ToLower(query));
    ToLowerTwice(query);
  }

  /** "active" is a substring of both lower-cased status names. */
  lemma ActiveInActive()
    ensures Includes(ToLower(StatusName(Active)), "active")
  {
    assert ToLower("Active") == "active";
    assert StartsWith("active", "active");
  }

  lemma ActiveInInactive()
    ensures Includes(ToLower(StatusName(Inactive)), "active")
  {
    var name := ToLower("Inactive");
    assert name == "inactive";
    assert StartsWith(name[2..], "active");
    assert name[1..][1..] == name[2..];
  }

  /** Any query that normalises to "active" finds Inactive clients as well as Active ones. */
  lemma ActiveQueryFindsInactive(c: ListedClient, query: string)
    requires PageQuery(query) == "active"
    requires c.base.status == Active || c.base.status == Inactive
    ensures SearchOk(c, PageQuery(query))
  {
    ActiveInActive();
    ActiveInInactive();
  }

  /** `find` returns the range carrying the label. */
  lemma LastContactLabels(i: nat)
    requires i < |LAST_CONTACT_RANGES|
    ensures Find(LAST_CONTACT_RANGES, LastContactLabelIs(LAST_CONTACT_RANGES[i].name)) == Some(LAST_CONTACT_RANGES[i])
  {
  }

  lemma AuaLabels(i: nat)
    requires i < |AUA_RANGES|
    ensures Find(AUA_RANGES, AuaLabelIs(AUA_RANGES[i].name)) == Some(AUA_RANGES[i])
  {
  }

  /** A known recency label keeps a client exactly when its whole days since contact are at most the range's. */
  lemma LastContactWindow(c: ListedClient, i: nat, now: int)
    requires i < |LAST_CONTACT_RANGES|
    ensures LastContactOk(c, Some(LAST_CONTACT_RANGES[i].name), now)
        <==> (now - c.base.lastContactedAt) / DAY_MS <= LAST_CONTACT_RANGES[i].days
  {
    LastContactLabels(i);
  }

  /** A contact time at or after `now` passes every recency filter. */
  lemma FutureContactPasses(c: ListedClient, choice: Option<string>, now: int)
    requires c.base.lastContactedAt >= now
    ensures LastContactOk(c, choice, now)
  {
    if Truthy(choice) {
      var found := Find(LAST_CONTACT_RANGES, LastContactLabelIs(choice.value));
      if found.Some? {
        assert found.value in LAST_CONTACT_RANGES;
        assert DaysSince(c, now) <= 0;
      }
    }
  }

  /** A known AUA label keeps a client exactly when its AUA is within the bracket, ends included. */
  lemma AuaWindow(c: ListedClient, i: nat)
    requires i < |AUA_RANGES|
    ensures AuaOk(c, Some(AUA_RANGES[i].name))
        <==> AUA_RANGES[i].min <= c.base.aua && (AUA_RANGES[i].max.None? || c.base.aua <= AUA_RANGES[i].max.value)
  {
    AuaLabels(i);
  }

  /** $50,000 sits in both "Under $50k" and "$50k - $250k", and in no other bracket. */
  lemma FiftyThousandInTwoRanges(c: ListedClient)
    requires c.base.aua == 50000
    ensures AuaOk(c, Some("Under $50k")) && AuaOk(c, Some("$50k - $250k"))
    ensures !AuaOk(c, Some("$250k - $500k")) && !AuaOk(c, Some("Over $500k"))
  {
    AuaWindow(c, 0);
    AuaWindow(c, 1);
    AuaWindow(c, 2);
    AuaWindow(c, 3);
  }

  /** A label that names no range restricts nothing. */
  lemma UnknownLabelsPass(c: ListedClient, choice: string, now: int)
    requires forall r | r in LAST_CONTACT_RANGES :: r.name != choice
    requires forall r | r in AUA_RANGES :: r.name != choice
    ensures LastContactOk(c, Some(choice), now) && AuaOk(c, Some(choice))
  {
  }

  /** Pairs the fixture records with any tiers. */
  function WithTiers(clients: seq<Client>, tiers: seq<SubscriptionType>): (rows: seq<ListedClient>)
    requires |tiers| == |clients|
    ensures |rows| == |clients| && forall i :: 0 <= i < |rows| ==> rows[i].base == clients[i]
  {
    if clients == [] then [] else [ListedClient(clients[0], tiers[0])] + WithTiers(clients[1..], tiers[1..])
  }

  function IdOf(c: ListedClient): string { c.base.id }

  /** The state with a blank query, no selection, no recency label, no sort and the `i`-th AUA bracket. */
  predicate OnlyBracketChosen(st: FilterState, i: nat) {
    && i < |AUA_RANGES|
    && PageQuery(st.query) == []
    && st.selectedCountries == [] && st.selectedSubscriptions == [] && st.selectedLastContact.None?
    && st.selectedAUARange == Some(AUA_RANGES[i].name)
    && st.lastContactSort.None? && st.auaSort.None?
  }

  /** With only the `i`-th AUA bracket chosen, a row is kept exactly when its AUA is in that bracket. */
  lemma OnlyBracket(c: ListedClient, st: FilterState, now: int, i: nat)
    requires OnlyBracketChosen(st, i)
    ensures Matches(c, st, now)
        <==> AUA_RANGES[i].min <= c.base.aua && (AUA_RANGES[i].max.None? || c.base.aua <= AUA_RANGES[i].max.value)
  {
    OnlyAuaDecides(c, st, now);
    AuaWindow(c, i);
  }

  /** A fixture row passes "Over $500k" alone exactly when it is the fifth or the seventh. */
  lemma FixtureRowOver500k(tiers: seq<SubscriptionType>, st: FilterState, now: int, m: nat)
    requires |tiers| == |CLIENTS| && m < |CLIENTS|
    requires OnlyBracketChosen(st, 3)
    ensures Matcher(st, now)(WithTiers(CLIENTS, tiers)[m]) <==> m == 4 || m == 6
  {
    var row := WithTiers(CLIENTS, tiers)[m];
    assert row.base == CLIENTS[m];
    FixtureAtLeast500k();
    OnlyBracket(row, st, now, 3);
    assert AUA_RANGES[3].min == 500000 && AUA_RANGES[3].max.None?;
  }

  /** Of the fixture rows, "Over $500k" alone keeps the fifth and the seventh, whatever the tiers. */
  lemma FixtureOver500kKept(tiers: seq<SubscriptionType>, st: FilterState, now: int)
    requires |tiers| == |CLIENTS|
    requires OnlyBracketChosen(st, 3)
    ensures Kept(WithTiers(CLIENTS, tiers), st, now)
         == [WithTiers(CLIENTS, tiers)[4], WithTiers(CLIENTS, tiers)[6]]
  {
    var rows := WithTiers(CLIENTS, tiers);
    var keep := Matcher(st, now);
    forall m | 0 <= m < |rows| ensures keep(rows[m]) <==> m == 4 || m == 6 {
      FixtureRowOver500k(tiers, st, now, m);
    }
    FilterExactlyTwo(rows, 4, 6, keep);
  }

  /** "Over $500k" alone, on the fixture, lists `cl_005` then `cl_007`, whatever the tiers. */
  lemma FixtureOver500k(tiers: seq<SubscriptionType>, st: FilterState, now: int)
    requires |tiers| == |CLIENTS|
    requires OnlyBracketChosen(st, 3)
    ensures AUA_RANGES[3].name == "Over $500k"
    ensures Map(FilteredView(WithTiers(CLIENTS, tiers), st, now), IdOf) == ["cl_005", "cl_007"]
  {
    var rows := WithTiers(CLIENTS, tiers);
    FixtureOver500kKept(tiers, st, now);
    UnsortedViewIsKept(rows, st, now);
    MapPair(rows[4], rows[6], IdOf);
    FixtureAtLeast500k();
  }

  // ------------------------------------------------------- fixture countries

  /** The city and the country of each fixture location, in fixture order. */
  const FIXTURE_CITIES: seq<string> :=
    ["Accra", "Kumasi", "London", "Toronto", "Paris", "Madrid", "Tokyo", "Mumbai", "Shanghai", "S\U{00C3}\U{00A3}o Paulo"]
  const FIXTURE_COUNTRIES: seq<string> :=
    ["Ghana", "Ghana", "UK", "Canada", "France", "Spain", "Japan", "India", "China", "Brazil"]

  /** The first five locations, one record at a time. */
  lemma FixtureLocationLow(i: nat)
    requires i < 5
    ensures |FIXTURE_CITIES| == |FIXTURE_COUNTRIES| == |CLIENTS|
    ensures CLIENTS[i].location == FIXTURE_CITIES[i] + ", " + FIXTURE_COUNTRIES[i]
  {
    if i == 0 {
      assert CLIENTS[0].location == FIXTURE_CITIES[0] + ", " + FIXTURE_COUNTRIES[0] by {
        assert CLIENTS[0].location == "Accra, Ghana";
      }
    } else if i == 1 {
      assert CLIENTS[1].location == FIXTURE_CITIES[1] + ", " + FIXTURE_COUNTRIES[1] by {
        assert CLIENTS[1].location == "Kumasi, Ghana";
      }
    } else if i == 2 {
      assert CLIENTS[2].location == FIXTURE_CITIES[2] + ", " + FIXTURE_COUNTRIES[2] by {
        assert CLIENTS[2].location == "London, UK";
      }
    } else if i == 3 {
      assert CLIENTS[3].location == FIXTURE_CITIES[3] + ", " + FIXTURE_COUNTRIES[3] by {
        assert CLIENTS[3].location == "Toronto, Canada";
      }
    } else {
      assert CLIENTS[4].location == FIXTURE_CITIES[4] + ", " + FIXTURE_COUNTRIES[4] by {
        assert CLIENTS[4].location == "Paris, France";
      }
    }
  }

  /** The sixth to eighth locations. */
  lemma FixtureLocationMiddle(i: nat)
    requires 5 <= i < 8
    ensures |FIXTURE_CITIES| == |FIXTURE_COUNTRIES| == |CLIENTS|
    ensures CLIENTS[i].location == FIXTURE_CITIES[i] + ", " + FIXTURE_COUNTRIES[i]
  {
    if i == 5 {
      assert CLIENTS[5].location == FIXTURE_CITIES[5] + ", " + FIXTURE_COUNTRIES[5] by {
        assert CLIENTS[5].location == "Madrid, Spain";
      }
    } else if i == 6 {
      assert CLIENTS[6].location == FIXTURE_CITIES[6] + ", " + FIXTURE_COUNTRIES[6] by {
        assert CLIENTS[6].location == "Tokyo, Japan";
      }
    } else {
      assert CLIENTS[7].location == FIXTURE_CITIES[7] + ", " + FIXTURE_COUNTRIES[7] by {
        assert CLIENTS[7].location == "Mumbai, India";
      }
    }
  }

  /** The last two locations. */
  lemma FixtureLocationHigh(i: nat)
    requires 8 <= i < 10
    ensures |FIXTURE_CITIES| == |FIXTURE_COUNTRIES| == |CLIENTS|
    ensures CLIENTS[i].location == FIXTURE_CITIES[i] + ", " + FIXTURE_COUNTRIES[i]
  {
    if i == 8 {
      assert CLIENTS[8].location == FIXTURE_CITIES[8] + ", " + FIXTURE_COUNTRIES[8] by {
        assert CLIENTS[8].location == "Shanghai, China";
      }
    } else {
      assert CLIENTS[9].location == FIXTURE_CITIES[9] + ", " + FIXTURE_COUNTRIES[9] by {
        assert CLIENTS[9].location == "S\U{00C3}\U{00A3}o Paulo, Brazil";
      }
    }
  }

  /** Every fixture location is "City, Country" with a single comma, and yields that country. */
  lemma FixtureCountry(i: nat)
    requires i < |CLIENTS|
    ensures |FIXTURE_CITIES| == |FIXTURE_COUNTRIES| == |CLIENTS|
    ensures CLIENTS[i].location == FIXTURE_CITIES[i] + ", " + FIXTURE_COUNTRIES[i]
    ensures ',' !in FIXTURE_CITIES[i] && ',' !in FIXTURE_COUNTRIES[i]
    ensures ClientCountry(CLIENTS[i]) == FIXTURE_COUNTRIES[i] != ""
  {
    if i < 5 {
      FixtureLocationLow(i);
    } else if i < 8 {
      FixtureLocationMiddle(i);
    } else {
      FixtureLocationHigh(i);
    }
    var city, country := FIXTURE_CITIES[i], FIXTURE_COUNTRIES[i];
    assert ',' !in city && ',' !in country;
    assert country != [] && !IsJsWhitespace(country[0]) && !IsJsWhitespace(country[|country| - 1]);
    CountryOfCityCountry(city, country);
  }

  /** The country menu the fixture yields. */
  const FIXTURE_COUNTRY_OPTIONS: seq<string> :=
    ["Brazil", "Canada", "China", "France", "Ghana", "India", "Japan", "Spain", "UK"]

  /** For each option, a fixture record whose location yields it. */
  const OPTION_SOURCE: seq<nat> := [9, 3, 8, 4, 0, 7, 6, 5, 2]

  /** Every option is non-empty and is the country of its source record. */
  lemma OptionIndexes()
    ensures |OPTION_SOURCE| == |FIXTURE_COUNTRY_OPTIONS|
    ensures forall k | 0 <= k < |FIXTURE_COUNTRY_OPTIONS| :: FIXTURE_COUNTRY_OPTIONS[k] != ""
    ensures forall k | 0 <= k < |OPTION_SOURCE| ::
      OPTION_SOURCE[k] < |FIXTURE_COUNTRIES| && FIXTURE_COUNTRIES[OPTION_SOURCE[k]] == FIXTURE_COUNTRY_OPTIONS[k]
  {
  }

  /** The menu is in code-unit order; only "Canada" and "China" need a second character. */
  lemma FixtureOptionsIncreasing()
    ensures StrictlyIncreasing(FIXTURE_COUNTRY_OPTIONS)
  {
    var o := FIXTURE_COUNTRY_OPTIONS;
    forall k | 0 <= k < |o| - 1 ensures StrLess(o[k], o[k + 1]) {
      if k == 1 {
        assert o[1][1..] == "anada" && o[2][1..] == "hina";
      }
    }
    AdjacentIncreasing(o);
  }

  /** The countries the records' locations yield, one per record. */
  predicate CountriesAre(clients: seq<Client>, countries: seq<string>) {
    |clients| == |countries| && forall i | 0 <= i < |clients| :: ClientCountry(clients[i]) == countries[i]
  }

  /** Each option comes from some record. */
  lemma OptionHasClient(clients: seq<Client>, x: string)
    requires CountriesAre(clients, FIXTURE_COUNTRIES)
    requires x in FIXTURE_COUNTRY_OPTIONS
    ensures exists c :: c in clients && ClientCountry(c) == x
  {
    var k :| 0 <= k < |FIXTURE_COUNTRY_OPTIONS| && FIXTURE_COUNTRY_OPTIONS[k] == x;
    OptionIndexes();
    var i := OPTION_SOURCE[k];
    assert ClientCountry(clients[i]) == FIXTURE_COUNTRY_OPTIONS[k];
    assert clients[i] in clients;
  }

  /** The options are exactly the records' non-empty countries. */
  lemma OptionMember(clients: seq<Client>, x: string)
    requires CountriesAre(clients, FIXTURE_COUNTRIES)
    ensures x in FIXTURE_COUNTRY_OPTIONS <==> x != "" && exists c :: c in clients && ClientCountry(c) == x
  {
    if x in FIXTURE_COUNTRY_OPTIONS {
      OptionHasClient(clients, x);
      OptionIndexes();
    }
  }

  /** Records whose locations yield the fixture's countries, in any order, give the fixture's menu. */
  lemma OptionsFromCountries(clients: seq<Client>)
    requires CountriesAre(clients, FIXTURE_COUNTRIES)
    ensures CountryOptions(clients) == FIXTURE_COUNTRY_OPTIONS
  {
    FixtureOptionsIncreasing();
    forall x
      ensures x in FIXTURE_COUNTRY_OPTIONS <==> x != "" && exists c :: c in clients && ClientCountry(c) == x
    {
      OptionMember(clients, x);
    }
    CountryOptionsUnique(clients, FIXTURE_COUNTRY_OPTIONS);
  }

  /**
   * The fixture's country menu: nine countries in code-unit order, Ghana
   * once though the first two records both live there.
   */
  lemma FixtureCountryOptions()
    ensures CountryOptions(CLIENTS) == FIXTURE_COUNTRY_OPTIONS
    ensures |CountryOptions(CLIENTS)| == 9
  {
    forall i | 0 <= i < |CLIENTS| ensures ClientCountry(CLIENTS[i]) == FIXTURE_COUNTRIES[i] {
      FixtureCountry(i);
    }
    OptionsFromCountries(CLIENTS);
  }

  // ------------------------------------------------------ controls and state

  /** `checked ? [...prev, x] : prev.filter(y => y !== x)`. */
  function ToggleSelection<T(==)>(prev: seq<T>, x: T, checked: bool): (r: seq<T>)
    ensures x in r <==> checked
    ensures forall y | y in prev && y != x :: y in r
    ensures forall y | y in r && y != x :: y in prev
    ensures checked ==> r[..|r| - 1] == prev && r[|r| - 1] == x
    ensures !checked ==> IsSubsequence(r, prev)
    ensures !checked ==> Selected(r, prev, (y: T) => y != x)
  {
    if checked then prev + [x]
    else
      FilterSelected(prev, (y: T) => y != x);
      Filter(prev, (y: T) => y != x)
  }

  /** Ticking a box that was off and then unticking it restores the selection. */
  lemma ToggleOnThenOff<T>(prev: seq<T>, x: T)
    requires x !in prev
    ensures ToggleSelection(ToggleSelection(prev, x, true), x, false) == prev
  {
    FilterConcat(prev, [x], (y: T) => y != x);
    FilterAll(prev, (y: T) => y != x);
    FilterNone([x], (y: T) => y != x);
  }

  /** `setSort(sort === order ? null : order)`. */
  function ToggleSort(current: Option<SortOrder>, order: SortOrder): (r: Option<SortOrder>)
    ensures r == None <==> current == Some(order)
    ensures r != None ==> r == Some(order)
  {
    if current == Some(order) then None else Some(order)
  }

  /**
   * Pressing the same direction twice restores the sort exactly when it was
   * off or already that direction; from the other direction it ends off.
   */
  lemma ToggleSortTwice(current: Option<SortOrder>, order: SortOrder)
    ensures ToggleSort(ToggleSort(current, order), order) == current <==> current == None || current == Some(order)
    ensures ToggleSort(ToggleSort(current, order), order) != current ==> ToggleSort(ToggleSort(current, order), order) == None
  {
  }

  /**
   * `hasActiveFilters`: any selection, range label or sort; the query does
   * not count. Nothing is active exactly when the state is the initial one
   * with its query, except that a range label may be `""` instead of `null`.
   */
  function HasActiveFilters(st: FilterState): (b: bool)
    ensures !b <==> && st.(selectedLastContact := None, selectedAUARange := None) == INITIAL_STATE.(query := st.query)
                    && !Truthy(st.selectedLastContact) && !Truthy(st.selectedAUARange)
  {
    || |st.selectedCountries| > 0
    || |st.selectedSubscriptions| > 0
    || Truthy(st.selectedLastContact)
    || Truthy(st.selectedAUARange)
    || st.lastContactSort.Some?
    || st.auaSort.Some?
  }

  /** `clearFilters`: the six filter and sort states reset; the query stays. */
  function ClearedFilters(st: FilterState): (r: FilterState)
    ensures !HasActiveFilters(r)
    ensures r.query == st.query
    ensures r == INITIAL_STATE.(query := st.query)
  {
    st.(selectedCountries := [], selectedSubscriptions := [], selectedLastContact := None,
        lastContactSort := None, selectedAUARange := None, auaSort := None)
  }

  /** When no filter is active the view is exactly the text-search result. */
  lemma InactiveFiltersLeaveSearch(rows: seq<ListedClient>, st: FilterState, now: int)
    requires !HasActiveFilters(st)
    ensures FilteredView(rows, st, now) == Filter(rows, (c: ListedClient) => SearchOk(c, PageQuery(st.query)))
  {
    UnsortedViewIsKept(rows, st, now);
    FilterExtensional(rows, Matcher(st, now), (c: ListedClient) => SearchOk(c, PageQuery(st.query)));
  }

  /** The page's seven pieces of state and the handlers its controls call. */
  class ClientsPage {
    var query: string
    var selectedCountries: seq<string>
    var selectedSubscriptions: seq<SubscriptionType>
    var selectedLastContact: Option<string>
    var lastContactSort: Option<SortOrder>
    var selectedAUARange: Option<string>
    var auaSort: Option<SortOrder>

    function State(): FilterState
      reads this
    {
      FilterState(query, selectedCountries, selectedSubscriptions, selectedLastContact,
                  lastContactSort, selectedAUARange, auaSort)
    }

    constructor ()
      ensures State() == INITIAL_STATE
      ensures !HasActiveFilters(State())
    {
      query := "";
      selectedCountries := [];
      selectedSubscriptions := [];
      selectedLastContact := None;
      lastContactSort := None;
      selectedAUARange := None;
      auaSort := None;
    }

    /** The search box. */
    method SetQuery(q: string)
      modifies this
      ensures State() == old(State()).(query := q)
      ensures HasActiveFilters(State()) == old(HasActiveFilters(State()))
    {
      query := q;
    }

    /** A country checkbox. */
    method ToggleCountry(country: string, checked: bool)
      modifies this
      ensures State() == old(State()).(selectedCountries := ToggleSelection(old(selectedCountries), country, checked))
    {
      selectedCountries := ToggleSelection(selectedCountries, country, checked);
    }

    /** "Clear" under the country menu. */
    method ClearCountries()
      modifies this
      ensures State() == old(State()).(selectedCountries := [])
    {
      selectedCountries := [];
    }

    /** A subscription checkbox. */
    method ToggleSubscription(tier: SubscriptionType, checked: bool)
      modifies this
      ensures State() == old(State()).(selectedSubscriptions := ToggleSelection(old(selectedSubscriptions), tier, checked))
    {
      selectedSubscriptions := ToggleSelection(selectedSubscriptions, tier, checked);
    }

    /** "Clear" under the subscription menu. */
    method ClearSubscriptions()
      modifies this
      ensures State() == old(State()).(selectedSubscriptions := [])
    {
      selectedSubscriptions := [];
    }

    /** A recency menu item, or its "All" entry (`None`). */
    method SelectLastContact(choice: Option<string>)
      modifies this
      ensures State() == old(State()).(selectedLastContact := choice)
    {
      selectedLastContact := choice;
    }

    /** The ascending or descending last-contact sort button. */
    method ToggleLastContactSort(order: SortOrder)
      modifies this
      ensures State() == old(State()).(lastContactSort := ToggleSort(old(lastContactSort), order))
      ensures lastContactSort.None? <==> old(lastContactSort) == Some(order)
    {
      lastContactSort := ToggleSort(lastContactSort, order);
    }

    /** An AUA bracket menu item, or its "All" entry (`None`). */
    method SelectAUARange(choice: Option<string>)
      modifies this
      ensures State() == old(State()).(selectedAUARange := choice)
    {
      selectedAUARange := choice;
    }

    /** The ascending or descending AUA sort button. */
    method ToggleAuaSort(order: SortOrder)
      modifies this
      ensures State() == old(State()).(auaSort := ToggleSort(old(auaSort), order))
      ensures auaSort.None? <==> old(auaSort) == Some(order)
    {
      auaSort := ToggleSort(auaSort, order);
    }

    /** `clearFilters`. */
    method ClearFilters()
      modifies this
      ensures State() == ClearedFilters(old(State()))
      ensures query == old(query) && !HasActiveFilters(State())
    {
      selectedCountries := [];
      selectedSubscriptions := [];
      selectedLastContact := None;
      lastContactSort := None;
      selectedAUARange := None;
      auaSort := None;
    }

    /**
     * `filtered`: filter the rows into a fresh array, then sort that array
     * in place by last contact and then by AUA, each when set.
     */
    method Filtered(rows: seq<ListedClient>, now: int) returns (r: seq<ListedClient>)
      ensures r == FilteredView(rows, State(), now)
    {
      var st := State();
      var kept := Kept(rows, st, now);
      var results := new ListedClient[|kept|](i requires 0 <= i < |kept| => kept[i]);
      assert results[..] == kept;
      if st.lastContactSort.Some? {
        SortInPlace(results, LastContactKey, st.lastContactSort.value);
      }
      assert results[..] == AfterContactSort(rows, st, now);
      if st.auaSort.Some? {
        SortInPlace(results, AuaKey, st.auaSort.value);
      }
      r := results[..];
    }
  }
}
