/**
 * The client list library: sorts, filters, search, aggregates and the
 * copy-on-write note and communication updates.
 *
 * It works on the full client record (first and last name, city and
 * country, subscription, notes, communications). Every clock read of the
 * source (`Date.now()` for generated ids, `new Date()` for timestamps) is a
 * parameter here, one per read.
 */
module ClientUtils {
  import opened Wrappers
  import opened Seqs
  import opened JsString
  import opened StableSort
  import opened Counting
  import Clients

  datatype PersonalData = PersonalData(occupation: Option<string>)

  datatype ClientNote = ClientNote(id: string, content: string, author: string, createdAt: int)

  /** A logged contact; `kind` is the source's `type` field. */
  datatype Communication = Communication(
    id: string,
    kind: string,
    content: string,
    direction: string,
    subject: Option<string>,
    duration: Option<int>,
    date: int)

  datatype Client = Client(
    id: string,
    firstName: string,
    lastName: string,
    email: string,
    city: Option<string>,
    country: string,
    status: Clients.ClientStatus,
    riskProfile: Clients.RiskProfile,
    subscriptionType: Clients.SubscriptionType,
    aua: int,
    lastContactedAt: int,
    personalData: Option<PersonalData>,
    notes: Option<seq<ClientNote>>,
    communications: Option<seq<Communication>>)

  // ---------------------------------------------------------------- sorting

  function AuaOf(c: Client): int { c.aua }

  function LastContactOf(c: Client): int { c.lastContactedAt }

  /**
   * `sortClientsByAUA`: a sorted copy, largest first unless `Asc` is asked
   * for; clients with equal AUA keep their input order.
   */
  method SortClientsByAUA(clients: seq<Client>, order: SortOrder := Desc) returns (r: seq<Client>)
    ensures r == Sort(clients, AuaOf, order)
    ensures multiset(r) == multiset(clients)
    ensures Ordered(r, AuaOf, order)
    ensures forall k :: WithKey(r, AuaOf, k) == WithKey(clients, AuaOf, k)
  {
    r := SortedCopy(clients, AuaOf, order);
    SortContract(clients, AuaOf, order);
  }

  /** With no two AUAs alike, the descending sort is the ascending one reversed. */
  lemma AuaOrdersReverse(clients: seq<Client>)
    requires KeysDistinct(clients, AuaOf)
    ensures Sort(clients, AuaOf, Desc) == Reverse(Sort(clients, AuaOf, Asc))
  {
    SortReverse(clients, AuaOf);
  }

  /** `sortClientsByLastContact`: a sorted copy, most recent first by default. */
  method SortClientsByLastContact(clients: seq<Client>, order: SortOrder := Desc) returns (r: seq<Client>)
    ensures r == Sort(clients, LastContactOf, order)
    ensures multiset(r) == multiset(clients)
    ensures Ordered(r, LastContactOf, order)
    ensures forall k :: WithKey(r, LastContactOf, k) == WithKey(clients, LastContactOf, k)
  {
    r := SortedCopy(clients, LastContactOf, order);
    SortContract(clients, LastContactOf, order);
  }

  // ------------------------------------------------------- category filters

  function RiskField(c: Client): string { Clients.RiskName(c.riskProfile) }

  function SubscriptionField(c: Client): string { Clients.SubscriptionName(c.subscriptionType) }

  function CountryField(c: Client): string { c.country }

  function StatusField(c: Client): string { Clients.StatusName(c.status) }

  /** `selection.includes(field(client))`. */
  function FieldIn(field: Client -> string, selection: seq<string>): Client -> bool {
    c => field(c) in selection
  }

  /**
   * The shape all four category filters share: an empty selection keeps the
   * list as it is; otherwise exactly the clients whose field is selected
   * remain, every copy, in their original order.
   */
  function FilterByField(clients: seq<Client>, field: Client -> string, selection: seq<string>): (r: seq<Client>)
    ensures |selection| == 0 ==> r == clients
    ensures |selection| > 0 ==> Selected(r, clients, FieldIn(field, selection))
    ensures forall c :: c in r <==> c in clients && (|selection| == 0 || field(c) in selection)
  {
    if |selection| == 0 then clients
    else
      FilterSelected(clients, FieldIn(field, selection));
      Filter(clients, FieldIn(field, selection))
  }

  function FilterClientsByRiskProfile(clients: seq<Client>, riskProfile: seq<string>): (r: seq<Client>)
    ensures |riskProfile| == 0 ==> r == clients
    ensures |riskProfile| > 0 ==> Selected(r, clients, FieldIn(RiskField, riskProfile))
    ensures forall c :: c in r <==> c in clients && (|riskProfile| == 0 || RiskField(c) in riskProfile)
  {
    FilterByField(clients, RiskField, riskProfile)
  }

  function FilterClientsBySubscription(clients: seq<Client>, subscription: seq<string>): (r: seq<Client>)
    ensures |subscription| == 0 ==> r == clients
    ensures |subscription| > 0 ==> Selected(r, clients, FieldIn(SubscriptionField, subscription))
    ensures forall c :: c in r <==> c in clients && (|subscription| == 0 || SubscriptionField(c) in subscription)
  {
    FilterByField(clients, SubscriptionField, subscription)
  }

  function FilterClientsByCountry(clients: seq<Client>, countries: seq<string>): (r: seq<Client>)
    ensures |countries| == 0 ==> r == clients
    ensures |countries| > 0 ==> Selected(r, clients, FieldIn(CountryField, countries))
    ensures forall c :: c in r <==> c in clients && (|countries| == 0 || c.country in countries)
  {
    FilterByField(clients, CountryField, countries)
  }

  function FilterClientsByStatus(clients: seq<Client>, statuses: seq<string>): (r: seq<Client>)
    ensures |statuses| == 0 ==> r == clients
    ensures |statuses| > 0 ==> Selected(r, clients, FieldIn(StatusField, statuses))
    ensures forall c :: c in r <==> c in clients && (|statuses| == 0 || StatusField(c) in statuses)
  {
    FilterByField(clients, StatusField, statuses)
  }

  /**
   * Selecting a value the field can never take removes every client; a
   * status selection naming all three statuses keeps every client.
   */
  lemma StatusSelectionBounds(clients: seq<Client>, statuses: seq<string>)
    ensures ((forall n | n in statuses :: n !in Clients.STATUS_NAMES) && |statuses| > 0)
              ==> FilterClientsByStatus(clients, statuses) == []
    ensures (forall n | n in Clients.STATUS_NAMES :: n in statuses)
              ==> FilterClientsByStatus(clients, statuses) == clients
  {
    if (forall n | n in statuses :: n !in Clients.STATUS_NAMES) && |statuses| > 0 {
      FilterNone(clients, FieldIn(StatusField, statuses));
    }
    if forall n | n in Clients.STATUS_NAMES :: n in statuses {
      assert |statuses| > 0 by { assert "Active" in statuses; }
      forall c | c in clients ensures FieldIn(StatusField, statuses)(c) {
        assert StatusField(c) in Clients.STATUS_NAMES;
      }
      FilterAll(clients, FieldIn(StatusField, statuses));
    }
  }

  // ---------------------------------------------------------- range filters

  /** `client.aua >= min && client.aua <= max`; no upper bound is `Infinity`. */
  function AuaWithin(min: int, max: Option<int>): Client -> bool {
    (c: Client) => min <= c.aua && (max.None? || c.aua <= max.value)
  }

  /** `filterClientsByAUARange`: both bounds inclusive, defaults 0 and unbounded. */
  function FilterClientsByAUARange(clients: seq<Client>, min: int := 0, max: Option<int> := None): (r: seq<Client>)
    ensures Selected(r, clients, AuaWithin(min, max))
    ensures forall c :: c in r <==> c in clients && min <= c.aua && (max.None? || c.aua <= max.value)
  {
    FilterSelected(clients, AuaWithin(min, max));
    Filter(clients, AuaWithin(min, max))
  }

  /** Narrowing an AUA range twice is one filter by the intersection of the two ranges. */
  lemma AUARangeTwice(clients: seq<Client>, min1: int, max1: Option<int>, min2: int, max2: Option<int>)
    ensures FilterClientsByAUARange(FilterClientsByAUARange(clients, min1, max1), min2, max2)
         == FilterClientsByAUARange(clients, if min1 < min2 then min2 else min1,
                                    if max1.None? then max2
                                    else if max2.None? || max1.value < max2.value then max1 else max2)
  {
    var lo := if min1 < min2 then min2 else min1;
    var hi := if max1.None? then max2 else if max2.None? || max1.value < max2.value then max1 else max2;
    FilterFilter(clients, AuaWithin(min1, max1), AuaWithin(min2, max2), AuaWithin(lo, hi));
  }

  /** With the default bounds, a list with no negative AUA comes back unchanged. */
  lemma AUARangeDefaults(clients: seq<Client>)
    requires forall c | c in clients :: c.aua >= 0
    ensures FilterClientsByAUARange(clients) == clients
  {
    FilterAll(clients, AuaWithin(0, None));
  }

  /**
   * `clientDate >= start && clientDate <= end`. A bound that `new Date`
   * cannot parse is `NaN`, which every comparison rejects: it is `None` here.
   */
  function ContactWithin(start: Option<int>, end: Option<int>): Client -> bool {
    (c: Client) => start.Some? && end.Some? && start.value <= c.lastContactedAt <= end.value
  }

  /** `filterClientsByDateRange`: last contact within `[start, end]`, inclusive. */
  function FilterClientsByDateRange(clients: seq<Client>, start: Option<int>, end: Option<int>): (r: seq<Client>)
    ensures Selected(r, clients, ContactWithin(start, end))
    ensures forall c :: c in r <==> c in clients && start.Some? && end.Some?
                                      && start.value <= c.lastContactedAt <= end.value
    ensures start.None? || end.None? ==> r == []
  {
    FilterSelected(clients, ContactWithin(start, end));
    if start.None? || end.None? then
      FilterNone(clients, ContactWithin(start, end));
      Filter(clients, ContactWithin(start, end))
    else
      Filter(clients, ContactWithin(start, end))
  }

  // ----------------------------------------------------------------- search

  function FullName(c: Client): string { c.firstName + " " + c.lastName }

  /** The occupation, or `""` when the personal data or the occupation is absent. */
  function Occupation(c: Client): string {
    if c.personalData.Some? then c.personalData.value.occupation.GetOr("") else ""
  }

  /** One of the five lower-cased fields contains `q`. */
  predicate MatchesQuery(c: Client, q: string) {
    || Includes(ToLower(FullName(c)), q)
    || Includes(ToLower(c.email), q)
    || Includes(ToLower(c.city.GetOr("")), q)
    || Includes(ToLower(c.country), q)
    || Includes(ToLower(Occupation(c)), q)
  }

  function QueryMatcher(q: string): Client -> bool {
    c => MatchesQuery(c, q)
  }

  /** The query as the search uses it: lower-cased, then trimmed. */
  function NormalizeQuery(query: string): string {
    Trim(ToLower(query))
  }

  /**
   * `searchClients`: a blank query keeps the list; otherwise exactly the
   * clients with a field containing the normalised query, in order.
   */
  function SearchClients(clients: seq<Client>, query: string): (r: seq<Client>)
    ensures NormalizeQuery(query) == [] ==> r == clients
    ensures NormalizeQuery(query) != [] ==> Selected(r, clients, QueryMatcher(NormalizeQuery(query)))
    ensures forall c :: c in r <==> c in clients && (NormalizeQuery(query) == [] || MatchesQuery(c, NormalizeQuery(query)))
  {
    var q := NormalizeQuery(query);
    if q == [] then clients
    else
      FilterSelected(clients, QueryMatcher(q));
      Filter(clients, QueryMatcher(q))
  }

  /** The query's case and its surrounding whitespace do not change the result. */
  lemma {:induction false} SearchIgnoresCaseAndPadding(clients: seq<Client>, query: string)
    ensures SearchClients(clients, ToLower(query)) == SearchClients(clients, query)
    ensures SearchClients(clients, Trim(query)) == SearchClients(clients, query)
  {
    ToLowerTwice(query);
    TrimLowerCommute(query);
    TrimLowerCommute(Trim(query));
    TrimTwice(query);
    TrimTwice(ToLower(query));
  }

  /** A query made only of whitespace keeps every client. */
  lemma BlankQueryKeepsAll(clients: seq<Client>, query: string)
    requires AllWhitespace(query)
    ensures SearchClients(clients, query) == clients
  {
    TrimLowerCommute(query);
    TrimEmpty(query);
  }

  // ------------------------------------------------------------ aggregates

  /** `clients.reduce((total, c) => total + c.aua, 0)`, folding from the left. */
  function CalculateTotalAUA(clients: seq<Client>): (total: int)
    ensures (forall c | c in clients :: c.aua >= 0) ==> total >= 0
    ensures |clients| == 0 ==> total == 0
  {
    if |clients| == 0 then 0
    else CalculateTotalAUA(clients[..|clients| - 1]) + clients[|clients| - 1].aua
  }

  /** The total of a concatenation is the sum of the totals. */
  lemma {:induction false} TotalAUAConcat(a: seq<Client>, b: seq<Client>)
    ensures CalculateTotalAUA(a + b) == CalculateTotalAUA(a) + CalculateTotalAUA(b)
    decreases |b|
  {
    if |b| > 0 {
      assert (a + b)[..|a + b| - 1] == a + b[..|b| - 1];
      TotalAUAConcat(a, b[..|b| - 1]);
    } else {
      assert a + b == a;
    }
  }

  lemma MultisetRemoveOne(a: seq<Client>, x: Client, b1: seq<Client>, b2: seq<Client>)
    requires multiset(a + [x]) == multiset(b1 + [x] + b2)
    ensures multiset(a) == multiset(b1 + b2)
  {
    assert multiset(a + [x]) == multiset(a) + multiset{x};
    assert multiset(b1 + [x] + b2) == multiset(b1) + multiset{x} + multiset(b2);
    assert multiset(b1 + b2) == multiset(b1) + multiset(b2);
    assert multiset(a) == multiset(a + [x]) - multiset{x};
    assert multiset(b1 + b2) == multiset(b1 + [x] + b2) - multiset{x};
  }

  /** Reordering the clients (sorting, say) does not change the total. */
  lemma {:induction false} TotalAUAPermutation(a: seq<Client>, b: seq<Client>)
    requires multiset(a) == multiset(b)
    ensures CalculateTotalAUA(a) == CalculateTotalAUA(b)
    decreases |a|
  {
    if |a| > 0 {
      var x := a[|a| - 1];
      var a' := a[..|a| - 1];
      assert a == a' + [x];
      assert x in multiset(b);
      var i :| 0 <= i < |b| && b[i] == x;
      var b' := b[..i] + b[i + 1..];
      assert b == b[..i] + [x] + b[i + 1..];
      MultisetRemoveOne(a', x, b[..i], b[i + 1..]);
      TotalAUAPermutation(a', b');
      TotalAUAConcat(b[..i] + [x], b[i + 1..]);
      TotalAUAConcat(b[..i], [x]);
      TotalAUAConcat(b[..i], b[i + 1..]);
      assert CalculateTotalAUA([x]) == x.aua by { assert [x][..0] == []; }
    } else {
      assert b == [];
    }
  }

  /** Splitting a list by any predicate splits its total the same way. */
  lemma {:induction false} TotalAUAPartition(clients: seq<Client>, p: Client -> bool)
    ensures CalculateTotalAUA(Filter(clients, p)) + CalculateTotalAUA(Filter(clients, c => !p(c)))
         == CalculateTotalAUA(clients)
  {
    if |clients| > 0 {
      var rest := clients[1..];
      assert clients == [clients[0]] + rest;
      TotalAUAPartition(rest, p);
      TotalAUAConcat([clients[0]], rest);
      assert CalculateTotalAUA([clients[0]]) == clients[0].aua by { assert [clients[0]][..0] == []; }
      if p(clients[0]) {
        TotalAUAConcat([clients[0]], Filter(rest, p));
      } else {
        TotalAUAConcat([clients[0]], Filter(rest, c => !p(c)));
      }
    }
  }

  /** Every client's AUA within `[lo, hi]` puts the total within `n * lo` and `n * hi`. */
  lemma {:induction false} TotalAUABounds(clients: seq<Client>, lo: int, hi: int)
    requires forall c | c in clients :: lo <= c.aua <= hi
    ensures |clients| * lo <= CalculateTotalAUA(clients) <= |clients| * hi
  {
    if |clients| > 0 {
      var n := |clients| - 1;
      TotalAUABounds(clients[..n], lo, hi);
      assert clients[n] in clients;
      MulSucc(n, lo);
      MulSucc(n, hi);
    }
  }

  lemma MulSucc(n: int, x: int)
    ensures (n + 1) * x == n * x + x
  {
  }

  /** `getAverageAUA`: 0 for no clients, otherwise the total over the count. */
  function GetAverageAUA(clients: seq<Client>): (average: real)
    ensures |clients| == 0 ==> average == 0.0
    ensures |clients| > 0 ==> average * |clients| as real == CalculateTotalAUA(clients) as real
  {
    if |clients| == 0 then 0.0 else CalculateTotalAUA(clients) as real / |clients| as real
  }

  lemma CastProduct(a: int, b: int)
    ensures (a * b) as real == a as real * b as real
  {
  }

  lemma QuotientBounds(t: real, n: real, lo: real, hi: real)
    requires n > 0.0 && n * lo <= t <= n * hi
    ensures lo <= t / n <= hi
  {
    assert t / n * n == t;
  }

  /** Bounds on an integer total carry over to its exact quotient by a positive count. */
  lemma IntQuotientBounds(t: int, n: int, lo: int, hi: int)
    requires n > 0 && n * lo <= t <= n * hi
    ensures lo as real <= t as real / n as real <= hi as real
  {
    CastProduct(n, lo);
    CastProduct(n, hi);
    QuotientBounds(t as real, n as real, lo as real, hi as real);
  }

  /** The average lies between the smallest and the largest AUA. */
  lemma AverageWithinBounds(clients: seq<Client>, lo: int, hi: int)
    requires |clients| > 0
    requires forall c | c in clients :: lo <= c.aua <= hi
    ensures lo as real <= GetAverageAUA(clients) <= hi as real
  {
    TotalAUABounds(clients, lo, hi);
    IntQuotientBounds(CalculateTotalAUA(clients), |clients|, lo, hi);
  }

  function KeyEquals(key: Client -> string, k: string): Client -> bool {
    c => key(c) == k
  }

  /** How many of the clients carry the key `k`. */
  function CountKey(clients: seq<Client>, key: Client -> string, k: string): nat {
    |Filter(clients, KeyEquals(key, k))|
  }

  lemma CountKeySnoc(clients: seq<Client>, x: Client, key: Client -> string, k: string)
    ensures CountKey(clients + [x], key, k) == CountKey(clients, key, k) + (if key(x) == k then 1 else 0)
  {
    FilterConcat(clients, [x], KeyEquals(key, k));
  }

  lemma CountKeyPositive(clients: seq<Client>, key: Client -> string, k: string)
    ensures CountKey(clients, key, k) > 0 <==> exists c :: c in clients && key(c) == k
  {
    var r := Filter(clients, KeyEquals(key, k));
    if |r| > 0 {
      assert r[0] in r;
    }
    if exists c :: c in clients && key(c) == k {
      var c :| c in clients && key(c) == k;
      assert c in r;
    }
  }

  /**
   * `clients.reduce((acc, c) => { acc[key(c)] = (acc[key(c)] || 0) + 1; ... }, {})`:
   * each key seen maps to the number of clients carrying it, and the
   * counts add up to the number of clients.
   */
  method Distribution(clients: seq<Client>, key: Client -> string) returns (acc: map<string, nat>)
    ensures forall k :: k in acc <==> exists c :: c in clients && key(c) == k
    ensures forall k | k in acc :: acc[k] == CountKey(clients, key, k)
    ensures MapSum(acc) == |clients|
  {
    acc := map[];
    var i := 0;
    while i < |clients|
      invariant 0 <= i <= |clients|
      invariant acc == Tally(clients[..i], key)
      invariant MapSum(acc) == i
    {
      var k := key(clients[i]);
      var n := if k in acc then acc[k] else 0;
      assert clients[..i + 1][..i] == clients[..i];
      MapSumUpdate(acc, k, n + 1);
      acc := acc[k := n + 1];
      i := i + 1;
    }
    assert clients[..i] == clients;
    TallyCounts(clients, key);
    CountsKeys(acc, clients, key);
  }

  /** The dictionary the loop builds, one client at a time from the left. */
  ghost function Tally(s: seq<Client>, key: Client -> string): map<string, nat> {
    if s == [] then map[]
    else
      var m := Tally(s[..|s| - 1], key);
      var k := key(s[|s| - 1]);
      m[k := (if k in m then m[k] else 0) + 1]
  }

  /** `acc` maps exactly the keys carried in `s`, each to its number of carriers. */
  ghost predicate Counts(acc: map<string, nat>, s: seq<Client>, key: Client -> string) {
    && (forall k :: k in acc <==> CountKey(s, key, k) > 0)
    && (forall k | k in acc :: acc[k] == CountKey(s, key, k))
  }

  lemma {:induction false} TallyCounts(s: seq<Client>, key: Client -> string)
    ensures Counts(Tally(s, key), s, key)
  {
    if s != [] {
      var m := Tally(s[..|s| - 1], key);
      var x := s[|s| - 1];
      TallyCounts(s[..|s| - 1], key);
      assert s == s[..|s| - 1] + [x];
      CountsSnoc(m, s[..|s| - 1], x, key, if key(x) in m then m[key(x)] else 0);
    }
  }

  /** A complete count holds the keys carried, and nothing else. */
  lemma CountsKeys(acc: map<string, nat>, s: seq<Client>, key: Client -> string)
    requires Counts(acc, s, key)
    ensures forall k :: k in acc <==> exists c :: c in s && key(c) == k
    ensures forall k | k in acc :: acc[k] == CountKey(s, key, k)
  {
    forall k ensures k in acc <==> exists c :: c in s && key(c) == k {
      CountKeyPositive(s, key, k);
    }
  }

  /** One more client raises its own key's count by one. */
  lemma CountsSnoc(acc: map<string, nat>, s: seq<Client>, x: Client, key: Client -> string, n: nat)
    requires Counts(acc, s, key)
    requires n == if key(x) in acc then acc[key(x)] else 0
    ensures Counts(acc[key(x) := n + 1], s + [x], key)
  {
    var next := acc[key(x) := n + 1];
    forall k ensures k in next <==> CountKey(s + [x], key, k) > 0
             ensures k in next ==> next[k] == CountKey(s + [x], key, k) {
      CountKeySnoc(s, x, key, k);
    }
  }

  /** `getClientDistributionByCountry`. */
  method GetClientDistributionByCountry(clients: seq<Client>) returns (acc: map<string, nat>)
    ensures forall k :: k in acc <==> exists c :: c in clients && c.country == k
    ensures forall k | k in acc :: acc[k] == CountKey(clients, CountryField, k)
    ensures MapSum(acc) == |clients|
  {
    acc := Distribution(clients, CountryField);
  }

  /** `getClientDistributionByStatus`: keys are among the three status names. */
  method GetClientDistributionByStatus(clients: seq<Client>) returns (acc: map<string, nat>)
    ensures forall k :: k in acc <==> exists c :: c in clients && StatusField(c) == k
    ensures forall k | k in acc :: k in Clients.STATUS_NAMES
    ensures forall k | k in acc :: acc[k] == CountKey(clients, StatusField, k)
    ensures MapSum(acc) == |clients|
  {
    acc := Distribution(clients, StatusField);
  }

  // ------------------------------------------------------- notes and contacts

  /** `note_${Date.now()}`. */
  function NoteId(stamp: nat): string {
    "note_" + NatToString(stamp)
  }

  /** `comm_${Date.now()}`. */
  function CommunicationId(stamp: nat): string {
    "comm_" + NatToString(stamp)
  }

  /**
   * `addClientNote`: the old notes (none counts as empty) plus one new note
   * at the end; nothing else about the client changes. `stamp` is the
   * `Date.now()` read for the id, `createdAt` the `new Date()` read.
   */
  function AddClientNote(client: Client, content: string, author: string, stamp: nat, createdAt: int): (r: Client)
    ensures r.notes.Some? && |r.notes.value| == |client.notes.GetOr([])| + 1
    ensures r.notes.value[..|r.notes.value| - 1] == client.notes.GetOr([])
    ensures r.notes.value[|r.notes.value| - 1] == ClientNote(NoteId(stamp), content, author, createdAt)
    ensures r.(notes := client.notes) == client
  {
    client.(notes := Some(client.notes.GetOr([]) + [ClientNote(NoteId(stamp), content, author, createdAt)]))
  }

  function NoteIdIsNot(noteId: string): ClientNote -> bool {
    (n: ClientNote) => n.id != noteId
  }

  /**
   * `deleteClientNote`: every note with that id goes, the others stay in
   * order; absent notes become an empty list. Nothing else changes.
   */
  function DeleteClientNote(client: Client, noteId: string): (r: Client)
    ensures r.notes.Some?
    ensures Selected(r.notes.value, client.notes.GetOr([]), NoteIdIsNot(noteId))
    ensures forall n :: n in r.notes.value <==> n in client.notes.GetOr([]) && n.id != noteId
    ensures r.(notes := client.notes) == client
  {
    var kept := Filter(client.notes.GetOr([]), NoteIdIsNot(noteId));
    FilterSelected(client.notes.GetOr([]), NoteIdIsNot(noteId));
    client.(notes := Some(kept))
  }

  /** Deleting twice is deleting once. */
  lemma DeleteNoteIdempotent(client: Client, noteId: string)
    ensures DeleteClientNote(DeleteClientNote(client, noteId), noteId) == DeleteClientNote(client, noteId)
  {
    var kept := DeleteClientNote(client, noteId).notes.value;
    FilterAll(kept, NoteIdIsNot(noteId));
  }

  /**
   * Deleting the note just added, when its id was not already taken, gives
   * back the client with its notes made explicit.
   */
  lemma {:induction false} DeleteUndoesAdd(client: Client, content: string, author: string, stamp: nat, createdAt: int)
    requires forall n | n in client.notes.GetOr([]) :: n.id != NoteId(stamp)
    ensures DeleteClientNote(AddClientNote(client, content, author, stamp, createdAt), NoteId(stamp))
         == client.(notes := Some(client.notes.GetOr([])))
  {
    var before := client.notes.GetOr([]);
    var note := ClientNote(NoteId(stamp), content, author, createdAt);
    var p := NoteIdIsNot(NoteId(stamp));
    var added := AddClientNote(client, content, author, stamp, createdAt);
    assert added.notes.value == before + [note];
    assert Filter(added.notes.value, p) == before by {
      FilterConcat(before, [note], p);
      FilterAll(before, p);
      FilterNone([note], p);
    }
    var d := DeleteClientNote(added, NoteId(stamp));
    assert d.notes.value == Filter(added.notes.value, p);
    assert d.notes == Some(before);
  }

  /**
   * `addClientCommunication`: one new communication at the end and a new
   * last-contact time; nothing else changes. `stamp`, `date` and
   * `contactedAt` are the three separate clock reads of the source.
   */
  function AddClientCommunication(client: Client, kind: string, content: string, direction: string,
                                  subject: Option<string>, duration: Option<int>,
                                  stamp: nat, date: int, contactedAt: int): (r: Client)
    ensures r.communications.Some?
    ensures r.communications.value
         == client.communications.GetOr([])
            + [Communication(CommunicationId(stamp), kind, content, direction, subject, duration, date)]
    ensures r.lastContactedAt == contactedAt
    ensures r.(communications := client.communications, lastContactedAt := client.lastContactedAt) == client
  {
    var entry := Communication(CommunicationId(stamp), kind, content, direction, subject, duration, date);
    client.(communications := Some(client.communications.GetOr([]) + [entry]), lastContactedAt := contactedAt)
  }

  // ------------------------------------------------- time since last contact

  function Abs(x: int): nat { if x < 0 then -x else x }

  /** `Math.floor(Math.abs(now - last) / day)`. */
  function DaysBetween(now: int, last: int): nat {
    Abs(now - last) / Clients.DAY_MS
  }

  /** The bucket `getTimeSinceLastContact` reports. */
  datatype Elapsed = Today | Yesterday | DaysAgo(days: nat) | WeeksAgo(weeks: nat)
                   | MonthsAgo(months: nat) | YearsAgo(years: nat)

  /** The first day count each bucket stands for, and the length of its span. */
  function SpanStart(e: Elapsed): nat {
    match e
    case Today => 0
    case Yesterday => 1
    case DaysAgo(n) => n
    case WeeksAgo(n) => 7 * n
    case MonthsAgo(n) => 30 * n
    case YearsAgo(n) => 365 * n
  }

  function SpanLength(e: Elapsed): nat {
    match e
    case Today => 1
    case Yesterday => 1
    case DaysAgo(_) => 1
    case WeeksAgo(_) => 7
    case MonthsAgo(_) => 30
    case YearsAgo(_) => 365
  }

  /** Buckets compare by their unit, then by their count. */
  function Rank(e: Elapsed): nat {
    match e
    case Today => 0
    case Yesterday => 1
    case DaysAgo(_) => 2
    case WeeksAgo(_) => 3
    case MonthsAgo(_) => 4
    case YearsAgo(_) => 5
  }

  predicate NotLater(a: Elapsed, b: Elapsed) {
    Rank(a) < Rank(b) || (Rank(a) == Rank(b) && SpanStart(a) <= SpanStart(b))
  }

  /**
   * The day count's bucket: `d` lies in the span its bucket stands for, and
   * each unit is used on exactly its own range of days.
   */
  function Bucket(d: nat): (e: Elapsed)
    ensures SpanStart(e) <= d < SpanStart(e) + SpanLength(e)
    ensures e == Today <==> d == 0
    ensures e == Yesterday <==> d == 1
    ensures e.DaysAgo? <==> 2 <= d < 7
    ensures e.WeeksAgo? <==> 7 <= d < 30
    ensures e.MonthsAgo? <==> 30 <= d < 365
    ensures e.YearsAgo? <==> 365 <= d
  {
    if d == 0 then Today
    else if d == 1 then Yesterday
    else if d < 7 then DaysAgo(d)
    else if d < 30 then WeeksAgo(d / 7)
    else if d < 365 then MonthsAgo(d / 30)
    else YearsAgo(d / 365)
  }

  /** More days never give an earlier bucket. */
  lemma BucketMonotone(d1: nat, d2: nat)
    requires d1 <= d2
    ensures NotLater(Bucket(d1), Bucket(d2))
  {
  }

  function Describe(e: Elapsed): string {
    match e
    case Today => "Today"
    case Yesterday => "Yesterday"
    case DaysAgo(n) => NatToString(n) + " day(s) ago"
    case WeeksAgo(n) => NatToString(n) + " week(s) ago"
    case MonthsAgo(n) => NatToString(n) + " month(s) ago"
    case YearsAgo(n) => NatToString(n) + " year(s) ago"
  }

  /**
   * `getTimeSinceLastContact`, with the current time passed in: "Today" for
   * less than a day either way, "Yesterday" for the next day.
   */
  function GetTimeSinceLastContact(client: Client, now: int): (r: string)
    ensures r == "Today" <==> DaysBetween(now, client.lastContactedAt) == 0
    ensures r == "Yesterday" <==> DaysBetween(now, client.lastContactedAt) == 1
  {
    var e := Bucket(DaysBetween(now, client.lastContactedAt));
    DescribeNamed(e);
    Describe(e)
  }

  /** Only the two named buckets are shown by their names. */
  lemma DescribeNamed(e: Elapsed)
    ensures Describe(e) == "Today" <==> e == Today
    ensures Describe(e) == "Yesterday" <==> e == Yesterday
  {
    if Describe(e) == "Today" {
      DescribeInjective(e, Today);
    }
    if Describe(e) == "Yesterday" {
      DescribeInjective(e, Yesterday);
    }
  }

  /** Two clients get the same label exactly when their day counts fall in the same bucket. */
  lemma SameLabelSameBucket(c1: Client, c2: Client, now: int)
    ensures GetTimeSinceLastContact(c1, now) == GetTimeSinceLastContact(c2, now)
        <==> Bucket(DaysBetween(now, c1.lastContactedAt)) == Bucket(DaysBetween(now, c2.lastContactedAt))
  {
    var e1, e2 := Bucket(DaysBetween(now, c1.lastContactedAt)), Bucket(DaysBetween(now, c2.lastContactedAt));
    if Describe(e1) == Describe(e2) {
      DescribeInjective(e1, e2);
    }
  }

  /** Two numbers followed by text that starts with a non-digit split the same way. */
  lemma NumberPrefix(a: nat, x: string, b: nat, y: string)
    requires x != [] && y != [] && !('0' <= x[0] <= '9') && !('0' <= y[0] <= '9')
    requires NatToString(a) + x == NatToString(b) + y
    ensures a == b && x == y
  {
    var sa, sb := NatToString(a), NatToString(b);
    assert sa == (sa + x)[..|sa|] && sb == (sb + y)[..|sb|];
    NatToStringRoundTrip(a);
    NatToStringRoundTrip(b);
    assert x == (sa + x)[|sa|..] && y == (sb + y)[|sb|..];
  }

  /** Different buckets are shown as different strings. */
  lemma {:induction false} DescribeInjective(e1: Elapsed, e2: Elapsed)
    requires Describe(e1) == Describe(e2)
    ensures e1 == e2
  {
    var s := Describe(e1);
    if !e1.Today? && !e1.Yesterday? && !e2.Today? && !e2.Yesterday? {
      NumberPrefix(Count(e1), Unit(e1), Count(e2), Unit(e2));
    }
  }

  function Count(e: Elapsed): nat {
    match e
    case Today => 0
    case Yesterday => 1
    case DaysAgo(n) => n
    case WeeksAgo(n) => n
    case MonthsAgo(n) => n
    case YearsAgo(n) => n
  }

  function Unit(e: Elapsed): string {
    match e
    case Today => ""
    case Yesterday => ""
    case DaysAgo(_) => " day(s) ago"
    case WeeksAgo(_) => " week(s) ago"
    case MonthsAgo(_) => " month(s) ago"
    case YearsAgo(_) => " year(s) ago"
  }

  /** Right after a communication is logged at `now`, the client reads as contacted today. */
  lemma ContactedToday(client: Client, kind: string, content: string, direction: string,
                       subject: Option<string>, duration: Option<int>, stamp: nat, date: int, now: int)
    ensures GetTimeSinceLastContact(
              AddClientCommunication(client, kind, content, direction, subject, duration, stamp, date, now), now)
         == "Today"
  {
  }
}
