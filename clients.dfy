/**
 * The client record of the admin list view and its ten-client fixture.
 *
 * Status and risk profile are closed string unions in the source; here they
 * are datatypes whose `Name` functions give the exact strings the views
 * compare and search. Dates are milliseconds since the Unix epoch
 * (an ISO date without a time parses as UTC midnight).
 */
module Clients {

  datatype ClientStatus = Active | Prospect | Inactive

  datatype RiskProfile = Conservative | Balanced | Growth

  /** The subscription tiers the list view offers, in its own order. */
  datatype SubscriptionType = Essentials | Core | Concierge

  const STATUS_NAMES: set<string> := {"Active", "Prospect", "Inactive"}
  const RISK_NAMES: set<string> := {"Conservative", "Balanced", "Growth"}
  const SUBSCRIPTION_NAMES: set<string> := {"Essentials", "Core", "Concierge"}

  function StatusName(s: ClientStatus): (r: string)
    ensures r in STATUS_NAMES
  {
    match s
    case Active => "Active"
    case Prospect => "Prospect"
    case Inactive => "Inactive"
  }

  function RiskName(p: RiskProfile): (r: string)
    ensures r in RISK_NAMES
  {
    match p
    case Conservative => "Conservative"
    case Balanced => "Balanced"
    case Growth => "Growth"
  }

  function SubscriptionName(t: SubscriptionType): (r: string)
    ensures r in SUBSCRIPTION_NAMES
  {
    match t
    case Essentials => "Essentials"
    case Core => "Core"
    case Concierge => "Concierge"
  }

  /** Each union has exactly three members, and each member its own string. */
  lemma StatusNamesExact()
    ensures forall a, b :: StatusName(a) == StatusName(b) ==> a == b
    ensures forall n :: n in STATUS_NAMES <==> exists s :: StatusName(s) == n
  {
    assert StatusName(Active) == "Active" && StatusName(Prospect) == "Prospect" && StatusName(Inactive) == "Inactive";
  }

  lemma RiskNamesExact()
    ensures forall a, b :: RiskName(a) == RiskName(b) ==> a == b
    ensures forall n :: n in RISK_NAMES <==> exists p :: RiskName(p) == n
  {
    assert RiskName(Conservative) == "Conservative" && RiskName(Balanced) == "Balanced" && RiskName(Growth) == "Growth";
  }

  lemma SubscriptionNamesExact()
    ensures forall a, b :: SubscriptionName(a) == SubscriptionName(b) ==> a == b
    ensures forall n :: n in SUBSCRIPTION_NAMES <==> exists t :: SubscriptionName(t) == n
  {
    assert SubscriptionName(Essentials) == "Essentials" && SubscriptionName(Core) == "Core"
      && SubscriptionName(Concierge) == "Concierge";
  }

  const DAY_MS: int := 1000 * 60 * 60 * 24

  /**
   * `new Date("yyyy-mm-dd").getTime()`: an ISO date without a time is UTC
   * midnight, so the timestamp is the day's number since 1970-01-01 times
   * the length of a day.
   */
  function UtcMidnight(epochDay: int): int {
    epochDay * DAY_MS
  }

  /** The record shape the list view reads. */
  datatype Client = Client(
    id: string,
    fullName: string,
    email: string,
    location: string,
    status: ClientStatus,
    riskProfile: RiskProfile,
    aua: int,
    lastContactedAt: int)

  const CLIENTS: seq<Client> := [
    Client("cl_001", "Ama Mensah", "ama.mensah@example.com", "Accra, Ghana",
           Active, Balanced, 125000, UtcMidnight(20486)),  // 2026-02-02
    Client("cl_002", "Kojo Owusu", "kojo.owusu@example.com", "Kumasi, Ghana",
           Prospect, Growth, 35000, UtcMidnight(20481)),  // 2026-01-28
    Client("cl_003", "Efua Asare", "efua.asare@example.com", "London, UK",
           Inactive, Conservative, 8500, UtcMidnight(20436)),  // 2025-12-14
    Client("cl_004", "James Wellington", "james.wellington@example.com", "Toronto, Canada",
           Active, Balanced, 185000, UtcMidnight(20485)),  // 2026-02-01
    Client("cl_005", "Marie Dubois", "marie.dubois@example.com", "Paris, France",
           Active, Growth, 520000, UtcMidnight(20487)),  // 2026-02-03
    Client("cl_006", "Sofia Martinez", "sofia.martinez@example.com", "Madrid, Spain",
           Prospect, Conservative, 42000, UtcMidnight(20478)),  // 2026-01-25
    Client("cl_007", "Yuki Tanaka", "yuki.tanaka@example.com", "Tokyo, Japan",
           Active, Growth, 750000, UtcMidnight(20486)),  // 2026-02-02
    Client("cl_008", "Priya Sharma", "priya.sharma@example.com", "Mumbai, India",
           Active, Balanced, 98000, UtcMidnight(20483)),  // 2026-01-30
    Client("cl_009", "Chen Wei", "chen.wei@example.com", "Shanghai, China",
           Prospect, Growth, 325000, UtcMidnight(20482)),  // 2026-01-29
    Client("cl_010", "Lucas Silva", "lucas.silva@example.com", "S\U{00C3}\U{00A3}o Paulo, Brazil",
           Inactive, Balanced, 15000, UtcMidnight(20442))  // 2025-12-20
  ]

  lemma FixtureIdsDistinct()
    ensures |CLIENTS| == 10
    ensures forall i, j :: 0 <= i < j < |CLIENTS| ==> CLIENTS[i].id != CLIENTS[j].id
  {
  }

  lemma FixtureAuaNonNegative()
    ensures forall c :: c in CLIENTS ==> c.aua >= 0
  {
  }

  /** Only the fifth and seventh records hold $500k or more. */
  lemma FixtureAtLeast500k()
    ensures forall i | 0 <= i < |CLIENTS| :: CLIENTS[i].aua >= 500000 <==> i == 4 || i == 6
    ensures CLIENTS[4].id == "cl_005" && CLIENTS[6].id == "cl_007"
  {
  }

  /** Exactly `cl_005` and `cl_007` hold more than $500k. */
  lemma FixtureAbove500k()
    ensures forall c :: c in CLIENTS ==> (c.aua > 500000 <==> c.id == "cl_005" || c.id == "cl_007")
  {
  }
}
