/**
 * The score resolver: the fixed triage policy table and the lookup that
 * turns a ticket's scoring key into a score, 0 when the table has no entry.
 */
module Scoring {
  import opened Wrappers
  import opened Tickets

  /** The account tiers, environments and ticket types that occur in the table. */
  datatype Tier = A | B | C | D | E
  datatype Environment = Production | Lab
  datatype TicketType = IncidentOrProblem | ServiceRequest

  /**
   * A key the table can hold: `(tier, 'escalated', environment)` for an
   * escalated ticket, `(tier, priority, environment, ticket_type)` otherwise.
   */
  datatype PolicyKey =
    | Escalated(tier: Tier, env: Environment)
    | Normal(tier: Tier, priority: int, env: Environment, kind: TicketType)

  /**
   * The scoring map, entry for entry and in its source order; None for a key
   * it does not list. Scores are the integers 1 to 76.
   */
  function Table(k: PolicyKey): (r: Option<int>)
    ensures r.Some? ==> 1 <= r.value <= 76
  {
    match k
    case Normal(A, 4, Production, IncidentOrProblem) => Some(76)
    case Normal(A, 4, Lab, IncidentOrProblem) => Some(75)
    case Normal(B, 4, Production, IncidentOrProblem) => Some(74)
    case Normal(B, 4, Lab, IncidentOrProblem) => Some(73)
    case Normal(C, 4, Production, IncidentOrProblem) => Some(72)
    case Normal(C, 4, Lab, IncidentOrProblem) => Some(71)
    case Normal(D, 4, Production, IncidentOrProblem) => Some(70)
    case Normal(D, 4, Lab, IncidentOrProblem) => Some(69)
    case Normal(E, 4, Production, IncidentOrProblem) => Some(68)
    case Normal(E, 4, Lab, IncidentOrProblem) => Some(67)
    case Escalated(A, Production) => Some(66)
    case Escalated(A, Lab) => Some(65)
    case Escalated(B, Production) => Some(64)
    case Escalated(B, Lab) => Some(63)
    case Escalated(C, Production) => Some(62)
    case Escalated(C, Lab) => Some(61)
    case Normal(A, 3, Production, IncidentOrProblem) => Some(60)
    case Normal(A, 3, Lab, IncidentOrProblem) => Some(59)
    case Normal(B, 3, Production, IncidentOrProblem) => Some(58)
    case Normal(B, 3, Lab, IncidentOrProblem) => Some(57)
    case Normal(C, 3, Production, IncidentOrProblem) => Some(56)
    case Normal(C, 3, Lab, IncidentOrProblem) => Some(55)
    case Normal(A, 3, Production, ServiceRequest) => Some(54)
    case Normal(A, 3, Lab, ServiceRequest) => Some(53)
    case Normal(B, 3, Production, ServiceRequest) => Some(52)
    case Normal(B, 3, Lab, ServiceRequest) => Some(51)
    case Normal(C, 3, Production, ServiceRequest) => Some(50)
    case Normal(C, 3, Lab, ServiceRequest) => Some(49)
    case Normal(D, 3, Production, IncidentOrProblem) => Some(48)
    case Normal(D, 3, Lab, IncidentOrProblem) => Some(47)
    case Normal(E, 3, Production, IncidentOrProblem) => Some(46)
    case Normal(E, 3, Lab, IncidentOrProblem) => Some(45)
    case Normal(A, 2, Production, IncidentOrProblem) => Some(44)
    case Normal(A, 2, Lab, IncidentOrProblem) => Some(43)
    case Normal(B, 2, Production, IncidentOrProblem) => Some(42)
    case Normal(B, 2, Lab, IncidentOrProblem) => Some(41)
    case Escalated(D, Production) => Some(40)
    case Escalated(D, Lab) => Some(39)
    case Normal(C, 2, Production, IncidentOrProblem) => Some(38)
    case Normal(C, 2, Lab, IncidentOrProblem) => Some(37)
    case Normal(A, 2, Production, ServiceRequest) => Some(36)
    case Normal(A, 2, Lab, ServiceRequest) => Some(35)
    case Normal(B, 2, Production, ServiceRequest) => Some(34)
    case Normal(B, 2, Lab, ServiceRequest) => Some(33)
    case Normal(C, 2, Production, ServiceRequest) => Some(32)
    case Normal(C, 2, Lab, ServiceRequest) => Some(31)
    case Escalated(E, Production) => Some(30)
    case Escalated(E, Lab) => Some(29)
    case Normal(D, 2, Production, IncidentOrProblem) => Some(28)
    case Normal(D, 2, Lab, IncidentOrProblem) => Some(27)
    case Normal(D, 2, Production, ServiceRequest) => Some(26)
    case Normal(D, 2, Lab, ServiceRequest) => Some(25)
    case Normal(E, 2, Production, IncidentOrProblem) => Some(24)
    case Normal(E, 2, Lab, IncidentOrProblem) => Some(23)
    case Normal(E, 2, Production, ServiceRequest) => Some(22)
    case Normal(E, 2, Lab, ServiceRequest) => Some(21)
    case Normal(A, 1, Production, IncidentOrProblem) => Some(20)
    case Normal(A, 1, Lab, IncidentOrProblem) => Some(19)
    case Normal(B, 1, Production, IncidentOrProblem) => Some(18)
    case Normal(B, 1, Lab, IncidentOrProblem) => Some(17)
    case Normal(C, 1, Production, IncidentOrProblem) => Some(16)
    case Normal(C, 1, Lab, IncidentOrProblem) => Some(15)
    case Normal(A, 1, Production, ServiceRequest) => Some(14)
    case Normal(A, 1, Lab, ServiceRequest) => Some(13)
    case Normal(B, 1, Production, ServiceRequest) => Some(12)
    case Normal(B, 1, Lab, ServiceRequest) => Some(11)
    case Normal(C, 1, Production, ServiceRequest) => Some(10)
    case Normal(C, 1, Lab, ServiceRequest) => Some(9)
    case Normal(D, 1, Production, IncidentOrProblem) => Some(8)
    case Normal(D, 1, Lab, IncidentOrProblem) => Some(7)
    case Normal(D, 1, Production, ServiceRequest) => Some(6)
    case Normal(D, 1, Lab, ServiceRequest) => Some(5)
    case Normal(E, 1, Production, IncidentOrProblem) => Some(4)
    case Normal(E, 1, Lab, IncidentOrProblem) => Some(3)
    case Normal(E, 1, Production, ServiceRequest) => Some(2)
    case Normal(E, 1, Lab, ServiceRequest) => Some(1)
    case _ => None
  }

  /** The table read backwards: the key holding score `s`, if any. */
  function EntryWithScore(s: int): (r: Option<PolicyKey>)
    ensures r.Some? ==> 1 <= s <= 76
  {
    match s
    case 76 => Some(Normal(A, 4, Production, IncidentOrProblem))
    case 75 => Some(Normal(A, 4, Lab, IncidentOrProblem))
    case 74 => Some(Normal(B, 4, Production, IncidentOrProblem))
    case 73 => Some(Normal(B, 4, Lab, IncidentOrProblem))
    case 72 => Some(Normal(C, 4, Production, IncidentOrProblem))
    case 71 => Some(Normal(C, 4, Lab, IncidentOrProblem))
    case 70 => Some(Normal(D, 4, Production, IncidentOrProblem))
    case 69 => Some(Normal(D, 4, Lab, IncidentOrProblem))
    case 68 => Some(Normal(E, 4, Production, IncidentOrProblem))
    case 67 => Some(Normal(E, 4, Lab, IncidentOrProblem))
    case 66 => Some(Escalated(A, Production))
    case 65 => Some(Escalated(A, Lab))
    case 64 => Some(Escalated(B, Production))
    case 63 => Some(Escalated(B, Lab))
    case 62 => Some(Escalated(C, Production))
    case 61 => Some(Escalated(C, Lab))
    case 60 => Some(Normal(A, 3, Production, IncidentOrProblem))
    case 59 => Some(Normal(A, 3, Lab, IncidentOrProblem))
    case 58 => Some(Normal(B, 3, Production, IncidentOrProblem))
    case 57 => Some(Normal(B, 3, Lab, IncidentOrProblem))
    case 56 => Some(Normal(C, 3, Production, IncidentOrProblem))
    case 55 => Some(Normal(C, 3, Lab, IncidentOrProblem))
    case 54 => Some(Normal(A, 3, Production, ServiceRequest))
    case 53 => Some(Normal(A, 3, Lab, ServiceRequest))
    case 52 => Some(Normal(B, 3, Production, ServiceRequest))
    case 51 => Some(Normal(B, 3, Lab, ServiceRequest))
    case 50 => Some(Normal(C, 3, Production, ServiceRequest))
    case 49 => Some(Normal(C, 3, Lab, ServiceRequest))
    case 48 => Some(Normal(D, 3, Production, IncidentOrProblem))
    case 47 => Some(Normal(D, 3, Lab, IncidentOrProblem))
    case 46 => Some(Normal(E, 3, Production, IncidentOrProblem))
    case 45 => Some(Normal(E, 3, Lab, IncidentOrProblem))
    case 44 => Some(Normal(A, 2, Production, IncidentOrProblem))
    case 43 => Some(Normal(A, 2, Lab, IncidentOrProblem))
    case 42 => Some(Normal(B, 2, Production, IncidentOrProblem))
    case 41 => Some(Normal(B, 2, Lab, IncidentOrProblem))
    case 40 => Some(Escalated(D, Production))
    case 39 => Some(Escalated(D, Lab))
    case 38 => Some(Normal(C, 2, Production, IncidentOrProblem))
    case 37 => Some(Normal(C, 2, Lab, IncidentOrProblem))
    case 36 => Some(Normal(A, 2, Production, ServiceRequest))
    case 35 => Some(Normal(A, 2, Lab, ServiceRequest))
    case 34 => Some(Normal(B, 2, Production, ServiceRequest))
    case 33 => Some(Normal(B, 2, Lab, ServiceRequest))
    case 32 => Some(Normal(C, 2, Production, ServiceRequest))
    case 31 => Some(Normal(C, 2, Lab, ServiceRequest))
    case 30 => Some(Escalated(E, Production))
    case 29 => Some(Escalated(E, Lab))
    case 28 => Some(Normal(D, 2, Production, IncidentOrProblem))
    case 27 => Some(Normal(D, 2, Lab, IncidentOrProblem))
    case 26 => Some(Normal(D, 2, Production, ServiceRequest))
    case 25 => Some(Normal(D, 2, Lab, ServiceRequest))
    case 24 => Some(Normal(E, 2, Production, IncidentOrProblem))
    case 23 => Some(Normal(E, 2, Lab, IncidentOrProblem))
    case 22 => Some(Normal(E, 2, Production, ServiceRequest))
    case 21 => Some(Normal(E, 2, Lab, ServiceRequest))
    case 20 => Some(Normal(A, 1, Production, IncidentOrProblem))
    case 19 => Some(Normal(A, 1, Lab, IncidentOrProblem))
    case 18 => Some(Normal(B, 1, Production, IncidentOrProblem))
    case 17 => Some(Normal(B, 1, Lab, IncidentOrProblem))
    case 16 => Some(Normal(C, 1, Production, IncidentOrProblem))
    case 15 => Some(Normal(C, 1, Lab, IncidentOrProblem))
    case 14 => Some(Normal(A, 1, Production, ServiceRequest))
    case 13 => Some(Normal(A, 1, Lab, ServiceRequest))
    case 12 => Some(Normal(B, 1, Production, ServiceRequest))
    case 11 => Some(Normal(B, 1, Lab, ServiceRequest))
    case 10 => Some(Normal(C, 1, Production, ServiceRequest))
    case 9 => Some(Normal(C, 1, Lab, ServiceRequest))
    case 8 => Some(Normal(D, 1, Production, IncidentOrProblem))
    case 7 => Some(Normal(D, 1, Lab, IncidentOrProblem))
    case 6 => Some(Normal(D, 1, Production, ServiceRequest))
    case 5 => Some(Normal(D, 1, Lab, ServiceRequest))
    case 4 => Some(Normal(E, 1, Production, IncidentOrProblem))
    case 3 => Some(Normal(E, 1, Lab, IncidentOrProblem))
    case 2 => Some(Normal(E, 1, Production, ServiceRequest))
    case 1 => Some(Normal(E, 1, Lab, ServiceRequest))
    case _ => None
  }

  /** Reading the table backwards from an entry's score gives back that entry. */
  lemma EntryWithScoreInvertsTable(k: PolicyKey)
    ensures Table(k).Some? ==> EntryWithScore(Table(k).value) == Some(k)
  {
    match k
    case Escalated(t, e) => InvertEscalated(t, e);
    case Normal(t, p, e, y) =>
      if p == 1 {
        InvertPriority1(t, e, y);
      } else if p == 2 {
        InvertPriority2(t, e, y);
      } else if p == 3 {
        InvertPriority3(t, e, y);
      } else if p == 4 {
        InvertPriority4(t, e, y);
      }
  }

  lemma InvertEscalated(t: Tier, e: Environment)
    ensures Table(Escalated(t, e)).Some? ==> EntryWithScore(Table(Escalated(t, e)).value) == Some(Escalated(t, e))
  {
  }

  lemma InvertPriority1(t: Tier, e: Environment, y: TicketType)
    ensures Table(Normal(t, 1, e, y)).Some? ==> EntryWithScore(Table(Normal(t, 1, e, y)).value) == Some(Normal(t, 1, e, y))
  {
    if y == IncidentOrProblem {
      InvertPriority1Incident(t, e);
    } else {
      InvertPriority1Request(t, e);
    }
  }

  lemma InvertPriority1Incident(t: Tier, e: Environment)
    ensures var k := Normal(t, 1, e, IncidentOrProblem);
      Table(k).Some? ==> EntryWithScore(Table(k).value) == Some(k)
  {
  }

  lemma InvertPriority1Request(t: Tier, e: Environment)
    ensures var k := Normal(t, 1, e, ServiceRequest);
      Table(k).Some? ==> EntryWithScore(Table(k).value) == Some(k)
  {
  }

  lemma InvertPriority2(t: Tier, e: Environment, y: TicketType)
    ensures Table(Normal(t, 2, e, y)).Some? ==> EntryWithScore(Table(Normal(t, 2, e, y)).value) == Some(Normal(t, 2, e, y))
  {
  }

  lemma InvertPriority3(t: Tier, e: Environment, y: TicketType)
    ensures Table(Normal(t, 3, e, y)).Some? ==> EntryWithScore(Table(Normal(t, 3, e, y)).value) == Some(Normal(t, 3, e, y))
  {
  }

  lemma InvertPriority4(t: Tier, e: Environment, y: TicketType)
    ensures Table(Normal(t, 4, e, y)).Some? ==> EntryWithScore(Table(Normal(t, 4, e, y)).value) == Some(Normal(t, 4, e, y))
  {
  }

  /** Every score from 1 to 76 names an entry that holds it. */
  lemma TableInvertsEntryWithScore(s: int)
    requires 1 <= s <= 76
    ensures EntryWithScore(s).Some? && Table(EntryWithScore(s).value) == Some(s)
  {
    if s <= 25 {
      ScoresUpTo25(s);
    } else if s <= 50 {
      ScoresUpTo50(s);
    } else {
      ScoresUpTo76(s);
    }
  }

  lemma ScoresUpTo25(s: int)
    requires 1 <= s <= 25
    ensures EntryWithScore(s).Some? && Table(EntryWithScore(s).value) == Some(s)
  {
  }

  lemma ScoresUpTo50(s: int)
    requires 26 <= s <= 50
    ensures EntryWithScore(s).Some? && Table(EntryWithScore(s).value) == Some(s)
  {
  }

  lemma ScoresUpTo76(s: int)
    requires 51 <= s <= 76
    ensures EntryWithScore(s).Some? && Table(EntryWithScore(s).value) == Some(s)
  {
  }

  /** No two entries share a score. */
  lemma TableIsInjective(k1: PolicyKey, k2: PolicyKey)
    requires Table(k1).Some? && Table(k1) == Table(k2)
    ensures k1 == k2
  {
    EntryWithScoreInvertsTable(k1);
    EntryWithScoreInvertsTable(k2);
  }

  /** Every score from 1 to 76 is held by some entry. */
  lemma TableCoversScores(s: int)
    requires 1 <= s <= 76
    ensures exists k :: Table(k) == Some(s)
  {
    TableInvertsEntryWithScore(s);
    assert Table(EntryWithScore(s).value) == Some(s);
  }

  /**
   * Which combinations of the named tiers, priorities 1..4, environments and
   * types the table leaves out: priority-4 service requests, and priority-3
   * service requests of tiers D and E. Every escalated combination is listed.
   */
  lemma UnrankedCombinations(t: Tier, p: int, e: Environment, y: TicketType)
    requires 1 <= p <= 4
    ensures Table(Normal(t, p, e, y)).None?
        <==> y == ServiceRequest && (p == 4 || (p == 3 && (t == D || t == E)))
    ensures Table(Escalated(t, e)).Some?
  {
  }

  /** The top entry and the bottom entry of the table. */
  lemma TableExtremes(k: PolicyKey)
    ensures Table(Normal(A, 4, Production, IncidentOrProblem)) == Some(76)
    ensures Table(Normal(E, 1, Lab, ServiceRequest)) == Some(1)
    ensures Table(k).Some? && Table(k).value == 76 ==> k == Normal(A, 4, Production, IncidentOrProblem)
    ensures Table(k).Some? && Table(k).value == 1 ==> k == Normal(E, 1, Lab, ServiceRequest)
  {
    if Table(k).Some? {
      EntryWithScoreInvertsTable(k);
    }
  }

  /**
   * The key exactly as the code builds it, a tuple of the ticket's raw values:
   * a 3-tuple with the literal 'escalated', or a 4-tuple.
   */
  datatype ScoreKey =
    | EscalatedKey(tier: Value, env: Value)
    | NormalKey(tier: Value, priority: Value, env: Value, ticketType: Value)

  function TierOf(v: Value): (r: Option<Tier>)
    ensures r == Some(A) <==> v == Str("A")
    ensures r == Some(B) <==> v == Str("B")
    ensures r == Some(C) <==> v == Str("C")
    ensures r == Some(D) <==> v == Str("D")
    ensures r == Some(E) <==> v == Str("E")
  {
    if v == Str("A") then Some(A)
    else if v == Str("B") then Some(B)
    else if v == Str("C") then Some(C)
    else if v == Str("D") then Some(D)
    else if v == Str("E") then Some(E)
    else None
  }

  function EnvironmentOf(v: Value): (r: Option<Environment>)
    ensures r == Some(Production) <==> v == Str("Production")
    ensures r == Some(Lab) <==> v == Str("Lab")
  {
    if v == Str("Production") then Some(Production)
    else if v == Str("Lab") then Some(Lab)
    else None
  }

  function TicketTypeOf(v: Value): (r: Option<TicketType>)
    ensures r == Some(IncidentOrProblem) <==> v == Str("Incident or Problem")
    ensures r == Some(ServiceRequest) <==> v == Str("Service request")
  {
    if v == Str("Incident or Problem") then Some(IncidentOrProblem)
    else if v == Str("Service request") then Some(ServiceRequest)
    else None
  }

  /** The string the table writes for a tier. */
  function TierName(t: Tier): (s: string)
    ensures TierOf(Str(s)) == Some(t)
  {
    match t
    case A => "A"
    case B => "B"
    case C => "C"
    case D => "D"
    case E => "E"
  }

  /** The string the table writes for an environment. */
  function EnvironmentName(e: Environment): (s: string)
    ensures EnvironmentOf(Str(s)) == Some(e)
  {
    match e
    case Production => "Production"
    case Lab => "Lab"
  }

  /** The string the table writes for a ticket type. */
  function TicketTypeName(y: TicketType): (s: string)
    ensures TicketTypeOf(Str(s)) == Some(y)
  {
    match y
    case IncidentOrProblem => "Incident or Problem"
    case ServiceRequest => "Service request"
  }

  /** The table's own tuple for a policy key, e.g. `('A', 4, 'Production', 'Incident or Problem')`. */
  function LiteralKey(pk: PolicyKey): (k: ScoreKey)
    ensures k.EscalatedKey? <==> pk.Escalated?
  {
    match pk
    case Escalated(t, e) => EscalatedKey(Str(TierName(t)), Str(EnvironmentName(e)))
    case Normal(t, p, e, y) => NormalKey(Str(TierName(t)), Int(p), Str(EnvironmentName(e)), Str(TicketTypeName(y)))
  }

  /**
   * The table entry a raw key would match under Python's tuple equality, if
   * any: every component must equal the table's string or integer exactly.
   */
  function PolicyKeyOf(k: ScoreKey): (r: Option<PolicyKey>)
    ensures r.Some? && r.value.Escalated? ==> k.EscalatedKey?
    ensures r.Some? && r.value.Normal? ==> k.NormalKey? && k.priority == Int(r.value.priority)
    ensures r.Some? ==> k == LiteralKey(r.value)
  {
    match k
    case EscalatedKey(t, e) =>
      if TierOf(t).Some? && EnvironmentOf(e).Some?
      then Some(Escalated(TierOf(t).value, EnvironmentOf(e).value))
      else None
    case NormalKey(t, p, e, y) =>
      if TierOf(t).Some? && p.Int? && EnvironmentOf(e).Some? && TicketTypeOf(y).Some?
      then Some(Normal(TierOf(t).value, p.n, EnvironmentOf(e).value, TicketTypeOf(y).value))
      else None
  }

  /** `SCORING_MAP.get(score_key, 0)`: the entry's score, 0 for a key the table lacks. */
  function Score(k: ScoreKey): (r: int)
    ensures 0 <= r <= 76
    ensures r == 0 <==> PolicyKeyOf(k).None? || Table(PolicyKeyOf(k).value).None?
  {
    match PolicyKeyOf(k)
    case Some(pk) => Table(pk).GetOr(0)
    case None => 0
  }

  /**
   * `SCORING_MAP.get(key, 0)` for every key: a raw key matches a policy key
   * exactly when it is that key's literal tuple, and the literal tuple
   * scores the entry's score, or 0 when the table does not list it.
   */
  lemma ScoreIsTableLookup(k: ScoreKey, pk: PolicyKey)
    ensures PolicyKeyOf(k) == Some(pk) <==> k == LiteralKey(pk)
    ensures Score(LiteralKey(pk)) == Table(pk).GetOr(0)
  {
    match pk
    case Escalated(t, e) =>
    case Normal(t, p, e, y) =>
  }

  /** The table's literal keys, as tuples of strings and integers, give the policy's scores. */
  lemma ScoreOfLiteralKeys()
    ensures Score(NormalKey(Str("A"), Int(4), Str("Production"), Str("Incident or Problem"))) == 76
    ensures Score(NormalKey(Str("E"), Int(1), Str("Lab"), Str("Service request"))) == 1
    ensures Score(EscalatedKey(Str("A"), Str("Lab"))) == 65
    ensures Score(NormalKey(Str("C"), Int(2), Str("Production"), Str("Incident or Problem"))) == 38
    ensures Score(NormalKey(Str("A"), Int(4), Str("Production"), Str("Service request"))) == 0
    ensures Score(NormalKey(Str("D"), Int(3), Str("Lab"), Str("Service request"))) == 0
  {
  }

  /** A key holding anything but the table's exact strings and integers scores 0. */
  lemma UnlistedValuesScoreZero(k: ScoreKey)
    requires TierOf(k.tier).None? || EnvironmentOf(k.env).None?
          || (k.NormalKey? && (!k.priority.Int? || TicketTypeOf(k.ticketType).None?))
    ensures Score(k) == 0
  {
  }
}
