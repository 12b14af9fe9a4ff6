/**
 * The v1.0.5 ranker: scores each ticket (defaulting a missing tier to 'C' and
 * a missing environment to 'Production', with a warning each), writes
 * `score` and `sort_key` onto the ticket, then sorts the list in place by
 * `(-score, created_at)`.
 */
module Ranker {
  import opened Wrappers
  import opened Keys
  import opened Tickets
  import opened Scoring
  import opened StableSort
  import opened Readable

  /** A warning logged while scoring a ticket; the log names the ticket's id. */
  datatype Warning = NoAccountTier(ticketId: int) | NoEnvironment(ticketId: int)

  /** `custom_fields.get('account_tier')`, replaced by 'C' when it is None. */
  function EffectiveTier(t: Ticket): (v: Value)
    ensures t.accountTier.Get().None? ==> v == Str("C")
    ensures t.accountTier.Get().Some? ==> v == t.accountTier.value
  {
    t.accountTier.Get().GetOr(Str("C"))
  }

  /** `custom_fields.get('environment')`, replaced by 'Production' when it is None. */
  function EffectiveEnvironment(t: Ticket): (v: Value)
    ensures t.environment.Get().None? ==> v == Str("Production")
    ensures t.environment.Get().Some? ==> v == t.environment.value
  {
    t.environment.Get().GetOr(Str("Production"))
  }

  /** The scoring key: tier and environment only for an escalated ticket. */
  function ScoreKeyOf(t: Ticket): (k: ScoreKey)
    ensures k.EscalatedKey? <==> t.isEscalated
    ensures k.tier == EffectiveTier(t) && k.env == EffectiveEnvironment(t)
    ensures k.NormalKey? ==> k.priority == t.priority && k.ticketType == t.ticketType
  {
    if t.isEscalated then EscalatedKey(EffectiveTier(t), EffectiveEnvironment(t))
    else NormalKey(EffectiveTier(t), t.priority, EffectiveEnvironment(t), t.ticketType)
  }

  /** The ticket's score, 0 when its key is not in the table. */
  function TicketScore(t: Ticket): (s: int)
    ensures 0 <= s <= 76
  {
    Score(ScoreKeyOf(t))
  }

  /** The warnings `calculate_sort_key` logs for `t`, in the order it logs them. */
  function Diagnostics(t: Ticket): seq<Warning>
  {
    (if t.accountTier.Get().None? then [NoAccountTier(t.id)] else [])
    + (if t.environment.Get().None? then [NoEnvironment(t.id)] else [])
  }

  /** One warning naming the ticket per missing or null field, and no other warning. */
  lemma DiagnosticsNameMissingFields(t: Ticket)
    ensures NoAccountTier(t.id) in Diagnostics(t) <==> t.accountTier.Get().None?
    ensures NoEnvironment(t.id) in Diagnostics(t) <==> t.environment.Get().None?
    ensures forall w :: w in Diagnostics(t) ==> w == NoAccountTier(t.id) || w == NoEnvironment(t.id)
    ensures |Diagnostics(t)| == (if t.accountTier.Get().None? then 1 else 0) + (if t.environment.Get().None? then 1 else 0)
    ensures |Diagnostics(t)| == 2 ==> Diagnostics(t) == [NoAccountTier(t.id), NoEnvironment(t.id)]
  {
  }

  /** `calculate_sort_key(ticket)`: the tuple `(-score, created_at)`. */
  function CalculateSortKey(t: Ticket): (k: SortKey)
    ensures |k| == 2 && k[0].Num? && -76 <= k[0].n <= 0 && k[1] == Text(t.createdAt)
  {
    [Num(-TicketScore(t)), Text(t.createdAt)]
  }

  /** Sort keys order tickets by score, highest first, then by creation time, oldest first. */
  lemma SortKeyOrder(t: Ticket, u: Ticket)
    ensures KeyLe(CalculateSortKey(t), CalculateSortKey(u))
        <==> (TicketScore(t) > TicketScore(u)
              || (TicketScore(t) == TicketScore(u) && StrLe(t.createdAt, u.createdAt)))
  {
    PairOrder(-TicketScore(t), t.createdAt, -TicketScore(u), u.createdAt);
  }

  /**
   * One pass of the annotation loop: `score` and `sort_key` are stored on the
   * ticket, `score == -sort_key[0]`, and nothing else changes; in particular
   * the defaults are not written back into `custom_fields`.
   */
  function Annotate(t: Ticket): (r: Ticket)
    ensures r.score.Some? && 0 <= r.score.value <= 76
    ensures r.sortKey.Some? && |r.sortKey.value| == 2 && r.sortKey.value[0] == Num(-r.score.value)
    ensures r.score == Some(TicketScore(t)) && r.sortKey == Some(CalculateSortKey(t))
    ensures r.(score := t.score, sortKey := t.sortKey) == t
  {
    t.(score := Some(TicketScore(t)), sortKey := Some(CalculateSortKey(t)))
  }

  function AnnotateAll(s: seq<Ticket>): (r: seq<Ticket>)
    ensures |r| == |s| && forall i :: 0 <= i < |s| ==> r[i] == Annotate(s[i])
  {
    seq(|s|, i requires 0 <= i < |s| => Annotate(s[i]))
  }

  /** The warnings logged for a whole list, ticket after ticket. */
  function AllDiagnostics(s: seq<Ticket>): seq<Warning>
  {
    if s == [] then [] else AllDiagnostics(s[..|s| - 1]) + Diagnostics(s[|s| - 1])
  }

  /**
   * A warning is in the log of a list exactly when it is among the warnings
   * of some ticket of that list: nothing is lost and nothing is invented.
   */
  lemma {:induction false} AllDiagnosticsNameListTickets(s: seq<Ticket>)
    ensures forall w :: w in AllDiagnostics(s) <==> exists i :: 0 <= i < |s| && w in Diagnostics(s[i])
  {
    if s != [] {
      var p := s[..|s| - 1];
      AllDiagnosticsNameListTickets(p);
      forall w | w in AllDiagnostics(s)
        ensures exists i :: 0 <= i < |s| && w in Diagnostics(s[i])
      {
        if w in AllDiagnostics(p) {
          var i :| 0 <= i < |p| && w in Diagnostics(p[i]);
          assert s[i] == p[i];
        } else {
          assert w in Diagnostics(s[|s| - 1]);
        }
      }
      forall w | exists i :: 0 <= i < |s| && w in Diagnostics(s[i])
        ensures w in AllDiagnostics(s)
      {
        var i :| 0 <= i < |s| && w in Diagnostics(s[i]);
        if i < |s| - 1 {
          assert p[i] == s[i];
        }
      }
    }
  }

  /** The log of a longer prefix: one more ticket's warnings at the end. */
  lemma AllDiagnosticsStep(s: seq<Ticket>, i: nat)
    requires i < |s|
    ensures AllDiagnostics(s[..i + 1]) == AllDiagnostics(s[..i]) + Diagnostics(s[i])
  {
    assert s[..i + 1][..i] == s[..i];
  }

  /** `x['sort_key']`, the key the list is sorted by. */
  function StoredSortKey(t: Ticket): SortKey
  {
    t.sortKey.GetOr([])
  }

  /** The list as `sort_tickets` leaves it: annotated, then stably sorted by the stored key. */
  ghost function Ranked(s: seq<Ticket>): (r: seq<Ticket>)
    ensures |r| == |s| && multiset(r) == multiset(AnnotateAll(s))
  {
    StableSortedPermutes(AnnotateAll(s), StoredSortKey);
    StableSorted(AnnotateAll(s), StoredSortKey)
  }

  /** One pass of the annotation loop turns the next ticket into its annotated form. */
  lemma AnnotateStep(s: seq<Ticket>, i: nat)
    requires i < |s|
    ensures (AnnotateAll(s[..i]) + s[i..])[i] == s[i]
    ensures (AnnotateAll(s[..i]) + s[i..])[i := Annotate(s[i])] == AnnotateAll(s[..i + 1]) + s[i + 1..]
  {
  }

  /** The loop of `sort_tickets`: stores `score` and `sort_key` on every ticket, in order. */
  method AnnotateTickets(a: array<Ticket>) returns (log: seq<Warning>)
    modifies a
    ensures a[..] == AnnotateAll(old(a[..]))
    ensures log == AllDiagnostics(old(a[..]))
  {
    ghost var input := a[..];
    log := [];
    assert input[..0] == [] && input[0..] == input;
    for i := 0 to a.Length
      invariant a[..] == AnnotateAll(input[..i]) + input[i..]
      invariant log == AllDiagnostics(input[..i])
    {
      AnnotateStep(input, i);
      AllDiagnosticsStep(input, i);
      log := log + Diagnostics(a[i]);
      a[i] := Annotate(a[i]);
    }
    assert input[..a.Length] == input && input[a.Length..] == [];
  }

  /** `sort_tickets(tickets)`: annotates every ticket, then sorts the list in place. */
  method SortTickets(a: array<Ticket>) returns (log: seq<Warning>)
    modifies a
    ensures a[..] == Ranked(old(a[..]))
    ensures log == AllDiagnostics(old(a[..]))
  {
    log := AnnotateTickets(a);
    InsertionSortBy(a, StoredSortKey);
  }

  /** Every ticket of the ranked list is an input ticket with its score stored. */
  lemma RankedTicketsAreAnnotated(s: seq<Ticket>, i: int)
    requires 0 <= i < |Ranked(s)|
    ensures exists j :: 0 <= j < |s| && Ranked(s)[i] == Annotate(s[j]) && Ranked(s)[i].score == Some(TicketScore(s[j]))
    ensures Ranked(s)[i].score == Some(TicketScore(Ranked(s)[i])) && 0 <= Ranked(s)[i].score.value <= 76
    ensures StoredSortKey(Ranked(s)[i]) == [Num(-Ranked(s)[i].score.value), Text(Ranked(s)[i].createdAt)]
  {
    var j := RankedTicketSource(s, i);
    AnnotateKeepsScore(s[j]);
  }

  /** Annotation does not change the fields the score is computed from. */
  lemma AnnotateKeepsScore(t: Ticket)
    ensures TicketScore(Annotate(t)) == TicketScore(t)
    ensures CalculateSortKey(Annotate(t)) == CalculateSortKey(t)
  {
    assert ScoreKeyOf(Annotate(t)) == ScoreKeyOf(t);
  }

  /**
   * The ranked list runs from the highest score down; tickets with equal
   * scores run from the oldest `created_at` to the newest.
   */
  lemma RankedOrder(s: seq<Ticket>, i: int, j: int)
    requires 0 <= i < j < |s|
    ensures Ranked(s)[i].score.Some? && Ranked(s)[j].score.Some?
    ensures Ranked(s)[i].score.value >= Ranked(s)[j].score.value
    ensures Ranked(s)[i].score.value == Ranked(s)[j].score.value
        ==> StrLe(Ranked(s)[i].createdAt, Ranked(s)[j].createdAt)
    ensures TicketScore(Ranked(s)[i]) >= TicketScore(Ranked(s)[j])
  {
    var r := Ranked(s);
    StableSortedIsSorted(AnnotateAll(s), StoredSortKey);
    RankedTicketsAreAnnotated(s, i);
    RankedTicketsAreAnnotated(s, j);
    PairOrder(-r[i].score.value, r[i].createdAt, -r[j].score.value, r[j].createdAt);
  }

  /**
   * Stability: the tickets that tie on both score and `created_at` keep
   * their input order.
   */
  lemma RankedKeepsFullTies(s: seq<Ticket>, score: int, createdAt: string)
    ensures Ties(Ranked(s), StoredSortKey, [Num(-score), Text(createdAt)])
         == Ties(AnnotateAll(s), StoredSortKey, [Num(-score), Text(createdAt)])
  {
    StableSortedKeepsTies(AnnotateAll(s), StoredSortKey, [Num(-score), Text(createdAt)]);
  }

  /** Annotating an annotated ticket again stores the same score and key. */
  lemma AnnotateIdempotent(t: Ticket)
    ensures Annotate(Annotate(t)) == Annotate(t)
  {
  }

  /** Ranking an already ranked list reproduces it. */
  lemma RankedIdempotent(s: seq<Ticket>)
    ensures Ranked(Ranked(s)) == Ranked(s)
  {
    RankedListIsAnnotated(s);
    StableSortedIdempotent(AnnotateAll(s), StoredSortKey);
  }

  /** Annotating the ranked list again changes nothing. */
  lemma RankedListIsAnnotated(s: seq<Ticket>)
    ensures AnnotateAll(Ranked(s)) == Ranked(s)
  {
    var r := Ranked(s);
    forall i | 0 <= i < |r|
      ensures Annotate(r[i]) == r[i]
    {
      var j := RankedTicketSource(s, i);
      AnnotateIdempotent(s[j]);
    }
  }

  /** The input position of the `i`th ranked ticket. */
  lemma RankedTicketSource(s: seq<Ticket>, i: int) returns (j: int)
    requires 0 <= i < |Ranked(s)|
    ensures 0 <= j < |s| && Ranked(s)[i] == Annotate(s[j])
  {
    var r, t := Ranked(s), AnnotateAll(s);
    assert r[i] in multiset(t);
    j :| 0 <= j < |t| && t[j] == r[i];
  }

  /**
   * A ticket without tier and environment is scored as tier C in Production:
   * at priority 2 as an incident it scores 38, and two warnings are logged.
   */
  lemma MissingFieldsTakeDefaults(t: Ticket)
    requires t.accountTier.Get().None? && t.environment.Get().None?
    requires !t.isEscalated && t.priority == Int(2) && t.ticketType == Str("Incident or Problem")
    ensures TicketScore(t) == 38
    ensures Diagnostics(t) == [NoAccountTier(t.id), NoEnvironment(t.id)]
    ensures Annotate(t).accountTier == t.accountTier && Annotate(t).environment == t.environment
  {
    ScoreOfLiteralKeys();
  }

  /**
   * An escalated ticket's score depends only on its tier and environment;
   * escalated tier A in the Lab scores 65 whatever its priority and type.
   */
  lemma EscalatedScoreIgnoresPriorityAndType(t: Ticket, u: Ticket)
    requires t.isEscalated && u.isEscalated
    requires t.accountTier == u.accountTier && t.environment == u.environment
    ensures TicketScore(t) == TicketScore(u)
    ensures t.accountTier == Present(Str("A")) && t.environment == Present(Str("Lab")) ==> TicketScore(t) == 65
  {
    ScoreOfLiteralKeys();
  }

  /** The highest score goes to a non-escalated, priority-4 incident of tier A in Production. */
  lemma TopScore(t: Ticket)
    ensures TicketScore(t) == 76
        <==> (!t.isEscalated && EffectiveTier(t) == Str("A") && t.priority == Int(4)
              && EffectiveEnvironment(t) == Str("Production") && t.ticketType == Str("Incident or Problem"))
  {
    var k := ScoreKeyOf(t);
    if TicketScore(t) == 76 {
      TableExtremes(PolicyKeyOf(k).value);
    }
  }

  /** Of two tickets with the same score, the one created strictly earlier ranks first. */
  lemma EarlierCreatedRanksFirst(s: seq<Ticket>, i: int, j: int)
    requires 0 <= i < |s| && 0 <= j < |s|
    requires Ranked(s)[i].score == Ranked(s)[j].score
    requires StrLe(Ranked(s)[i].createdAt, Ranked(s)[j].createdAt)
    requires Ranked(s)[i].createdAt != Ranked(s)[j].createdAt
    ensures i < j
  {
    if j < i {
      RankedOrder(s, j, i);
      StrLeAntisymmetric(Ranked(s)[i].createdAt, Ranked(s)[j].createdAt);
    }
  }

  /** `main`: sort the tickets, then make status and priority readable, in place. */
  method Triage(a: array<Ticket>) returns (log: seq<Warning>)
    modifies a
    ensures forall i :: 0 <= i < a.Length ==> a[i] == Relabel(Ranked(old(a[..]))[i])
    ensures log == AllDiagnostics(old(a[..]))
  {
    log := SortTickets(a);
    MakeStatusPriorityReadable(a);
  }
}
