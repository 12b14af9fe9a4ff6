/**
 * The v1.0.3 ranker: the same scoring table, but tier and environment are
 * read by indexing (a missing key is a KeyError, a null value is kept and
 * matches no entry), nothing is written onto the tickets, and the list is
 * sorted in place by the key function `(-score, created_at)`.
 */
module RankerV103 {
  import opened Keys
  import opened Tickets
  import opened Scoring
  import opened StableSort
  import opened Readable
  import Ranker

  /** The two custom fields the code reads by indexing are both there. */
  predicate HasScoringFields(t: Ticket)
  {
    t.accountTier.Present? && t.environment.Present?
  }

  /**
   * The scoring key, built from the raw tier and environment: unlike v1.0.5,
   * nothing is defaulted, so a null value goes into the key as it is.
   */
  function ScoreKeyOf(t: Ticket): (k: ScoreKey)
    ensures k.EscalatedKey? <==> t.isEscalated
    ensures k.tier == Indexed(t.accountTier) && k.env == Indexed(t.environment)
    ensures HasScoringFields(t) ==> k.tier == t.accountTier.value && k.env == t.environment.value
    ensures k.NormalKey? ==> k.priority == t.priority && k.ticketType == t.ticketType
  {
    if t.isEscalated then EscalatedKey(Indexed(t.accountTier), Indexed(t.environment))
    else NormalKey(Indexed(t.accountTier), t.priority, Indexed(t.environment), t.ticketType)
  }

  function TicketScore(t: Ticket): (s: int)
    ensures 0 <= s <= 76
  {
    Score(ScoreKeyOf(t))
  }

  /**
   * The nested `calculate_sort_key(ticket)`: the tuple `(-score, created_at)`.
   * A null tier or environment is not defaulted, so it puts the ticket in
   * the score-0 band.
   */
  function CalculateSortKey(t: Ticket): (k: SortKey)
    ensures |k| == 2 && k[0].Num? && -76 <= k[0].n <= 0 && k[1] == Text(t.createdAt)
    ensures t.accountTier == Present(Null) || t.environment == Present(Null) ==> k[0] == Num(0)
  {
    [Num(-TicketScore(t)), Text(t.createdAt)]
  }

  /** Sort keys order tickets by score, highest first, then by creation time, oldest first. */
  lemma SortKeyOrder(t: Ticket, u: Ticket)
    ensures KeyLe(CalculateSortKey(t), CalculateSortKey(u))
        <==> (TicketScore(t) > TicketScore(u)
              || (TicketScore(t) == TicketScore(u) && StrLe(t.createdAt, u.createdAt)))
  {
    PairOrder(-TicketScore(t), t.createdAt, -TicketScore(u), u.createdAt);
  }

  /** `sort_tickets(tickets)`: sorts the list in place; the tickets themselves are untouched. */
  method SortTickets(a: array<Ticket>)
    requires forall i :: 0 <= i < a.Length ==> HasScoringFields(a[i])
    modifies a
    ensures a[..] == StableSorted(old(a[..]), CalculateSortKey)
  {
    InsertionSortBy(a, CalculateSortKey);
  }

  /**
   * The sorted list is a permutation of the input: the same tickets, none
   * added, dropped or altered, running from the highest score down and, at
   * equal scores, from the oldest `created_at`.
   */
  lemma SortedOrder(s: seq<Ticket>, i: int, j: int)
    requires 0 <= i < j < |s|
    ensures multiset(StableSorted(s, CalculateSortKey)) == multiset(s)
    ensures TicketScore(StableSorted(s, CalculateSortKey)[i]) >= TicketScore(StableSorted(s, CalculateSortKey)[j])
    ensures var r := StableSorted(s, CalculateSortKey);
      TicketScore(r[i]) == TicketScore(r[j]) ==> StrLe(r[i].createdAt, r[j].createdAt)
  {
    var r := StableSorted(s, CalculateSortKey);
    StableSortedIsSorted(s, CalculateSortKey);
    StableSortedPermutes(s, CalculateSortKey);
    assert KeyLe(CalculateSortKey(r[i]), CalculateSortKey(r[j]));
    SortKeyOrder(r[i], r[j]);
  }

  /** Stability: tickets that tie on score and `created_at` keep their input order. */
  lemma SortedKeepsFullTies(s: seq<Ticket>, score: int, createdAt: string)
    ensures Ties(StableSorted(s, CalculateSortKey), CalculateSortKey, [Num(-score), Text(createdAt)])
         == Ties(s, CalculateSortKey, [Num(-score), Text(createdAt)])
  {
    StableSortedKeepsTies(s, CalculateSortKey, [Num(-score), Text(createdAt)]);
  }

  /** A tier or environment that is present but null matches no entry: the score is 0. */
  lemma NullFieldScoresZero(t: Ticket)
    requires t.accountTier == Present(Null) || t.environment == Present(Null)
    ensures TicketScore(t) == 0
  {
  }

  /** An escalated ticket's score ignores its priority and type. */
  lemma EscalatedScoreIgnoresPriorityAndType(t: Ticket, u: Ticket)
    requires t.isEscalated && u.isEscalated
    requires t.accountTier == u.accountTier && t.environment == u.environment
    ensures TicketScore(t) == TicketScore(u)
  {
  }

  /**
   * With a non-null tier and environment the two versions agree on the score;
   * with a null one, v1.0.5 scores the defaults and v1.0.3 scores 0.
   */
  lemma AgreesWithLaterVersion(t: Ticket)
    requires HasScoringFields(t)
    ensures t.accountTier.value != Null && t.environment.value != Null
        ==> TicketScore(t) == Ranker.TicketScore(t)
    ensures t.accountTier.value == Null || t.environment.value == Null ==> TicketScore(t) == 0
  {
  }

  /**
   * Why `main` sorts before relabelling: once relabelled, a priority is a
   * string, which no non-escalated entry matches, so every non-escalated
   * ticket would score 0.
   */
  lemma RelabelledTicketScoresZero(t: Ticket)
    requires !t.isEscalated
    ensures TicketScore(Relabel(t)) == 0
  {
  }

  /** `main`: sort, then relabel the sorted list in place. */
  method Triage(a: array<Ticket>)
    requires forall i :: 0 <= i < a.Length ==> HasScoringFields(a[i])
    modifies a
    ensures forall i :: 0 <= i < a.Length ==> a[i] == Relabel(StableSorted(old(a[..]), CalculateSortKey)[i])
  {
    SortTickets(a);
    MakeStatusPriorityReadable(a);
  }
}
