/**
 * The v1.0.2 ranker: no scoring table; the list is sorted in place by the
 * tuple `(tier_value, priority, -is_escalated, type_value, created_at)`,
 * and `main` then keeps only the tickets whose status is not 4, 5, 13 or 14
 * before relabelling them.
 */
module RankerV102 {
  import opened Keys
  import opened Tickets
  import opened StableSort
  import opened Readable

  /**
   * What `sorting_key` needs: `custom_fields['account_tier']` exists (else
   * KeyError) and the priority is an integer, so that the tuples compare.
   */
  predicate Sortable(t: Ticket)
  {
    t.accountTier.Present? && t.priority.Int?
  }

  /** `tier_map.get(account_tier, 6)`: A..E rank 1..5, any other value (null included) 6. */
  function TierValue(tier: Value): (r: int)
    ensures 1 <= r <= 6
    ensures r == 6 <==> tier !in [Str("A"), Str("B"), Str("C"), Str("D"), Str("E")]
    ensures tier == Str("A") ==> r == 1
    ensures tier == Str("B") ==> r == 2
    ensures tier == Str("C") ==> r == 3
    ensures tier == Str("D") ==> r == 4
    ensures tier == Str("E") ==> r == 5
  {
    match tier
    case Str("A") => 1
    case Str("B") => 2
    case Str("C") => 3
    case Str("D") => 4
    case Str("E") => 5
    case _ => 6
  }

  /** `type_value`: 1 for an incident or problem, 2 for anything else. */
  function TypeValue(ticketType: Value): (r: int)
    ensures r == 1 <==> ticketType == Str("Incident or Problem")
    ensures r == 1 || r == 2
  {
    if ticketType == Str("Incident or Problem") then 1 else 2
  }

  /** `-int(is_escalated)`: escalated tickets get the smaller value. */
  function EscalationValue(isEscalated: bool): (r: int)
    ensures r < 0 <==> isEscalated
  {
    if isEscalated then -1 else 0
  }

  /** The nested `sorting_key(ticket)`. */
  function SortingKey(t: Ticket): (k: SortKey)
    ensures |k| == 5 && k[0].Num? && k[1].Num? && k[2].Num? && k[3].Num?
    ensures 1 <= k[0].n <= 6
    ensures Sortable(t) ==> k[1].n == t.priority.n
    ensures k[2].n == -1 <==> t.isEscalated
    ensures k[3].n == 1 <==> t.ticketType == Str("Incident or Problem")
    ensures k[4] == Text(t.createdAt)
  {
    [Num(TierValue(Indexed(t.accountTier))), Num(if t.priority.Int? then t.priority.n else 0),
     Num(EscalationValue(t.isEscalated)), Num(TypeValue(t.ticketType)), Text(t.createdAt)]
  }

  /**
   * The sort order spelled out: tier rank first, then the priority code with
   * the LOWER code first, then escalated before not, then incidents before
   * requests, then the older `created_at`.
   */
  predicate RanksBefore(t: Ticket, u: Ticket)
    requires Sortable(t) && Sortable(u)
  {
    var tt, tu := TierValue(t.accountTier.value), TierValue(u.accountTier.value);
    tt < tu || (tt == tu &&
    (t.priority.n < u.priority.n || (t.priority.n == u.priority.n &&
    ((t.isEscalated && !u.isEscalated) || (t.isEscalated == u.isEscalated &&
    (TypeValue(t.ticketType) < TypeValue(u.ticketType) || (TypeValue(t.ticketType) == TypeValue(u.ticketType) &&
    StrLe(t.createdAt, u.createdAt))))))))
  }

  /** A tuple starting with an integer compares by that integer first, then by the rest. */
  lemma NumConsOrder(m: int, a: SortKey, n: int, b: SortKey)
    ensures KeyLe([Num(m)] + a, [Num(n)] + b) <==> m < n || (m == n && KeyLe(a, b))
  {
    ConsOrder(Num(m), a, Num(n), b);
  }

  /** A one-string tuple compares like its string. */
  lemma TextOrder(c: string, d: string)
    ensures KeyLe([Text(c)], [Text(d)]) <==> StrLe(c, d)
  {
    assert [Text(c)] == [Text(c)] + [] && [Text(d)] == [Text(d)] + [];
    ConsOrder(Text(c), [], Text(d), []);
    if c == d {
      StrLeReflexive(c);
    }
  }

  /** Python's tuple comparison on the two keys is exactly that order. */
  lemma SortingKeyOrder(t: Ticket, u: Ticket)
    requires Sortable(t) && Sortable(u)
    ensures KeyLe(SortingKey(t), SortingKey(u)) <==> RanksBefore(t, u)
  {
    var a, b := SortingKey(t), SortingKey(u);
    assert a == [a[0]] + ([a[1]] + ([a[2]] + ([a[3]] + [a[4]])));
    assert b == [b[0]] + ([b[1]] + ([b[2]] + ([b[3]] + [b[4]])));
    TextOrder(t.createdAt, u.createdAt);
    NumConsOrder(a[3].n, [a[4]], b[3].n, [b[4]]);
    NumConsOrder(a[2].n, [a[3]] + [a[4]], b[2].n, [b[3]] + [b[4]]);
    NumConsOrder(a[1].n, [a[2]] + ([a[3]] + [a[4]]), b[1].n, [b[2]] + ([b[3]] + [b[4]]));
    NumConsOrder(a[0].n, [a[1]] + ([a[2]] + ([a[3]] + [a[4]])), b[0].n, [b[1]] + ([b[2]] + ([b[3]] + [b[4]])));
  }

  /** The environment plays no part in the order. */
  lemma EnvironmentIgnored(t: Ticket, e: Field)
    ensures SortingKey(t.(environment := e)) == SortingKey(t)
  {
  }

  /** `tickets.sort(key=sorting_key)`: a stable sort, in place. */
  method SortTickets(a: array<Ticket>)
    requires forall i :: 0 <= i < a.Length ==> Sortable(a[i])
    modifies a
    ensures a[..] == StableSorted(old(a[..]), SortingKey)
  {
    InsertionSortBy(a, SortingKey);
  }

  /**
   * The sorted list is a permutation of the input whose neighbours, and indeed
   * any earlier/later pair, are in the order RanksBefore.
   */
  lemma SortedOrder(s: seq<Ticket>, i: int, j: int)
    requires forall k :: 0 <= k < |s| ==> Sortable(s[k])
    requires 0 <= i < j < |s|
    ensures multiset(StableSorted(s, SortingKey)) == multiset(s)
    ensures Sortable(StableSorted(s, SortingKey)[i]) && Sortable(StableSorted(s, SortingKey)[j])
    ensures RanksBefore(StableSorted(s, SortingKey)[i], StableSorted(s, SortingKey)[j])
  {
    var r := StableSorted(s, SortingKey);
    StableSortedIsSorted(s, SortingKey);
    StableSortedPermutes(s, SortingKey);
    assert r[i] in multiset(s) && r[j] in multiset(s);
    SortingKeyOrder(r[i], r[j]);
  }

  /** Tickets with equal keys keep their input order. */
  lemma SortedKeepsTies(s: seq<Ticket>, k: SortKey)
    ensures Ties(StableSorted(s, SortingKey), SortingKey, k) == Ties(s, SortingKey, k)
  {
    StableSortedKeepsTies(s, SortingKey, k);
  }

  /** An unknown or null tier ranks after every known tier, whatever else the tickets hold. */
  lemma UnknownTierSortsLast(s: seq<Ticket>, i: int, j: int)
    requires forall k :: 0 <= k < |s| ==> Sortable(s[k])
    requires 0 <= i < |s| && 0 <= j < |s|
    requires TierValue(Indexed(StableSorted(s, SortingKey)[i].accountTier)) == 6
    requires Indexed(StableSorted(s, SortingKey)[j].accountTier) in [Str("A"), Str("B"), Str("C"), Str("D"), Str("E")]
    ensures j < i
  {
    var r := StableSorted(s, SortingKey);
    StableSortedIsSorted(s, SortingKey);
    StableSortedPermutes(s, SortingKey);
    assert r[i] in multiset(s) && r[j] in multiset(s);
    SortingKeyOrder(r[j], r[i]);
    SortingKeyOrder(r[i], r[j]);
    SmallerKeyComesFirst(r, SortingKey, j, i);
  }

  /** Within one tier and priority, an escalated ticket ranks before a non-escalated one. */
  lemma EscalatedFirstWithinTierAndPriority(s: seq<Ticket>, i: int, j: int)
    requires forall k :: 0 <= k < |s| ==> Sortable(s[k])
    requires 0 <= i < |s| && 0 <= j < |s|
    requires var r := StableSorted(s, SortingKey);
      r[i].isEscalated && !r[j].isEscalated
      && TierValue(Indexed(r[i].accountTier)) == TierValue(Indexed(r[j].accountTier))
      && r[i].priority == r[j].priority
    ensures i < j
  {
    var r := StableSorted(s, SortingKey);
    StableSortedIsSorted(s, SortingKey);
    StableSortedPermutes(s, SortingKey);
    assert r[i] in multiset(s) && r[j] in multiset(s);
    SortingKeyOrder(r[j], r[i]);
    SortingKeyOrder(r[i], r[j]);
    SmallerKeyComesFirst(r, SortingKey, i, j);
  }

  /** Status codes `main` drops after sorting: resolved, closed, rejected, duplicate. */
  predicate IsClosedStatus(status: Value)
    ensures IsClosedStatus(status) <==> StatusLabel(status) in ["Resolved", "Closed", "Rejected", "Duplicate"]
  {
    status in [Int(4), Int(5), Int(13), Int(14)]
  }

  /** `[ticket for ticket in sorted_tickets if ticket['status'] not in [4, 5, 13, 14]]`. */
  function OpenTickets(s: seq<Ticket>): (r: seq<Ticket>)
    ensures |r| <= |s|
    ensures forall i :: 0 <= i < |r| ==> !IsClosedStatus(r[i].status)
  {
    if s == [] then []
    else OpenTickets(s[..|s| - 1]) + (if IsClosedStatus(s[|s| - 1].status) then [] else [s[|s| - 1]])
  }

  /** The comprehension distributes over concatenation. */
  lemma {:induction false} OpenTicketsAppend(s: seq<Ticket>, u: seq<Ticket>)
    ensures OpenTickets(s + u) == OpenTickets(s) + OpenTickets(u)
    decreases |u|
  {
    if u == [] {
      assert s + u == s;
    } else {
      assert (s + u)[..|s + u| - 1] == s + u[..|u| - 1];
      OpenTicketsAppend(s, u[..|u| - 1]);
    }
  }

  /** The filter keeps exactly the tickets whose status is not closed, as many times as they occur. */
  lemma {:induction false} OpenTicketsExact(s: seq<Ticket>, t: Ticket)
    ensures multiset(OpenTickets(s))[t] == if IsClosedStatus(t.status) then 0 else multiset(s)[t]
  {
    if s != [] {
      OpenTicketsExact(s[..|s| - 1], t);
      assert s == s[..|s| - 1] + [s[|s| - 1]];
      assert multiset(s) == multiset(s[..|s| - 1]) + multiset{s[|s| - 1]};
    }
  }

  /** A ticket survives the filter exactly when it was in the list and its status is not closed. */
  lemma OpenTicketsMembership(s: seq<Ticket>, t: Ticket)
    ensures t in OpenTickets(s) <==> t in s && !IsClosedStatus(t.status)
  {
    OpenTicketsExact(s, t);
    assert t in OpenTickets(s) <==> t in multiset(OpenTickets(s));
    assert t in s <==> t in multiset(s);
  }

  /**
   * The filter keeps relative order: the kept tickets come out as a
   * subsequence, so a list sorted by any key stays sorted.
   */
  lemma {:induction false} OpenTicketsKeepOrder(s: seq<Ticket>, key: Ticket -> SortKey)
    requires SortedBy(s, key)
    ensures SortedBy(OpenTickets(s), key)
  {
    if s != [] {
      var init := s[..|s| - 1];
      assert SortedBy(init, key) by {
        forall i, j | 0 <= i < j < |init|
          ensures KeyLe(key(init[i]), key(init[j]))
        {
          assert init[i] == s[i] && init[j] == s[j];
        }
      }
      OpenTicketsKeepOrder(init, key);
      var f := OpenTickets(init);
      if !IsClosedStatus(s[|s| - 1].status) {
        var r := f + [s[|s| - 1]];
        forall i | 0 <= i < |f|
          ensures KeyLe(key(r[i]), key(r[|r| - 1]))
        {
          OpenTicketsMembership(init, f[i]);
          var k :| 0 <= k < |init| && init[k] == f[i];
          assert s[k] == f[i];
        }
      }
    }
  }

  /** Filtering twice is filtering once. */
  lemma {:induction false} OpenTicketsIdempotent(s: seq<Ticket>)
    ensures OpenTickets(OpenTickets(s)) == OpenTickets(s)
  {
    if s != [] {
      OpenTicketsIdempotent(s[..|s| - 1]);
      var last := s[|s| - 1];
      var kept := if IsClosedStatus(last.status) then [] else [last];
      OpenTicketsAppend(OpenTickets(s[..|s| - 1]), kept);
      if kept != [] {
        assert kept[..0] == [];
      }
    }
  }

  /**
   * `main`: sort in place, filter into a new list, relabel the new list. The
   * result holds the open tickets in sorted order, relabelled.
   */
  method Triage(a: array<Ticket>) returns (b: array<Ticket>)
    requires forall i :: 0 <= i < a.Length ==> Sortable(a[i])
    modifies a
    ensures fresh(b)
    ensures a[..] == StableSorted(old(a[..]), SortingKey)
    ensures |OpenTickets(a[..])| == b.Length
    ensures forall i :: 0 <= i < b.Length ==> b[i] == Relabel(OpenTickets(a[..])[i])
  {
    SortTickets(a);
    var open := OpenTickets(a[..]);
    b := new Ticket[|open|](i requires 0 <= i < |open| => open[i]);
    MakeStatusPriorityReadable(b);
  }
}
