/**
 * The readability mapper: replaces each ticket's numeric status and priority
 * codes with fixed labels, in place, with an "Unknown ..." label for any
 * code the two tables do not list. The same code appears in all three
 * versions.
 */
module Readable {
  import opened Wrappers
  import opened Tickets

  const UnknownStatus := "Unknown Status"
  const UnknownPriority := "Unknown Priority"

  /** `status_mapping.get(status, "Unknown Status")`. */
  function StatusLabel(status: Value): (text: string)
    ensures text == UnknownStatus <==> !(status.Int? && 2 <= status.n <= 14)
  {
    match status
    case Int(2) => "Open"
    case Int(3) => "Pending"
    case Int(4) => "Resolved"
    case Int(5) => "Closed"
    case Int(6) => "New"
    case Int(7) => "Pending access"
    case Int(8) => "Waiting for RnD"
    case Int(9) => "Pending other ticket"
    case Int(10) => "Waiting for maintenance"
    case Int(11) => "Waiting for bugfix"
    case Int(12) => "Service request triage"
    case Int(13) => "Rejected"
    case Int(14) => "Duplicate"
    case _ => UnknownStatus
  }

  /** `priority_mapping.get(priority, "Unknown Priority")`. */
  function PriorityLabel(priority: Value): (text: string)
    ensures text == UnknownPriority <==> !(priority.Int? && 1 <= priority.n <= 4)
  {
    match priority
    case Int(1) => "Low"
    case Int(2) => "Medium"
    case Int(3) => "High"
    case Int(4) => "Urgent"
    case _ => UnknownPriority
  }

  /** The status table read backwards: the code a status label stands for. */
  function StatusCode(text: string): (code: Option<int>)
    ensures code.Some? ==> 2 <= code.value <= 14
  {
    if text == "Open" then Some(2)
    else if text == "Pending" then Some(3)
    else if text == "Resolved" then Some(4)
    else if text == "Closed" then Some(5)
    else if text == "New" then Some(6)
    else if text == "Pending access" then Some(7)
    else if text == "Waiting for RnD" then Some(8)
    else if text == "Pending other ticket" then Some(9)
    else if text == "Waiting for maintenance" then Some(10)
    else if text == "Waiting for bugfix" then Some(11)
    else if text == "Service request triage" then Some(12)
    else if text == "Rejected" then Some(13)
    else if text == "Duplicate" then Some(14)
    else None
  }

  /** The priority table read backwards. */
  function PriorityCode(text: string): (code: Option<int>)
    ensures code.Some? ==> 1 <= code.value <= 4
  {
    if text == "Low" then Some(1)
    else if text == "Medium" then Some(2)
    else if text == "High" then Some(3)
    else if text == "Urgent" then Some(4)
    else None
  }

  /**
   * No two status codes share a label: a listed code can be read back from
   * its label, and the fallback label reads back as no code at all.
   */
  lemma StatusLabelRoundTrip(status: Value)
    ensures status.Int? && 2 <= status.n <= 14 ==> StatusCode(StatusLabel(status)) == Some(status.n)
    ensures !(status.Int? && 2 <= status.n <= 14) ==> StatusCode(StatusLabel(status)) == None
  {
  }

  /** The same for priorities. */
  lemma PriorityLabelRoundTrip(priority: Value)
    ensures priority.Int? && 1 <= priority.n <= 4 ==> PriorityCode(PriorityLabel(priority)) == Some(priority.n)
    ensures !(priority.Int? && 1 <= priority.n <= 4) ==> PriorityCode(PriorityLabel(priority)) == None
  {
  }

  /** One ticket after relabelling: status and priority become labels, nothing else changes. */
  function Relabel(t: Ticket): (r: Ticket)
    ensures r.status == Str(StatusLabel(t.status)) && r.priority == Str(PriorityLabel(t.priority))
    ensures r.(status := t.status, priority := t.priority) == t
  {
    t.(status := Str(StatusLabel(t.status)), priority := Str(PriorityLabel(t.priority)))
  }

  /**
   * Relabelling is not idempotent: a label is not a code, so a second pass
   * turns every label into "Unknown Status" / "Unknown Priority".
   */
  lemma RelabelTwiceForgetsLabels(t: Ticket)
    ensures Relabel(Relabel(t)).status == Str(UnknownStatus)
    ensures Relabel(Relabel(t)).priority == Str(UnknownPriority)
  {
  }

  /** `make_status_priority_readable(tickets)`: relabels every ticket of the list in place. */
  method MakeStatusPriorityReadable(a: array<Ticket>)
    modifies a
    ensures forall i :: 0 <= i < a.Length ==> a[i] == Relabel(old(a[i]))
  {
    ghost var input := a[..];
    for i := 0 to a.Length
      invariant forall j :: 0 <= j < i ==> a[j] == Relabel(input[j])
      invariant forall j :: i <= j < a.Length ==> a[j] == input[j]
    {
      a[i] := Relabel(a[i]);
    }
  }
}
