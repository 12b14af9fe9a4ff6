/** The ticket record as the triage code reads it from the helpdesk's JSON. */
module Tickets {
  import opened Wrappers
  import opened Keys

  /** A JSON scalar as the code reads it from a ticket: `null`, an integer or a string. */
  datatype Value = Null | Int(n: int) | Str(s: string)

  /**
   * One key of a ticket's `custom_fields` object: missing altogether, or
   * present with a value, which may be `null`.
   */
  datatype Field = Absent | Present(value: Value) {

    /** `custom_fields.get(name)`: Python's None both for a missing key and for a null value. */
    function Get(): (r: Option<Value>)
      ensures r == None <==> this == Absent || this == Present(Null)
      ensures r.Some? ==> this == Present(r.value)
    {
      if Present? && value != Null then Some(value) else None
    }
  }

  /**
   * `custom_fields[name]`: the stored value, null included. The rankers that
   * index read it only where the key is known to be present, so the Absent
   * case (a KeyError) never reaches it.
   */
  function Indexed(f: Field): Value
  {
    if f.Present? then f.value else Null
  }

  /**
   * A ticket. `accountTier`, `environment` and `ticketType` are the entries
   * of `custom_fields`; every version indexes `ticket_type` directly, so it is
   * always there. `score` and `sortKey` are the two entries the v1.0.5 ranker adds
   * to the ticket; they are None on a ticket fresh from the helpdesk.
   */
  datatype Ticket = Ticket(
    id: int,
    departmentId: int,
    subject: string,
    priority: Value,
    status: Value,
    isEscalated: bool,
    accountTier: Field,
    environment: Field,
    ticketType: Value,
    createdAt: string,
    score: Option<int>,
    sortKey: Option<SortKey>)
}
