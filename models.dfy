/** The `subscribers` table (App/models.py). Rows are kept in ascending `id`
    order, the order in which the database hands out identifiers. */
module Models {
  import opened Wrappers

  /** A calendar date. */
  datatype Date = Date(year: int, month: int, day: int)

  /** One row. Latitude and longitude are carried without arithmetic;
      `createdAt` and `lastNotifiedAt` are UTC instants in microseconds. */
  datatype Subscriber = Subscriber(
    id: nat,
    phone: string,
    country: string,
    postalCode: string,
    locationName: Option<string>,
    lat: real,
    lon: real,
    timezone: Option<string>,
    lastDailySentLocalDate: Option<Date>,
    isActive: bool,
    unsubscribeToken: string,
    createdAt: int,
    lastNotifiedAt: Option<int>)

  /** The table's constraints: the primary key in ascending order, and the
      `unique` columns `phone` and `unsubscribe_token`. */
  predicate TableInvariant(rows: seq<Subscriber>) {
    && (forall i, j :: 0 <= i < j < |rows| ==> rows[i].id < rows[j].id)
    && (forall i, j :: 0 <= i < j < |rows| ==> rows[i].phone != rows[j].phone)
    && (forall i, j :: 0 <= i < j < |rows| ==> rows[i].unsubscribeToken != rows[j].unsubscribeToken)
  }

  /** The position of a row registered under `phone`, if any; phones are
      unique in the table, so there is at most one. */
  function FindByPhone(rows: seq<Subscriber>, phone: string): (r: Option<nat>)
    ensures r.Some? ==> r.value < |rows| && rows[r.value].phone == phone
    ensures r.None? <==> forall i :: 0 <= i < |rows| ==> rows[i].phone != phone
  {
    if rows == [] then None
    else if rows[|rows| - 1].phone == phone then
      var earlier := FindByPhone(rows[..|rows| - 1], phone);
      if earlier.Some? then earlier else Some(|rows| - 1)
    else FindByPhone(rows[..|rows| - 1], phone)
  }

  /** The position of a row holding the unsubscribe token `token`, if any;
      tokens are unique in the table, so there is at most one. */
  function FindByToken(rows: seq<Subscriber>, token: string): (r: Option<nat>)
    ensures r.Some? ==> r.value < |rows| && rows[r.value].unsubscribeToken == token
    ensures r.None? <==> forall i :: 0 <= i < |rows| ==> rows[i].unsubscribeToken != token
  {
    if rows == [] then None
    else if rows[|rows| - 1].unsubscribeToken == token then
      var earlier := FindByToken(rows[..|rows| - 1], token);
      if earlier.Some? then earlier else Some(|rows| - 1)
    else FindByToken(rows[..|rows| - 1], token)
  }

  /** The identifier the database gives the next inserted row. */
  function NextId(rows: seq<Subscriber>): (id: nat)
    requires TableInvariant(rows)
    ensures forall i :: 0 <= i < |rows| ==> rows[i].id < id
  {
    if rows == [] then 1 else rows[|rows| - 1].id + 1
  }

  /** The table, updated in place by registration, unsubscription and the
      daily job. */
  class SubscriberTable {
    var rows: seq<Subscriber>

    ghost predicate Valid()
      reads this
    {
      TableInvariant(rows)
    }

    constructor ()
      ensures Valid() && rows == []
    {
      rows := [];
    }
  }
}
