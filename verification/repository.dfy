/** The store (repository/shop.go) over an in-memory table per entity
    instead of GORM and MySQL. Rows are kept in insertion order; the
    primary key is an auto-increment counter starting at 1. Every call
    receives `fault`, the storage engine's own error if it fails. */
module Repository {
  import opened Wrappers
  import opened Entity

  // ---------------------------------------------------------------------
  // Table primitives: lookup by primary key and conjunctive filtering.
  // ---------------------------------------------------------------------

  /** The position of the first row whose key is `id` ("first or not found"). */
  function Find<T>(s: seq<T>, key: T -> int, id: int): (r: Option<nat>)
    ensures r.Some? ==> r.value < |s| && key(s[r.value]) == id
    ensures r.Some? ==> forall i :: 0 <= i < r.value ==> key(s[i]) != id
    ensures r.None? <==> forall i :: 0 <= i < |s| ==> key(s[i]) != id
  {
    if |s| == 0 then None
    else if key(s[0]) == id then Some(0)
    else match Find(s[1..], key, id)
      case None => None
      case Some(k) => Some(k + 1)
  }

  /** No two rows share a key: what a primary key guarantees. */
  ghost predicate UniqueKeys<T>(s: seq<T>, key: T -> int)
  {
    forall i, j :: 0 <= i < |s| && 0 <= j < |s| && key(s[i]) == key(s[j]) ==> i == j
  }

  /** Keys grow in insertion order and lie in [1, next): what the
      auto-increment counter produces. */
  ghost predicate AutoIncremented<T>(s: seq<T>, key: T -> int, next: int)
  {
    && 1 <= next
    && (forall i, j :: 0 <= i < j < |s| ==> key(s[i]) < key(s[j]))
    && (forall i :: 0 <= i < |s| ==> 1 <= key(s[i]) < next)
  }

  /** Rewriting non-key fields keeps the key discipline. */
  lemma AutoIncrementedSameKeys<T>(a: seq<T>, b: seq<T>, key: T -> int, next: int)
    requires |a| == |b| && forall i :: 0 <= i < |a| ==> key(b[i]) == key(a[i])
    requires AutoIncremented(a, key, next)
    ensures AutoIncremented(b, key, next)
  {
  }

  /** The rows satisfying `p`, in table order. */
  function Filter<T(!new)>(s: seq<T>, p: T -> bool): (r: seq<T>)
    ensures |r| <= |s|
    ensures forall x :: x in r <==> x in s && p(x)
  {
    if |s| == 0 then [] else (if p(s[0]) then [s[0]] else []) + Filter(s[1..], p)
  }

  lemma {:induction false} FilterAppend<T(!new)>(a: seq<T>, b: seq<T>, p: T -> bool)
    ensures Filter(a + b, p) == Filter(a, p) + Filter(b, p)
  {
    if |a| > 0 {
      assert (a + b)[1..] == a[1..] + b;
      FilterAppend(a[1..], b, p);
    } else {
      assert a + b == b;
    }
  }

  /** A filter every row passes returns the whole table, order included. */
  lemma {:induction false} FilterAll<T(!new)>(s: seq<T>, p: T -> bool)
    requires forall x :: x in s ==> p(x)
    ensures Filter(s, p) == s
  {
    if |s| > 0 {
      assert forall x :: x in s[1..] ==> x in s;
      FilterAll(s[1..], p);
    }
  }

  // ---------------------------------------------------------------------
  // The search filters.
  // ---------------------------------------------------------------------

  /** Status equality when a status is given, strictly after `init` when it
      is set, strictly before `end` when it is set (0 = unset). */
  predicate Matches(rowStatus: string, createdAt: int, status: string, init: int, end: int)
  {
    && (status != "" ==> rowStatus == status)
    && (init != 0 ==> createdAt > init)
    && (end != 0 ==> createdAt < end)
  }

  predicate RequestMatches(r: Request, storeId: int, status: string, init: int, end: int)
  {
    r.storeId == storeId && Matches(r.status, r.createdAt, status, init, end)
  }

  /** The rows SearchRequest returns. */
  function SelectRequests(rs: seq<Request>, storeId: int, status: string, init: int, end: int): (r: seq<Request>)
    ensures forall x :: x in r <==>
      && x in rs
      && x.storeId == storeId
      && (status != "" ==> x.status == status)
      && (init != 0 ==> x.createdAt > init)
      && (end != 0 ==> x.createdAt < end)
  {
    Filter(rs, (x: Request) => RequestMatches(x, storeId, status, init, end))
  }

  /** The rows GetPayments returns. */
  function SelectStorePayments(ps: seq<Payment>, storeId: int): (r: seq<Payment>)
    ensures forall x :: x in r <==> x in ps && x.storeId == storeId
  {
    Filter(ps, (x: Payment) => x.storeId == storeId)
  }

  /** The rows SearchPayment returns: no store restriction. */
  function SelectPayments(ps: seq<Payment>, status: string, init: int, end: int): (r: seq<Payment>)
    ensures forall x :: x in r <==>
      && x in ps
      && (status != "" ==> x.status == status)
      && (init != 0 ==> x.createdAt > init)
      && (end != 0 ==> x.createdAt < end)
  {
    Filter(ps, (x: Payment) => Matches(x.status, x.createdAt, status, init, end))
  }

  /** With no status and no dates, SearchPayment lists every payment in order. */
  lemma SelectPaymentsUnfiltered(ps: seq<Payment>)
    ensures SelectPayments(ps, "", 0, 0) == ps
  {
    FilterAll(ps, (x: Payment) => Matches(x.status, x.createdAt, "", 0, 0));
  }

  /** A row inserted after a search shows up at the end of the same search
      exactly when it matches; earlier results are unaffected. */
  lemma SelectRequestsAfterInsert(rs: seq<Request>, row: Request, storeId: int, status: string, init: int, end: int)
    ensures SelectRequests(rs + [row], storeId, status, init, end) ==
      SelectRequests(rs, storeId, status, init, end) +
      (if RequestMatches(row, storeId, status, init, end) then [row] else [])
  {
    var p := (x: Request) => RequestMatches(x, storeId, status, init, end);
    FilterAppend(rs, [row], p);
    assert [row][1..] == [];
  }

  // ---------------------------------------------------------------------
  // The writes, as functions of the table.
  // ---------------------------------------------------------------------

  /** The row `db.Create` stores: the assigned key, and the current time as
      `createdAt` when the record carries none. */
  function NewRequestRow(r: Request, id: int, now: int): (row: Request)
    ensures row.id == id
    ensures r.createdAt != 0 ==> row.createdAt == r.createdAt
    ensures r.createdAt == 0 ==> row.createdAt == now
    ensures row.(id := r.id, createdAt := r.createdAt) == r
  {
    r.(id := id, createdAt := if r.createdAt == 0 then now else r.createdAt)
  }

  function NewPaymentRow(p: Payment, id: int, now: int): (row: Payment)
    ensures row.id == id
    ensures p.createdAt != 0 ==> row.createdAt == p.createdAt
    ensures p.createdAt == 0 ==> row.createdAt == now
    ensures row.(id := p.id, createdAt := p.createdAt) == p
  {
    p.(id := id, createdAt := if p.createdAt == 0 then now else p.createdAt)
  }

  /** UpdateRequest's effect: the row with key `id` takes Status and Track
      from `input`; every other field and every other row is unchanged.
      None when no row has that key. */
  function UpdateRequestRows(rs: seq<Request>, id: int, input: Request): (r: Option<seq<Request>>)
    requires UniqueKeys(rs, RequestKey)
    ensures r.None? <==> forall i :: 0 <= i < |rs| ==> rs[i].id != id
    ensures r.Some? ==> |r.value| == |rs| && UniqueKeys(r.value, RequestKey)
    ensures r.Some? ==> forall i :: 0 <= i < |rs| && rs[i].id != id ==> r.value[i] == rs[i]
    ensures r.Some? ==> forall i :: 0 <= i < |rs| && rs[i].id == id ==>
      && r.value[i].status == input.status
      && r.value[i].track == input.track
      && r.value[i] == rs[i].(status := r.value[i].status, track := r.value[i].track)
  {
    match Find(rs, RequestKey, id)
    case None => None
    case Some(k) => Some(rs[k := rs[k].(status := input.status, track := input.track)])
  }

  /** UpdatePayment's effect: only Status changes, on the row with key `id`. */
  function UpdatePaymentRows(ps: seq<Payment>, id: int, input: Payment): (r: Option<seq<Payment>>)
    requires UniqueKeys(ps, PaymentKey)
    ensures r.None? <==> forall i :: 0 <= i < |ps| ==> ps[i].id != id
    ensures r.Some? ==> |r.value| == |ps| && UniqueKeys(r.value, PaymentKey)
    ensures r.Some? ==> forall i :: 0 <= i < |ps| && ps[i].id != id ==> r.value[i] == ps[i]
    ensures r.Some? ==> forall i :: 0 <= i < |ps| && ps[i].id == id ==>
      && r.value[i].status == input.status
      && r.value[i] == ps[i].(status := r.value[i].status)
  {
    match Find(ps, PaymentKey, id)
    case None => None
    case Some(k) => Some(ps[k := ps[k].(status := input.status)])
  }

  // ---------------------------------------------------------------------
  // The lookup as GORM performs it: `First` on a record whose primary key
  // is zero adds no key condition and loads the lowest-keyed row. The
  // store above looks up by key instead, which is what the update
  // operations evidently intend.
  // ---------------------------------------------------------------------

  /** The position of a row with the lowest key. */
  function LowestKey<T>(s: seq<T>, key: T -> int): (r: nat)
    requires |s| > 0
    ensures r < |s| && forall i :: 0 <= i < |s| ==> key(s[r]) <= key(s[i])
  {
    if |s| == 1 then 0
    else
      var k := LowestKey(s[1..], key) + 1;
      if key(s[0]) <= key(s[k]) then 0 else k
  }

  /** `db.First(&Record{ID: id})` as written. */
  function FirstAsWritten<T>(s: seq<T>, key: T -> int, id: int): (r: Option<nat>)
    ensures id != 0 ==> r == Find(s, key, id)
    ensures id == 0 ==> (r.Some? <==> |s| > 0)
    ensures id == 0 && r.Some? ==> r.value < |s| && forall i :: 0 <= i < |s| ==> key(s[r.value]) <= key(s[i])
  {
    if id != 0 then Find(s, key, id)
    else if |s| == 0 then None
    else Some(LowestKey(s, key))
  }

  /** UpdateRequest as written: load with First, overwrite Status and Track, save. */
  function UpdateRequestRowsAsWritten(rs: seq<Request>, id: int, input: Request): (r: Option<seq<Request>>)
    ensures r.None? <==> (if id == 0 then |rs| == 0 else forall i :: 0 <= i < |rs| ==> rs[i].id != id)
    ensures r.Some? ==> |r.value| == |rs|
    ensures r.Some? ==> exists k :: 0 <= k < |rs| &&
                          r.value == rs[k := rs[k].(status := input.status, track := input.track)]
  {
    match FirstAsWritten(rs, RequestKey, id)
    case None => None
    case Some(k) => Some(rs[k := rs[k].(status := input.status, track := input.track)])
  }

  /** UpdatePayment as written: load with First, overwrite Status, save. */
  function UpdatePaymentRowsAsWritten(ps: seq<Payment>, id: int, input: Payment): (r: Option<seq<Payment>>)
    ensures r.None? <==> (if id == 0 then |ps| == 0 else forall i :: 0 <= i < |ps| ==> ps[i].id != id)
    ensures r.Some? ==> |r.value| == |ps|
    ensures r.Some? ==> exists k :: 0 <= k < |ps| &&
                          r.value == ps[k := ps[k].(status := input.status)]
  {
    match FirstAsWritten(ps, PaymentKey, id)
    case None => None
    case Some(k) => Some(ps[k := ps[k].(status := input.status)])
  }

  /** For every key but zero, UpdateRequest as written and the lookup by
      key agree. */
  lemma UpdateRequestAsWrittenNonZero(rs: seq<Request>, id: int, input: Request)
    requires UniqueKeys(rs, RequestKey) && id != 0
    ensures UpdateRequestRowsAsWritten(rs, id, input) == UpdateRequestRows(rs, id, input)
  {
  }

  /** For every key but zero, UpdatePayment as written and the lookup by
      key agree. */
  lemma UpdatePaymentAsWrittenNonZero(ps: seq<Payment>, id: int, input: Payment)
    requires UniqueKeys(ps, PaymentKey) && id != 0
    ensures UpdatePaymentRowsAsWritten(ps, id, input) == UpdatePaymentRows(ps, id, input)
  {
  }

  /** Updating request "0" overwrites the first request, whose key is not 0,
      where the lookup by key reports that no request has key 0. */
  lemma UpdateRequestZeroKey(rs: seq<Request>, next: int, input: Request)
    requires AutoIncremented(rs, RequestKey, next) && |rs| > 0
    ensures rs[0].id != 0
    ensures UpdateRequestRowsAsWritten(rs, 0, input) ==
      Some(rs[0 := rs[0].(status := input.status, track := input.track)])
    ensures UpdateRequestRows(rs, 0, input) == None
  {
  }

  /** Updating payment "0" overwrites the first payment's Status, where the
      lookup by key reports that no payment has key 0. */
  lemma UpdatePaymentZeroKey(ps: seq<Payment>, next: int, input: Payment)
    requires AutoIncremented(ps, PaymentKey, next) && |ps| > 0
    ensures ps[0].id != 0
    ensures UpdatePaymentRowsAsWritten(ps, 0, input) == Some(ps[0 := ps[0].(status := input.status)])
    ensures UpdatePaymentRows(ps, 0, input) == None
  {
  }

  /** Creating a request and then updating it by its new key sets Status
      and Track and keeps Price, Tax and every other field as created. */
  lemma UpdateAfterCreate(rs: seq<Request>, input: Request, id: int, now: int, change: Request)
    requires UniqueKeys(rs, RequestKey)
    requires forall i :: 0 <= i < |rs| ==> rs[i].id != id
    ensures UniqueKeys(rs + [NewRequestRow(input, id, now)], RequestKey)
    ensures UpdateRequestRows(rs + [NewRequestRow(input, id, now)], id, change) ==
      Some(rs + [NewRequestRow(input, id, now).(status := change.status, track := change.track)])
  {
    var t := rs + [NewRequestRow(input, id, now)];
    assert forall i :: 0 <= i < |rs| ==> t[i] == rs[i] && RequestKey(t[i]) != id;
    assert RequestKey(t[|rs|]) == id;
    var k := Find(t, RequestKey, id);
    assert k == Some(|rs|);
    var row := NewRequestRow(input, id, now);
    assert t[|rs| := row.(status := change.status, track := change.track)] ==
      rs + [row.(status := change.status, track := change.track)];
  }

  // ---------------------------------------------------------------------
  // The store object.
  // ---------------------------------------------------------------------

  class Shop {
    var requests: seq<Request>
    var payments: seq<Payment>
    var nextRequestId: int
    var nextPaymentId: int

    ghost predicate Valid()
      reads this
      ensures Valid() ==> UniqueKeys(requests, RequestKey) && UniqueKeys(payments, PaymentKey)
    {
      AutoIncremented(requests, RequestKey, nextRequestId) &&
      AutoIncremented(payments, PaymentKey, nextPaymentId)
    }

    constructor ()
      ensures Valid()
      ensures requests == [] && payments == []
      ensures nextRequestId == 1 && nextPaymentId == 1
    {
      requests, payments := [], [];
      nextRequestId, nextPaymentId := 1, 1;
    }

    /** Inserts one request under a fresh key and returns that key. */
    method CreateRequest(request: Request, now: int, fault: Option<string>) returns (r: Result<int>)
      requires Valid()
      modifies this
      ensures Valid()
      ensures payments == old(payments) && nextPaymentId == old(nextPaymentId)
      ensures fault.Some? ==> r == Err(StoreFailure(fault.value))
      ensures fault.Some? ==> requests == old(requests) && nextRequestId == old(nextRequestId)
      ensures fault.None? ==> r == Ok(old(nextRequestId))
      ensures fault.None? ==> forall i :: 0 <= i < |old(requests)| ==> old(requests)[i].id != r.value
      ensures fault.None? ==> requests == old(requests) + [NewRequestRow(request, r.value, now)]
      ensures fault.None? ==> nextRequestId == old(nextRequestId) + 1
    {
      if fault.Some? {
        return Err(StoreFailure(fault.value));
      }
      var id := nextRequestId;
      requests := requests + [NewRequestRow(request, id, now)];
      nextRequestId := id + 1;
      r := Ok(id);
    }

    /** Loads the request with key `id`, overwrites Status and Track, saves it. */
    method UpdateRequest(id: int, request: Request, fault: Option<string>) returns (r: Result<()>)
      requires Valid()
      modifies this
      ensures Valid()
      ensures payments == old(payments)
      ensures nextRequestId == old(nextRequestId) && nextPaymentId == old(nextPaymentId)
      ensures fault.Some? ==> r == Err(StoreFailure(fault.value)) && requests == old(requests)
      ensures fault.None? ==> match UpdateRequestRows(old(requests), id, request)
        case None => r == Err(NotFound) && requests == old(requests)
        case Some(rows) => r == Ok(()) && requests == rows
    {
      if fault.Some? {
        return Err(StoreFailure(fault.value));
      }
      var rows := UpdateRequestRows(requests, id, request);
      if rows.None? {
        return Err(NotFound);
      }
      assert forall i :: 0 <= i < |requests| ==> rows.value[i].id == requests[i].id;
      AutoIncrementedSameKeys(requests, rows.value, RequestKey, nextRequestId);
      requests := rows.value;
      r := Ok(());
    }

    /** The requests of store `id` that pass the optional filters. */
    method SearchRequest(id: int, status: string, init: int, end: int, fault: Option<string>)
      returns (r: Result<seq<Request>>)
      ensures fault.Some? ==> r == Err(StoreFailure(fault.value))
      ensures fault.None? ==> r == Ok(SelectRequests(requests, id, status, init, end))
    {
      if fault.Some? {
        return Err(StoreFailure(fault.value));
      }
      r := Ok(SelectRequests(requests, id, status, init, end));
    }

    /** Inserts one payment under a fresh key and returns that key. */
    method CreatePayment(payment: Payment, now: int, fault: Option<string>) returns (r: Result<int>)
      requires Valid()
      modifies this
      ensures Valid()
      ensures requests == old(requests) && nextRequestId == old(nextRequestId)
      ensures fault.Some? ==> r == Err(StoreFailure(fault.value))
      ensures fault.Some? ==> payments == old(payments) && nextPaymentId == old(nextPaymentId)
      ensures fault.None? ==> r == Ok(old(nextPaymentId))
      ensures fault.None? ==> forall i :: 0 <= i < |old(payments)| ==> old(payments)[i].id != r.value
      ensures fault.None? ==> payments == old(payments) + [NewPaymentRow(payment, r.value, now)]
      ensures fault.None? ==> nextPaymentId == old(nextPaymentId) + 1
    {
      if fault.Some? {
        return Err(StoreFailure(fault.value));
      }
      var id := nextPaymentId;
      payments := payments + [NewPaymentRow(payment, id, now)];
      nextPaymentId := id + 1;
      r := Ok(id);
    }

    /** Loads the payment with key `id`, overwrites Status, saves it. */
    method UpdatePayment(id: int, payment: Payment, fault: Option<string>) returns (r: Result<()>)
      requires Valid()
      modifies this
      ensures Valid()
      ensures requests == old(requests)
      ensures nextRequestId == old(nextRequestId) && nextPaymentId == old(nextPaymentId)
      ensures fault.Some? ==> r == Err(StoreFailure(fault.value)) && payments == old(payments)
      ensures fault.None? ==> match UpdatePaymentRows(old(payments), id, payment)
        case None => r == Err(NotFound) && payments == old(payments)
        case Some(rows) => r == Ok(()) && payments == rows
    {
      if fault.Some? {
        return Err(StoreFailure(fault.value));
      }
      var rows := UpdatePaymentRows(payments, id, payment);
      if rows.None? {
        return Err(NotFound);
      }
      assert forall i :: 0 <= i < |payments| ==> rows.value[i].id == payments[i].id;
      AutoIncrementedSameKeys(payments, rows.value, PaymentKey, nextPaymentId);
      payments := rows.value;
      r := Ok(());
    }

    /** Every payment of store `id`. */
    method GetPayments(id: int, fault: Option<string>) returns (r: Result<seq<Payment>>)
      ensures fault.Some? ==> r == Err(StoreFailure(fault.value))
      ensures fault.None? ==> r == Ok(SelectStorePayments(payments, id))
    {
      if fault.Some? {
        return Err(StoreFailure(fault.value));
      }
      r := Ok(SelectStorePayments(payments, id));
    }

    /** The payments, of any store, that pass the optional filters. */
    method SearchPayment(status: string, init: int, end: int, fault: Option<string>)
      returns (r: Result<seq<Payment>>)
      ensures fault.Some? ==> r == Err(StoreFailure(fault.value))
      ensures fault.None? ==> r == Ok(SelectPayments(payments, status, init, end))
    {
      if fault.Some? {
        return Err(StoreFailure(fault.value));
      }
      r := Ok(SelectPayments(payments, status, init, end));
    }
  }
}
