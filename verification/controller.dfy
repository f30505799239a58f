/** The orchestrator (controller/shop.go). It holds no data of its own: it
    consults the identity service, the payment service and the store, in a
    fixed order, and stops at the first failure.

    The collaborators are parameters: `oracle` answers GetUser for an
    identity (is it an administrator?), `paymentService` answers
    CreatePayment for a list of line items with a payment id, `parseTime`
    is RFC 3339 parsing (None on a malformed text), `now` is the store's
    clock and `fault`/`faults` are the storage engine's errors. The caller's
    identity, read from a trusted header in the Go code, is the explicit
    parameter `caller`. A ghost trace records every collaborator call in
    the order it is made. */
module Controller {
  import opened Wrappers
  import opened Entity
  import opened Strconv
  import Repository

  /** One priced line of the payment request (paymentpb.Item). */
  datatype LineItem = LineItem(title: string, quantity: int, unitPrice: int)

  /** A call to a collaborator, as recorded in the trace. */
  datatype Call =
    | GetUser(email: string)
    | PaymentService(items: seq<LineItem>)
    | CreateRequestCall(request: Request)
    | UpdateRequestCall(id: int, request: Request)
    | SearchRequestCall(storeId: int, status: string, init: int, end: int)
    | CreatePaymentCall(payment: Payment)
    | UpdatePaymentCall(id: int, payment: Payment)
    | GetPaymentsCall(storeId: int)
    | SearchPaymentCall(status: string, init: int, end: int)

  // ---------------------------------------------------------------------
  // Order creation.
  // ---------------------------------------------------------------------

  /** The payment request for an order: one line per item, in order. */
  function LineItems(items: seq<Request>): (r: seq<LineItem>)
    ensures |r| == |items|
    ensures forall k :: 0 <= k < |items| ==>
      r[k].title == items[k].title && r[k].quantity == 1 && r[k].unitPrice == items[k].price + items[k].tax
  {
    seq(|items|, k requires 0 <= k < |items| => LineItem(items[k].title, 1, items[k].price + items[k].tax))
  }

  /** The loop that prices the order. */
  method BuildLineItems(items: seq<Request>) returns (lines: seq<LineItem>)
    ensures lines == LineItems(items)
  {
    lines := [];
    for i := 0 to |items|
      invariant |lines| == i
      invariant forall k :: 0 <= k < i ==> lines[k] == LineItems(items)[k]
    {
      lines := lines + [LineItem(items[i].title, 1, items[i].price + items[i].tax)];
    }
  }

  /** An order item as it is handed to the store. */
  function Stamp(item: Request, paymentId: string): (r: Request)
  {
    item.(paymentId := paymentId, status := "preparing")
  }

  /** The storage engine's answer to the k-th insertion (none given: success). */
  function FaultAt(faults: seq<Option<string>>, k: nat): (fault: Option<string>)
  {
    if k < |faults| then faults[k] else None
  }

  /** How many of the first n insertions succeed before the first failure. */
  function PersistedCount(faults: seq<Option<string>>, n: nat): (k: nat)
    ensures k <= n
    ensures forall j :: 0 <= j < k ==> FaultAt(faults, j).None?
    ensures k < n ==> FaultAt(faults, k).Some?
  {
    if n == 0 then 0
    else
      var k := PersistedCount(faults, n - 1);
      if k < n - 1 || FaultAt(faults, n - 1).Some? then k else n
  }

  /** The rows the first k insertions add, keys counted from firstId. */
  function PersistedRows(items: seq<Request>, paymentId: string, firstId: int, now: int, k: nat): (r: seq<Request>)
    requires k <= |items|
    ensures |r| == k
  {
    seq(k, j requires 0 <= j < k => Repository.NewRequestRow(Stamp(items[j], paymentId), firstId + j, now))
  }

  /** Each stored row is its order item, stamped with the one payment id and
      status "preparing", under its new key. */
  lemma PersistedRowsStamped(items: seq<Request>, paymentId: string, firstId: int, now: int, k: nat)
    requires k <= |items|
    ensures forall j :: 0 <= j < k ==>
      var row := PersistedRows(items, paymentId, firstId, now, k)[j];
      && row.paymentId == paymentId
      && row.status == "preparing"
      && row.id == firstId + j
      && row == items[j].(id := row.id, paymentId := paymentId, status := "preparing", createdAt := row.createdAt)
      && (items[j].createdAt != 0 ==> row.createdAt == items[j].createdAt)
      && (items[j].createdAt == 0 ==> row.createdAt == now)
  {
  }

  /** The insertions attempted for the first m items. */
  function Attempts(items: seq<Request>, paymentId: string, m: nat): (calls: seq<Call>)
    requires m <= |items|
  {
    seq(m, j requires 0 <= j < m => CreateRequestCall(Stamp(items[j], paymentId)))
  }

  lemma PersistedRowsNext(items: seq<Request>, paymentId: string, firstId: int, now: int, k: nat)
    requires k < |items|
    ensures PersistedRows(items, paymentId, firstId, now, k + 1) ==
      PersistedRows(items, paymentId, firstId, now, k) +
      [Repository.NewRequestRow(Stamp(items[k], paymentId), firstId + k, now)]
  {
  }

  lemma AttemptsNext(items: seq<Request>, paymentId: string, m: nat)
    requires m < |items|
    ensures Attempts(items, paymentId, m + 1) ==
      Attempts(items, paymentId, m) + [CreateRequestCall(Stamp(items[m], paymentId))]
  {
  }

  // ---------------------------------------------------------------------
  // The admin gate and input validation.
  // ---------------------------------------------------------------------

  /** The gate's verdict on the identity service's answer: None lets the
      operation proceed. */
  function Gate(answer: Result<bool>): (denied: Option<Error>)
    ensures denied.None? <==> answer == Ok(true)
    ensures answer.Err? ==> denied == Some(answer.error)
    ensures answer == Ok(false) ==> denied == Some(Unauthorized)
  {
    match answer
    case Err(e) => Some(e)
    case Ok(isAdmin) => if isAdmin then None else Some(Unauthorized)
  }

  /** An optional date bound: the empty text is the zero time (no bound);
      any other text must parse. */
  function ParseBound(text: string, parseTime: string -> Option<int>): (r: Result<int>)
    ensures text == "" ==> r == Ok(0)
    ensures text != "" ==> (r.Ok? <==> parseTime(text).Some?)
    ensures text != "" && r.Ok? ==> r.value == parseTime(text).value
    ensures r.Err? ==> r.error == InvalidTime(text)
  {
    if text == "" then Ok(0)
    else match parseTime(text)
      case None => Err(InvalidTime(text))
      case Some(t) => Ok(t)
  }

  // ---------------------------------------------------------------------
  // The orchestrator object.
  // ---------------------------------------------------------------------

  class Shop {
    const repo: Repository.Shop
    ghost var trace: seq<Call>

    constructor (repo: Repository.Shop)
      ensures this.repo == repo && trace == []
    {
      this.repo := repo;
      trace := [];
    }

    /** Places an order: one payment for all items, then one insertion per
        item, stopping at the first failed insertion without undoing the
        earlier ones. Returns the payment id. */
    method CreateRequest(items: seq<Request>, paymentService: seq<LineItem> -> Result<string>,
                         now: int, faults: seq<Option<string>>) returns (r: Result<string>)
      requires repo.Valid()
      modifies this, repo
      ensures repo.Valid()
      ensures repo.payments == old(repo.payments) && repo.nextPaymentId == old(repo.nextPaymentId)
      ensures paymentService(LineItems(items)).Err? ==>
        && r == Err(paymentService(LineItems(items)).error)
        && trace == old(trace) + [PaymentService(LineItems(items))]
        && repo.requests == old(repo.requests) && repo.nextRequestId == old(repo.nextRequestId)
      ensures paymentService(LineItems(items)).Ok? ==>
        var paymentId := paymentService(LineItems(items)).value;
        var k := PersistedCount(faults, |items|);
        && repo.requests == old(repo.requests) + PersistedRows(items, paymentId, old(repo.nextRequestId), now, k)
        && repo.nextRequestId == old(repo.nextRequestId) + k
        && trace == old(trace) + [PaymentService(LineItems(items))] +
                    Attempts(items, paymentId, if k < |items| then k + 1 else k)
        && (k == |items| ==> r == Ok(paymentId))
        && (k < |items| ==> r == Err(StoreFailure(FaultAt(faults, k).value)))
    {
      var lines := BuildLineItems(items);
      trace := trace + [PaymentService(lines)];
      var payment := paymentService(lines);
      if payment.Err? {
        return Err(payment.error);
      }
      var count, failure := PersistItems(items, payment.value, now, faults);
      if failure.Some? {
        return Err(failure.value);
      }
      r := Ok(payment.value);
    }

    /** Stores the items one by one, stamped with the payment id, and stops
        at the first failure. Returns how many were stored and the failure. */
    method PersistItems(items: seq<Request>, paymentId: string, now: int, faults: seq<Option<string>>)
      returns (count: nat, failure: Option<Error>)
      requires repo.Valid()
      modifies this, repo
      ensures repo.Valid()
      ensures count == PersistedCount(faults, |items|)
      ensures failure.None? <==> count == |items|
      ensures failure.Some? ==> failure == Some(StoreFailure(FaultAt(faults, count).value))
      ensures repo.requests == old(repo.requests) + PersistedRows(items, paymentId, old(repo.nextRequestId), now, count)
      ensures repo.nextRequestId == old(repo.nextRequestId) + count
      ensures repo.payments == old(repo.payments) && repo.nextPaymentId == old(repo.nextPaymentId)
      ensures trace == old(trace) + Attempts(items, paymentId, if count < |items| then count + 1 else count)
    {
      ghost var firstId := repo.nextRequestId;
      ghost var rows0, payments0, nextPayment0, trace0 := repo.requests, repo.payments, repo.nextPaymentId, trace;
      count := 0;
      while count < |items|
        invariant 0 <= count <= |items|
        invariant forall j :: 0 <= j < count ==> FaultAt(faults, j).None?
        invariant repo.Valid()
        invariant repo.requests == rows0 + PersistedRows(items, paymentId, firstId, now, count)
        invariant repo.nextRequestId == firstId + count
        invariant repo.payments == payments0 && repo.nextPaymentId == nextPayment0
        invariant trace == trace0 + Attempts(items, paymentId, count)
      {
        var item := Stamp(items[count], paymentId);
        trace := trace + [CreateRequestCall(item)];
        AttemptsNext(items, paymentId, count);
        var created := repo.CreateRequest(item, now, FaultAt(faults, count));
        if created.Err? {
          return count, Some(created.error);
        }
        PersistedRowsNext(items, paymentId, firstId, now, count);
        assert repo.requests == rows0 + PersistedRows(items, paymentId, firstId, now, count + 1);
        count := count + 1;
      }
      failure := None;
    }

    /** The admin gate: asks the identity service about `caller`, fails on
        its error or on a non-admin answer. */
    method CheckAdmin(caller: string, oracle: string -> Result<bool>) returns (denied: Option<Error>)
      modifies this
      ensures trace == old(trace) + [GetUser(caller)]
      ensures denied == Gate(oracle(caller))
    {
      trace := trace + [GetUser(caller)];
      var answer := oracle(caller);
      if answer.Err? {
        return Some(answer.error);
      }
      if !answer.value {
        return Some(Unauthorized);
      }
      denied := None;
    }

    /** Admin only: sets Status and Track of the request with the given id. */
    method UpdateRequest(caller: string, oracle: string -> Result<bool>, id: string, request: Request,
                         fault: Option<string>) returns (r: Result<()>)
      requires repo.Valid()
      modifies this, repo
      ensures repo.Valid()
      ensures Gate(oracle(caller)).Some? ==>
        r == Err(Gate(oracle(caller)).value) && trace == old(trace) + [GetUser(caller)] && unchanged(repo)
      ensures Gate(oracle(caller)).None? && Atoi(id).None? ==>
        r == Err(InvalidNumber(id)) && trace == old(trace) + [GetUser(caller)] && unchanged(repo)
      ensures Gate(oracle(caller)).None? && Atoi(id).Some? ==>
        && trace == old(trace) + [GetUser(caller), UpdateRequestCall(Atoi(id).value, request)]
        && repo.payments == old(repo.payments)
        && repo.nextRequestId == old(repo.nextRequestId) && repo.nextPaymentId == old(repo.nextPaymentId)
        && (fault.Some? ==> r == Err(StoreFailure(fault.value)) && repo.requests == old(repo.requests))
        && (fault.None? ==> match Repository.UpdateRequestRows(old(repo.requests), Atoi(id).value, request)
              case None => r == Err(NotFound) && repo.requests == old(repo.requests)
              case Some(rows) => r == Ok(()) && repo.requests == rows)
    {
      var denied := CheckAdmin(caller, oracle);
      if denied.Some? {
        return Err(denied.value);
      }
      var requestId := Atoi(id);
      if requestId.None? {
        return Err(InvalidNumber(id));
      }
      trace := trace + [UpdateRequestCall(requestId.value, request)];
      r := repo.UpdateRequest(requestId.value, request, fault);
    }

    /** Admin only: the requests of a store, filtered by status and dates. */
    method SearchRequest(caller: string, oracle: string -> Result<bool>, parseTime: string -> Option<int>,
                         storeId: string, status: string, initialDate: string, endDate: string,
                         fault: Option<string>) returns (r: Result<seq<Request>>)
      modifies this
      ensures Gate(oracle(caller)).Some? ==>
        r == Err(Gate(oracle(caller)).value) && trace == old(trace) + [GetUser(caller)]
      ensures Gate(oracle(caller)).None? && Atoi(storeId).None? ==>
        r == Err(InvalidNumber(storeId)) && trace == old(trace) + [GetUser(caller)]
      ensures Gate(oracle(caller)).None? && Atoi(storeId).Some? && ParseBound(initialDate, parseTime).Err? ==>
        r == Err(InvalidTime(initialDate)) && trace == old(trace) + [GetUser(caller)]
      ensures Gate(oracle(caller)).None? && Atoi(storeId).Some? && ParseBound(initialDate, parseTime).Ok? &&
              ParseBound(endDate, parseTime).Err? ==>
        r == Err(InvalidTime(endDate)) && trace == old(trace) + [GetUser(caller)]
      ensures Gate(oracle(caller)).None? && Atoi(storeId).Some? && ParseBound(initialDate, parseTime).Ok? &&
              ParseBound(endDate, parseTime).Ok? ==>
        var id, init, end := Atoi(storeId).value, ParseBound(initialDate, parseTime).value, ParseBound(endDate, parseTime).value;
        && trace == old(trace) + [GetUser(caller), SearchRequestCall(id, status, init, end)]
        && (fault.Some? ==> r == Err(StoreFailure(fault.value)))
        && (fault.None? ==> r == Ok(Repository.SelectRequests(repo.requests, id, status, init, end)))
    {
      var denied := CheckAdmin(caller, oracle);
      if denied.Some? {
        return Err(denied.value);
      }
      var id := Atoi(storeId);
      if id.None? {
        return Err(InvalidNumber(storeId));
      }
      var init := ParseBound(initialDate, parseTime);
      if init.Err? {
        return Err(init.error);
      }
      var end := ParseBound(endDate, parseTime);
      if end.Err? {
        return Err(end.error);
      }
      trace := trace + [SearchRequestCall(id.value, status, init.value, end.value)];
      r := repo.SearchRequest(id.value, status, init.value, end.value, fault);
    }

    /** Admin only: stores a payment and returns its new id. */
    method CreatePayment(caller: string, oracle: string -> Result<bool>, payment: Payment,
                         now: int, fault: Option<string>) returns (r: Result<int>)
      requires repo.Valid()
      modifies this, repo
      ensures repo.Valid()
      ensures Gate(oracle(caller)).Some? ==>
        r == Err(Gate(oracle(caller)).value) && trace == old(trace) + [GetUser(caller)] && unchanged(repo)
      ensures Gate(oracle(caller)).None? ==>
        && trace == old(trace) + [GetUser(caller), CreatePaymentCall(payment)]
        && repo.requests == old(repo.requests) && repo.nextRequestId == old(repo.nextRequestId)
        && (fault.Some? ==>
              r == Err(StoreFailure(fault.value)) &&
              repo.payments == old(repo.payments) && repo.nextPaymentId == old(repo.nextPaymentId))
        && (fault.None? ==>
              && r == Ok(old(repo.nextPaymentId))
              && repo.payments == old(repo.payments) + [Repository.NewPaymentRow(payment, r.value, now)]
              && repo.nextPaymentId == old(repo.nextPaymentId) + 1)
    {
      var denied := CheckAdmin(caller, oracle);
      if denied.Some? {
        return Err(denied.value);
      }
      trace := trace + [CreatePaymentCall(payment)];
      r := repo.CreatePayment(payment, now, fault);
    }

    /** Admin only: sets Status of the payment with the given id. */
    method UpdatePayment(caller: string, oracle: string -> Result<bool>, id: string, payment: Payment,
                         fault: Option<string>) returns (r: Result<()>)
      requires repo.Valid()
      modifies this, repo
      ensures repo.Valid()
      ensures Gate(oracle(caller)).Some? ==>
        r == Err(Gate(oracle(caller)).value) && trace == old(trace) + [GetUser(caller)] && unchanged(repo)
      ensures Gate(oracle(caller)).None? && Atoi(id).None? ==>
        r == Err(InvalidNumber(id)) && trace == old(trace) + [GetUser(caller)] && unchanged(repo)
      ensures Gate(oracle(caller)).None? && Atoi(id).Some? ==>
        && trace == old(trace) + [GetUser(caller), UpdatePaymentCall(Atoi(id).value, payment)]
        && repo.requests == old(repo.requests)
        && repo.nextRequestId == old(repo.nextRequestId) && repo.nextPaymentId == old(repo.nextPaymentId)
        && (fault.Some? ==> r == Err(StoreFailure(fault.value)) && repo.payments == old(repo.payments))
        && (fault.None? ==> match Repository.UpdatePaymentRows(old(repo.payments), Atoi(id).value, payment)
              case None => r == Err(NotFound) && repo.payments == old(repo.payments)
              case Some(rows) => r == Ok(()) && repo.payments == rows)
    {
      var denied := CheckAdmin(caller, oracle);
      if denied.Some? {
        return Err(denied.value);
      }
      var paymentId := Atoi(id);
      if paymentId.None? {
        return Err(InvalidNumber(id));
      }
      trace := trace + [UpdatePaymentCall(paymentId.value, payment)];
      r := repo.UpdatePayment(paymentId.value, payment, fault);
    }

    /** Admin only: every payment of a store. */
    method GetPayments(caller: string, oracle: string -> Result<bool>, storeId: string,
                       fault: Option<string>) returns (r: Result<seq<Payment>>)
      modifies this
      ensures Gate(oracle(caller)).Some? ==>
        r == Err(Gate(oracle(caller)).value) && trace == old(trace) + [GetUser(caller)]
      ensures Gate(oracle(caller)).None? && Atoi(storeId).None? ==>
        r == Err(InvalidNumber(storeId)) && trace == old(trace) + [GetUser(caller)]
      ensures Gate(oracle(caller)).None? && Atoi(storeId).Some? ==>
        && trace == old(trace) + [GetUser(caller), GetPaymentsCall(Atoi(storeId).value)]
        && (fault.Some? ==> r == Err(StoreFailure(fault.value)))
        && (fault.None? ==> r == Ok(Repository.SelectStorePayments(repo.payments, Atoi(storeId).value)))
    {
      var denied := CheckAdmin(caller, oracle);
      if denied.Some? {
        return Err(denied.value);
      }
      var id := Atoi(storeId);
      if id.None? {
        return Err(InvalidNumber(storeId));
      }
      trace := trace + [GetPaymentsCall(id.value)];
      r := repo.GetPayments(id.value, fault);
    }

    /** Admin only: payments of every store, filtered by status and dates. */
    method SearchPayment(caller: string, oracle: string -> Result<bool>, parseTime: string -> Option<int>,
                         status: string, initialDate: string, endDate: string,
                         fault: Option<string>) returns (r: Result<seq<Payment>>)
      modifies this
      ensures Gate(oracle(caller)).Some? ==>
        r == Err(Gate(oracle(caller)).value) && trace == old(trace) + [GetUser(caller)]
      ensures Gate(oracle(caller)).None? && ParseBound(initialDate, parseTime).Err? ==>
        r == Err(InvalidTime(initialDate)) && trace == old(trace) + [GetUser(caller)]
      ensures Gate(oracle(caller)).None? && ParseBound(initialDate, parseTime).Ok? &&
              ParseBound(endDate, parseTime).Err? ==>
        r == Err(InvalidTime(endDate)) && trace == old(trace) + [GetUser(caller)]
      ensures Gate(oracle(caller)).None? && ParseBound(initialDate, parseTime).Ok? &&
              ParseBound(endDate, parseTime).Ok? ==>
        var init, end := ParseBound(initialDate, parseTime).value, ParseBound(endDate, parseTime).value;
        && trace == old(trace) + [GetUser(caller), SearchPaymentCall(status, init, end)]
        && (fault.Some? ==> r == Err(StoreFailure(fault.value)))
        && (fault.None? ==> r == Ok(Repository.SelectPayments(repo.payments, status, init, end)))
    {
      var denied := CheckAdmin(caller, oracle);
      if denied.Some? {
        return Err(denied.value);
      }
      var init := ParseBound(initialDate, parseTime);
      if init.Err? {
        return Err(init.error);
      }
      var end := ParseBound(endDate, parseTime);
      if end.Err? {
        return Err(end.error);
      }
      trace := trace + [SearchPaymentCall(status, init.value, end.value)];
      r := repo.SearchPayment(status, init.value, end.value, fault);
    }
  }
}
