/**
 * The client payment service: the saved payment methods with their single-default rule, card
 * brand detection, payment-data validation, the refund guards and the filtered, newest-first
 * transaction history.
 *
 * Amounts are integers (the smallest currency unit); ids and timestamps are parameters, because
 * the source draws them from `Date.now()` and `Math.random()`.
 */
module Payments {
  import opened Wrappers
  import opened Sequences
  import opened Sorting

  // ---------------------------------------------------------------- sequences

  /** `s.filter(p)`. */
  function Filter<T(!new)>(s: seq<T>, p: T -> bool): (r: seq<T>)
    ensures |r| <= |s|
    ensures forall x :: x in r <==> x in s && p(x)
    ensures forall x :: multiset(r)[x] == if p(x) then multiset(s)[x] else 0
  {
    if s == [] then []
    else
      var rest := Filter(s[1..], p);
      assert s == [s[0]] + s[1..];
      assert forall x :: x in s <==> x == s[0] || x in s[1..];
      assert forall x :: multiset(s)[x] == multiset([s[0]])[x] + multiset(s[1..])[x];
      if p(s[0]) then [s[0]] + rest else rest
  }

  /** `s.startsWith(p)`. */
  predicate StartsWith(s: string, p: string)
  {
    |p| <= |s| && s[..|p|] == p
  }

  // ---------------------------------------------------------------- card brands

  /** The brands in the order `detectCardBrand` tries their patterns. */
  const Brands: seq<string> := ["visa", "mastercard", "amex", "discover", "elo"]

  const EloPrefixes: seq<string> := ["4011", "4312", "4389", "4514", "4573", "6362", "6363"]

  /** The pattern of each brand: `/^4/`, `/^5[1-5]/`, `/^3[47]/`, `/^6(?:011|5)/`, and the elo prefixes. */
  predicate MatchesBrand(brand: string, number: string)
  {
    if brand == "visa" then StartsWith(number, "4")
    else if brand == "mastercard" then |number| >= 2 && number[0] == '5' && '1' <= number[1] <= '5'
    else if brand == "amex" then StartsWith(number, "34") || StartsWith(number, "37")
    else if brand == "discover" then StartsWith(number, "6011") || StartsWith(number, "65")
    else if brand == "elo" then exists i :: 0 <= i < |EloPrefixes| && StartsWith(number, EloPrefixes[i])
    else false
  }

  /** The first brand from index `k` on whose pattern matches. */
  function FirstBrandFrom(number: string, k: nat): (r: string)
    requires k <= |Brands|
    ensures r == "unknown" <==> forall j :: k <= j < |Brands| ==> !MatchesBrand(Brands[j], number)
    ensures r != "unknown" ==> exists j :: k <= j < |Brands| && r == Brands[j] && MatchesBrand(r, number) &&
                                 forall i :: k <= i < j ==> !MatchesBrand(Brands[i], number)
    decreases |Brands| - k
  {
    if k == |Brands| then "unknown"
    else if MatchesBrand(Brands[k], number) then Brands[k]
    else FirstBrandFrom(number, k + 1)
  }

  /** `detectCardBrand`: the patterns are tried in order and the first match wins; `'unknown'` when none matches. */
  method DetectCardBrand(number: string) returns (brand: string)
    ensures brand == FirstBrandFrom(number, 0)
  {
    var k := 0;
    while k < |Brands|
      invariant k <= |Brands|
      invariant FirstBrandFrom(number, 0) == FirstBrandFrom(number, k)
    {
      if MatchesBrand(Brands[k], number) {
        return Brands[k];
      }
      k := k + 1;
    }
    return "unknown";
  }

  /** Every elo prefix that starts with 4 is taken by visa first, so `"4011..."` is a visa card. */
  lemma EloShadowedByVisa(number: string)
    requires StartsWith(number, "4011")
    ensures FirstBrandFrom(number, 0) == "visa"
  {
    assert number[..1] == number[..4][..1];
  }

  /** The elo prefixes 6362 and 6363 do reach elo: no earlier pattern matches them. */
  lemma EloReachable(number: string)
    requires StartsWith(number, "6362")
    ensures FirstBrandFrom(number, 0) == "elo"
  {
    assert number[0] == '6' && number[1] == '3' && number[2] == '6';
    assert !MatchesBrand(Brands[0], number) by { assert number[..1] != "4"; }
    assert !MatchesBrand(Brands[1], number);
    assert !MatchesBrand(Brands[2], number) by { assert number[..2] != "34" && number[..2] != "37"; }
    assert !MatchesBrand(Brands[3], number) by { assert number[..4] != "6011" && number[..2] != "65"; }
    assert MatchesBrand(Brands[4], number) by { assert StartsWith(number, EloPrefixes[5]); }
    assert FirstBrandFrom(number, 4) == "elo";
    assert FirstBrandFrom(number, 2) == "elo";
  }

  // ---------------------------------------------------------------- payment methods

  /** The fields of `methodData` that the service reads; `isDefault` is `None` when the caller gives none. */
  datatype MethodData = MethodData(kind: string, number: Option<string>, cvv: Option<string>,
                                   holder: string, isDefault: Option<bool>)

  /** A stored method: a card keeps only `last4` and `brand`, never `number` or `cvv`. */
  datatype PaymentMethod = PaymentMethod(
    id: string, kind: string, isDefault: bool, createdAt: int, holder: string,
    number: Option<string>, cvv: Option<string>, last4: Option<string>, brand: Option<string>)

  /** `number.slice(-4)`. */
  function Last4(number: string): (r: string)
    ensures |r| == if |number| < 4 then |number| else 4
    ensures r <= number[|number| - |r|..]
  {
    if |number| <= 4 then number else number[|number| - 4..]
  }

  predicate IsDefault(m: PaymentMethod) { m.isDefault }

  /** At most one method is the default. */
  predicate AtMostOneDefault(ms: seq<PaymentMethod>)
  {
    forall i, j :: 0 <= i < |ms| && 0 <= j < |ms| && ms[i].isDefault && ms[j].isDefault ==> i == j
  }

  /** `findIndex` by id. */
  function FindMethod(ms: seq<PaymentMethod>, id: string): (r: Option<nat>)
    ensures r.Some? ==> r.value < |ms| && ms[r.value].id == id && forall j :: 0 <= j < r.value ==> ms[j].id != id
    ensures r.None? ==> forall j :: 0 <= j < |ms| ==> ms[j].id != id
  {
    FirstIndex(ms, (m: PaymentMethod) => m.id == id)
  }

  /** `getDefaultPaymentMethod`: the first method marked default, if any. */
  function DefaultMethod(ms: seq<PaymentMethod>): (r: Option<PaymentMethod>)
    ensures r.Some? <==> exists i :: 0 <= i < |ms| && ms[i].isDefault
    ensures r.Some? ==> r.value in ms && r.value.isDefault
    ensures r.Some? ==> exists i :: 0 <= i < |ms| && ms[i] == r.value && forall j :: 0 <= j < i ==> !ms[j].isDefault
  {
    Find(ms, (m: PaymentMethod) => m.isDefault)
  }

  /** The list after `forEach(m => m.isDefault = m.id === id)`. */
  function WithDefault(ms: seq<PaymentMethod>, id: string): (r: seq<PaymentMethod>)
    ensures |r| == |ms|
    ensures forall i :: 0 <= i < |ms| ==> r[i].(isDefault := ms[i].isDefault) == ms[i]
    ensures forall i :: 0 <= i < |ms| ==> (r[i].isDefault <==> ms[i].id == id)
  {
    seq(|ms|, i requires 0 <= i < |ms| => ms[i].(isDefault := ms[i].id == id))
  }

  /** Ids are pairwise distinct. */
  predicate UniqueIds(ms: seq<PaymentMethod>)
  {
    forall i, j :: 0 <= i < |ms| && 0 <= j < |ms| && ms[i].id == ms[j].id ==> i == j
  }

  /**
   * After `setDefaultPaymentMethod(id)` exactly the methods with that id are default: with
   * distinct ids that is one method, which `getDefaultPaymentMethod` then returns; with an
   * unknown id there is no default at all.
   */
  lemma WithDefaultMeans(ms: seq<PaymentMethod>, id: string)
    requires UniqueIds(ms)
    ensures AtMostOneDefault(WithDefault(ms, id))
    ensures FindMethod(ms, id).None? ==> DefaultMethod(WithDefault(ms, id)).None?
    ensures FindMethod(ms, id).Some? ==>
      DefaultMethod(WithDefault(ms, id)) == Some(ms[FindMethod(ms, id).value].(isDefault := true))
  {
    var r := WithDefault(ms, id);
    if FindMethod(ms, id).Some? {
      var k := FindMethod(ms, id).value;
      var d := DefaultMethod(r).value;
      var i :| 0 <= i < |r| && r[i] == d;
      assert ms[i].id == id;
    }
  }

  /** The list after `splice(k, 1)` and, when the removed method was the default, promoting the new first one. */
  function AfterRemoval(ms: seq<PaymentMethod>, k: nat): (r: seq<PaymentMethod>)
    requires k < |ms|
    ensures |r| == |ms| - 1
    ensures forall i :: 0 < i < |r| ==> r[i] == if i < k then ms[i] else ms[i + 1]
    ensures |r| > 0 ==> var first := if k == 0 then ms[1] else ms[0];
      r[0] == if ms[k].isDefault then first.(isDefault := true) else first
  {
    var rest := ms[..k] + ms[k + 1..];
    if ms[k].isDefault && |rest| > 0 then rest[0 := rest[0].(isDefault := true)] else rest
  }

  /**
   * Removing a method keeps at most one default, and a non-empty list that had a default still
   * has exactly one: the removed default passes to the first remaining method.
   */
  lemma RemovalKeepsDefault(ms: seq<PaymentMethod>, k: nat)
    requires k < |ms| && AtMostOneDefault(ms)
    ensures AtMostOneDefault(AfterRemoval(ms, k))
    ensures (exists i :: 0 <= i < |ms| && ms[i].isDefault) && |ms| > 1 ==> DefaultMethod(AfterRemoval(ms, k)).Some?
  {
    var rest := ms[..k] + ms[k + 1..];
    assert forall i :: 0 <= i < |rest| ==> rest[i] == if i < k then ms[i] else ms[i + 1];
    var r := AfterRemoval(ms, k);
    if ms[k].isDefault && |rest| > 0 {
      assert forall i :: 0 <= i < |rest| ==> !rest[i].isDefault;
      assert r[0].isDefault;
    } else if (exists i :: 0 <= i < |ms| && ms[i].isDefault) && |ms| > 1 {
      var i :| 0 <= i < |ms| && ms[i].isDefault;
      assert i != k;
      var j := if i < k then i else i - 1;
      assert r[j].isDefault;
    }
  }

  /** The method `addPaymentMethod` builds: a default iff the list was empty unless the input says otherwise. */
  function NewMethod(data: MethodData, id: string, now: int, listWasEmpty: bool, brand: string): (r: PaymentMethod)
    requires data.kind == "card" ==> data.number.Some?
    ensures r.isDefault == if data.isDefault.Some? then data.isDefault.value else listWasEmpty
    ensures data.kind == "card" ==> r.number.None? && r.cvv.None? && r.last4 == Some(Last4(data.number.value)) && r.brand == Some(brand)
    ensures data.kind != "card" ==> r.number == data.number && r.cvv == data.cvv && r.last4.None? && r.brand.None?
    ensures r.id == id && r.kind == data.kind && r.createdAt == now && r.holder == data.holder
  {
    var m := PaymentMethod(id, data.kind, data.isDefault.GetOr(listWasEmpty), now, data.holder,
                           data.number, data.cvv, None, None);
    if data.kind == "card" then
      m.(last4 := Some(Last4(data.number.value)), brand := Some(brand), number := None, cvv := None)
    else m
  }

  /** Without an `isDefault` of its own, an added method keeps the single-default rule. */
  lemma AddKeepsSingleDefault(ms: seq<PaymentMethod>, m: PaymentMethod)
    requires AtMostOneDefault(ms)
    requires m.isDefault == (|ms| == 0)
    ensures AtMostOneDefault(ms + [m])
  {
  }

  /** An input `isDefault: true` overrides the rule: a second default can be added. */
  lemma InputDefaultMakesTwo(m0: PaymentMethod, data: MethodData, id: string, now: int)
    requires m0.isDefault && data.kind == "pix" && data.isDefault == Some(true)
    ensures !AtMostOneDefault([m0] + [NewMethod(data, id, now, false, "")])
  {
    var s := [m0] + [NewMethod(data, id, now, false, "")];
    assert s[0].isDefault && s[1].isDefault;
  }

  // ---------------------------------------------------------------- validation

  const SupportedMethods: seq<string> := ["card", "pix", "boleto", "wallet"]

  /** The fields of `paymentData` that `validatePaymentData` reads; an absent field is `""`. */
  datatype PaymentData = PaymentData(paymentMethod: string, number: string, expiryMonth: string, expiryYear: string, cvv: string)

  const InvalidMethodMessage := "Método de pagamento inválido"
  const InvalidNumberMessage := "Número do cartão inválido"
  const InvalidExpiryMessage := "Data de validade inválida"
  const InvalidCvvMessage := "CVV inválido"

  /** The position of each message in the order of the checks. */
  function CheckRank(message: string): nat
  {
    if message == InvalidMethodMessage then 0
    else if message == InvalidNumberMessage then 1
    else if message == InvalidExpiryMessage then 2
    else 3
  }

  /** The four messages are told apart by their first characters. */
  lemma CheckRanks()
    ensures CheckRank(InvalidMethodMessage) == 0 && CheckRank(InvalidNumberMessage) == 1
    ensures CheckRank(InvalidExpiryMessage) == 2 && CheckRank(InvalidCvvMessage) == 3
  {
    assert InvalidMethodMessage[0] == 'M' && InvalidNumberMessage[0] == 'N';
    assert InvalidExpiryMessage[0] == 'D' && InvalidCvvMessage[0] == 'C';
  }

  /** The card checks of `validatePaymentData`: number, expiry and CVV, in that order. */
  function CardErrors(d: PaymentData): (errors: seq<string>)
    ensures (InvalidNumberMessage in errors) <==> |d.number| < 13
    ensures (InvalidExpiryMessage in errors) <==> d.expiryMonth == "" || d.expiryYear == ""
    ensures (InvalidCvvMessage in errors) <==> |d.cvv| < 3
    ensures InvalidMethodMessage !in errors
    ensures forall i :: 0 <= i < |errors| ==>
      1 <= CheckRank(errors[i]) && errors[i] in [InvalidNumberMessage, InvalidExpiryMessage, InvalidCvvMessage]
    ensures forall i, j :: 0 <= i < j < |errors| ==> CheckRank(errors[i]) < CheckRank(errors[j])
  {
    CheckRanks();
    (if |d.number| < 13 then [InvalidNumberMessage] else []) +
    (if d.expiryMonth == "" || d.expiryYear == "" then [InvalidExpiryMessage] else []) +
    (if |d.cvv| < 3 then [InvalidCvvMessage] else [])
  }

  /** `validatePaymentData`: one message per failed check, in the order of the checks, and nothing else. */
  function ValidatePaymentData(d: PaymentData): (errors: seq<string>)
    ensures (InvalidMethodMessage in errors) <==> d.paymentMethod !in SupportedMethods
    ensures (InvalidNumberMessage in errors) <==> d.paymentMethod == "card" && |d.number| < 13
    ensures (InvalidExpiryMessage in errors) <==> d.paymentMethod == "card" && (d.expiryMonth == "" || d.expiryYear == "")
    ensures (InvalidCvvMessage in errors) <==> d.paymentMethod == "card" && |d.cvv| < 3
    ensures forall i :: 0 <= i < |errors| ==>
      errors[i] in [InvalidMethodMessage, InvalidNumberMessage, InvalidExpiryMessage, InvalidCvvMessage]
    ensures forall i, j :: 0 <= i < j < |errors| ==> CheckRank(errors[i]) < CheckRank(errors[j])
    ensures d.paymentMethod != "card" ==> |errors| <= 1
  {
    CheckRanks();
    assert "card" in SupportedMethods;
    var unsupported := if d.paymentMethod !in SupportedMethods then [InvalidMethodMessage] else [];
    var card := if d.paymentMethod == "card" then CardErrors(d) else [];
    assert unsupported == [] || card == [];
    unsupported + card
  }

  // ---------------------------------------------------------------- transactions

  /** A transaction; a refund has no `method` and records the transaction it refunds. */
  datatype Transaction = Transaction(
    id: string, amount: int, paymentMethod: Option<string>, status: string, createdAt: int,
    originalTransactionId: Option<string>)

  /** The filters of `getTransactionHistory`; `""` and `0` are falsy and switch a filter off. */
  datatype HistoryFilters = HistoryFilters(status: string, paymentMethod: string, dateFrom: int, dateTo: int)

  /** A transaction passes every filter that is switched on. */
  predicate PassesFilters(t: Transaction, f: HistoryFilters)
  {
    (f.status != "" ==> t.status == f.status) &&
    (f.paymentMethod != "" ==> t.paymentMethod == Some(f.paymentMethod)) &&
    (f.dateFrom != 0 ==> t.createdAt >= f.dateFrom) &&
    (f.dateTo != 0 ==> t.createdAt <= f.dateTo)
  }

  function CreatedAt(t: Transaction): int { t.createdAt }

  /**
   * `getTransactionHistory`: the transactions that pass the active filters, stably sorted by
   * `createdAt`, newest first. The source applies the filters one after the other; each keeps
   * the order of what it keeps, so together they keep, in order, what passes all of them.
   */
  function TransactionHistory(ts: seq<Transaction>, f: HistoryFilters): seq<Transaction>
  {
    SortDesc(Filter(ts, (t: Transaction) => PassesFilters(t, f)), CreatedAt)
  }

  /**
   * The history holds exactly the transactions that pass every active filter, each as often as
   * in the list and none more often, newest first.
   */
  lemma TransactionHistoryMeans(ts: seq<Transaction>, f: HistoryFilters)
    ensures var h := TransactionHistory(ts, f);
      (forall t :: t in h <==> t in ts && PassesFilters(t, f)) &&
      (forall t :: multiset(h)[t] == if PassesFilters(t, f) then multiset(ts)[t] else 0) &&
      SortedDesc(h, CreatedAt)
  {
    var d := Filter(ts, (t: Transaction) => PassesFilters(t, f));
    SortDescSorted(d, CreatedAt);
    var h := SortDesc(d, CreatedAt);
    assert multiset(h) == multiset(d);
    forall t ensures t in h <==> t in d {
      assert t in h <==> t in multiset(h);
      assert t in d <==> t in multiset(d);
    }
  }

  /** Transactions with the same `createdAt` keep their relative order: the sort is stable. */
  lemma TransactionHistoryStable(ts: seq<Transaction>, f: HistoryFilters, at: int)
    ensures WithKey(TransactionHistory(ts, f), CreatedAt, at) ==
            WithKey(Filter(ts, (t: Transaction) => PassesFilters(t, f)), CreatedAt, at)
  {
    SortDescStable(Filter(ts, (t: Transaction) => PassesFilters(t, f)), CreatedAt, at);
  }

  // ---------------------------------------------------------------- the service

  const TransactionMissingMessage := "Transação não encontrada"
  const RefundTooLargeMessage := "Valor do reembolso não pode ser maior que o valor da transação"
  const MethodMissingMessage := "Método de pagamento não encontrado"

  /** `find` by id on the transactions. */
  function FindTransaction(ts: seq<Transaction>, id: string): (r: Option<Transaction>)
    ensures r.Some? ==> r.value in ts && r.value.id == id
    ensures r.Some? ==> exists i :: 0 <= i < |ts| && ts[i] == r.value && forall j :: 0 <= j < i ==> ts[j].id != id
    ensures r.None? <==> forall t :: t in ts ==> t.id != id
  {
    Find(ts, (t: Transaction) => t.id == id)
  }

  /**
   * `amount || transaction.amount`: an omitted or zero amount refunds everything. A requested
   * amount within the transaction's gives a refund within it; the result is zero only when the
   * transaction's amount is zero too.
   */
  function RefundAmount(requested: Option<int>, full: int): (r: int)
    ensures requested.Some? && 0 < requested.value <= full ==> 0 < r <= full
    ensures r == 0 ==> full == 0
    ensures r == full || Some(r) == requested
  {
    if requested.None? || requested.value == 0 then full else requested.value
  }

  class PaymentService {
    var paymentMethods: seq<PaymentMethod>
    var transactions: seq<Transaction>

    constructor ()
      ensures paymentMethods == [] && transactions == []
    {
      paymentMethods := [];
      transactions := [];
    }

    /**
     * `addPaymentMethod`: appends the method `NewMethod` builds. A card without a `number`
     * makes `number.slice` throw, and nothing is stored.
     */
    method AddPaymentMethod(data: MethodData, id: string, now: int) returns (r: Result<PaymentMethod>)
      modifies this`paymentMethods
      ensures data.kind == "card" && data.number.None? ==> r.Err? && paymentMethods == old(paymentMethods)
      ensures r.Ok? ==> data.kind == "card" ==> data.number.Some?
      ensures !(data.kind == "card" && data.number.None?) ==>
        r.Ok? && r.value == NewMethod(data, id, now, old(paymentMethods) == [],
                                      if data.kind == "card" then FirstBrandFrom(data.number.value, 0) else "") &&
        paymentMethods == old(paymentMethods) + [r.value]
      ensures data.isDefault.None? && old(AtMostOneDefault(paymentMethods)) ==> AtMostOneDefault(paymentMethods)
    {
      if data.kind == "card" && data.number.None? {
        return Err("Cannot read properties of undefined (reading 'slice')");
      }
      var brand := "";
      if data.kind == "card" {
        brand := DetectCardBrand(data.number.value);
      }
      var m := NewMethod(data, id, now, paymentMethods == [], brand);
      if data.isDefault.None? && AtMostOneDefault(paymentMethods) {
        AddKeepsSingleDefault(paymentMethods, m);
      }
      paymentMethods := paymentMethods + [m];
      r := Ok(m);
    }

    /** `removePaymentMethod`: unknown ids throw; otherwise the first method with the id goes, and a removed default passes to the first one left. */
    method RemovePaymentMethod(id: string) returns (r: Result<bool>)
      modifies this`paymentMethods
      ensures FindMethod(old(paymentMethods), id).None? ==> r == Err(MethodMissingMessage) && paymentMethods == old(paymentMethods)
      ensures FindMethod(old(paymentMethods), id).Some? ==>
        r == Ok(true) && paymentMethods == AfterRemoval(old(paymentMethods), FindMethod(old(paymentMethods), id).value)
      ensures old(AtMostOneDefault(paymentMethods)) ==> AtMostOneDefault(paymentMethods)
    {
      var k := FindMethod(paymentMethods, id);
      if k.None? {
        return Err(MethodMissingMessage);
      }
      if AtMostOneDefault(paymentMethods) {
        RemovalKeepsDefault(paymentMethods, k.value);
      }
      paymentMethods := AfterRemoval(paymentMethods, k.value);
      r := Ok(true);
    }

    /** `setDefaultPaymentMethod`: the `forEach` that sets each method's `isDefault` to whether its id is `id`. */
    method SetDefaultPaymentMethod(id: string)
      modifies this`paymentMethods
      ensures paymentMethods == WithDefault(old(paymentMethods), id)
    {
      var i := 0;
      while i < |paymentMethods|
        invariant i <= |paymentMethods| == |old(paymentMethods)|
        invariant forall j :: 0 <= j < i ==> paymentMethods[j] == old(paymentMethods)[j].(isDefault := old(paymentMethods)[j].id == id)
        invariant forall j :: i <= j < |paymentMethods| ==> paymentMethods[j] == old(paymentMethods)[j]
      {
        paymentMethods := paymentMethods[i := paymentMethods[i].(isDefault := paymentMethods[i].id == id)];
        i := i + 1;
      }
    }

    /** `getDefaultPaymentMethod`. */
    method GetDefaultPaymentMethod() returns (r: Option<PaymentMethod>)
      ensures r.Some? <==> exists i :: 0 <= i < |paymentMethods| && paymentMethods[i].isDefault
      ensures r.Some? ==> r.value.isDefault && r.value in paymentMethods
      ensures r.Some? ==> exists i :: 0 <= i < |paymentMethods| && paymentMethods[i] == r.value &&
                                      forall j :: 0 <= j < i ==> !paymentMethods[j].isDefault
    {
      var i := 0;
      while i < |paymentMethods|
        invariant i <= |paymentMethods|
        invariant forall j :: 0 <= j < i ==> !paymentMethods[j].isDefault
      {
        if paymentMethods[i].isDefault {
          return Some(paymentMethods[i]);
        }
        i := i + 1;
      }
      return None;
    }

    /**
     * The guards and the record of `processRefund`: an unknown transaction and an amount above
     * the transaction's throw; otherwise a completed refund is appended.
     */
    method ProcessRefund(transactionId: string, amount: Option<int>, refundId: string, now: int) returns (r: Result<Transaction>)
      modifies this`transactions
      ensures FindTransaction(old(transactions), transactionId).None? ==>
        r == Err(TransactionMissingMessage) && transactions == old(transactions)
      ensures FindTransaction(old(transactions), transactionId).Some? ==>
        var t := FindTransaction(old(transactions), transactionId).value;
        var refund := RefundAmount(amount, t.amount);
        if refund > t.amount then r == Err(RefundTooLargeMessage) && transactions == old(transactions)
        else r == Ok(Transaction(refundId, refund, None, "completed", now, Some(transactionId))) &&
             transactions == old(transactions) + [r.value]
    {
      var t := FindTransaction(transactions, transactionId);
      if t.None? {
        return Err(TransactionMissingMessage);
      }
      var refund := RefundAmount(amount, t.value.amount);
      if refund > t.value.amount {
        return Err(RefundTooLargeMessage);
      }
      var rec := Transaction(refundId, refund, None, "completed", now, Some(transactionId));
      transactions := transactions + [rec];
      r := Ok(rec);
    }

    /** `getTransactionHistory`: a filtered, sorted copy; the stored list keeps its order. */
    method GetTransactionHistory(f: HistoryFilters) returns (h: seq<Transaction>)
      ensures forall t :: t in h <==> t in transactions && PassesFilters(t, f)
      ensures forall t :: multiset(h)[t] == if PassesFilters(t, f) then multiset(transactions)[t] else 0
      ensures SortedDesc(h, CreatedAt)
      ensures h == TransactionHistory(transactions, f)
    {
      h := TransactionHistory(transactions, f);
      TransactionHistoryMeans(transactions, f);
    }
  }
}
