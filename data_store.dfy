/**
 * The bot's store (data_store.py): one document with four parts, kept
 * in memory and rewritten to a file after every change.
 *   - vouchers: a first-in-first-out queue of voucher codes per denomination;
 *   - prices:   the unit price per denomination, in paise (hundredths of a rupee);
 *   - orders:   the order records, appended and then updated field by field;
 *   - users:    the ids of the users seen, without repetitions.
 * The file write (`save_data`) has no effect on the in-memory state and is
 * not modelled. Denomination keys are `str(denom)` in the file; `str` is
 * injective on integers, so they are integers here.
 */
module DataStore {
  import opened Wrappers

  /** A JSON value as stored in an order record. */
  datatype Value = Null | Bool(b: bool) | Int(i: int) | Str(s: string)

  /** An order record is a JSON object: field name to value. */
  type Order = map<string, Value>

  /** The denominations that always have a queue and a price, in the order the file lists them. */
  const DEFAULT_DENOMS: seq<int> := [1000, 2000, 4000]

  /** The default unit prices, in paise (40.0, 70.0 and 140.0 rupees). */
  const DEFAULT_PRICES: map<int, int> := map[1000 := 4000, 2000 := 7000, 4000 := 14000]

  /** The four parts of the store's document. */
  datatype Data = Data(vouchers: map<int, seq<string>>, prices: map<int, int>, orders: seq<Order>, users: seq<int>)

  /** A document as read from the file: each top-level key may be missing. */
  datatype Document = Document(
    vouchers: Option<map<int, seq<string>>>,
    prices: Option<map<int, int>>,
    orders: Option<seq<Order>>,
    users: Option<seq<int>>)

  /** Every default denomination has a queue and a price. */
  predicate HasDefaults(vouchers: map<int, seq<string>>, prices: map<int, int>) {
    forall den :: den in DEFAULT_PRICES ==> den in vouchers && den in prices
  }

  /** `_default_data()`: empty queues and default prices for the three denominations, no orders, no users. */
  function DefaultData(): (d: Data)
    ensures d.vouchers.Keys == d.prices.Keys == DEFAULT_PRICES.Keys
    ensures forall den :: den in DEFAULT_PRICES ==> d.vouchers[den] == [] && d.prices[den] == DEFAULT_PRICES[den]
    ensures d.orders == [] && d.users == []
  {
    Data(map[1000 := [], 2000 := [], 4000 := []], DEFAULT_PRICES, [], [])
  }

  /**
   * The key normalisation of `load_data`: a missing top-level key takes
   * its default, then every default denomination gets an empty queue and
   * its default price unless it already has them (`setdefault`).
   */
  method Normalize(doc: Document) returns (d: Data)
    ensures HasDefaults(d.vouchers, d.prices)
    // values already present are kept
    ensures doc.vouchers.Some? ==> forall k :: k in doc.vouchers.value ==> k in d.vouchers && d.vouchers[k] == doc.vouchers.value[k]
    ensures doc.prices.Some? ==> forall k :: k in doc.prices.value ==> k in d.prices && d.prices[k] == doc.prices.value[k]
    // what is added is the default
    ensures forall k :: k in d.vouchers ==> k in DEFAULT_PRICES || (doc.vouchers.Some? && k in doc.vouchers.value)
    ensures forall k :: k in d.prices ==> k in DEFAULT_PRICES || (doc.prices.Some? && k in doc.prices.value)
    ensures forall k :: k in DEFAULT_PRICES && !(doc.vouchers.Some? && k in doc.vouchers.value) ==> d.vouchers[k] == []
    ensures forall k :: k in DEFAULT_PRICES && !(doc.prices.Some? && k in doc.prices.value) ==> d.prices[k] == DEFAULT_PRICES[k]
    ensures d.orders == doc.orders.GetOr([]) && d.users == doc.users.GetOr([])
  {
    var base := DefaultData();
    var vouchers := doc.vouchers.GetOr(base.vouchers);
    var prices := doc.prices.GetOr(base.prices);
    ghost var vouchers0, prices0 := vouchers, prices;
    assert forall k :: k in DEFAULT_DENOMS <==> k in DEFAULT_PRICES;
    for i := 0 to |DEFAULT_DENOMS|
      invariant forall k :: k in vouchers <==> k in vouchers0 || k in DEFAULT_DENOMS[..i]
      invariant forall k :: k in vouchers ==> vouchers[k] == if k in vouchers0 then vouchers0[k] else []
      invariant forall k :: k in prices <==> k in prices0 || k in DEFAULT_DENOMS[..i]
      invariant forall k :: k in prices ==> prices[k] == if k in prices0 then prices0[k] else DEFAULT_PRICES[k]
    {
      var den := DEFAULT_DENOMS[i];
      assert DEFAULT_DENOMS[..i + 1] == DEFAULT_DENOMS[..i] + [den];
      if den !in vouchers {
        vouchers := vouchers[den := []];
      }
      if den !in prices {
        prices := prices[den := DEFAULT_PRICES[den]];
      }
    }
    assert DEFAULT_DENOMS[..|DEFAULT_DENOMS|] == DEFAULT_DENOMS;
    d := Data(vouchers, prices, doc.orders.GetOr([]), doc.users.GetOr([]));
  }

  // ---------- users ----------

  /** `add_user` on the list of ids: append only when absent. */
  function WithUser(users: seq<int>, uid: int): (r: seq<int>)
    ensures uid in r
    ensures |users| <= |r| <= |users| + 1 && r[..|users|] == users
    ensures uid in users ==> r == users
    ensures forall x :: x in r ==> x == uid || x in users
  {
    if uid in users then users else users + [uid]
  }

  /** No id occurs twice. */
  predicate NoDuplicates<T(==)>(s: seq<T>) {
    forall i, j :: 0 <= i < j < |s| ==> s[i] != s[j]
  }

  /** Adding an id keeps the list free of repetitions, and the id then occurs exactly once. */
  lemma WithUserNoDuplicates(users: seq<int>, uid: int)
    requires NoDuplicates(users)
    ensures NoDuplicates(WithUser(users, uid))
    ensures multiset(WithUser(users, uid))[uid] == 1
  {
    var r := WithUser(users, uid);
    if uid in users {
      var k :| 0 <= k < |users| && users[k] == uid;
      MultisetOccursOnce(users, k);
    } else {
      assert multiset(r) == multiset(users) + multiset{uid};
    }
  }

  lemma {:induction false} MultisetOccursOnce<T>(s: seq<T>, k: nat)
    requires NoDuplicates(s) && k < |s|
    ensures multiset(s)[s[k]] == 1
  {
    var x := s[k];
    if k == |s| - 1 {
      assert s == s[..k] + [x];
      assert x !in s[..k];
    } else {
      var p := s[..|s| - 1];
      assert s == p + [s[|s| - 1]];
      assert NoDuplicates(p);
      MultisetOccursOnce(p, k);
      assert p[k] == x;
    }
  }

  /** `add_user` is idempotent. */
  lemma WithUserIdempotent(users: seq<int>, uid: int)
    ensures WithUser(WithUser(users, uid), uid) == WithUser(users, uid)
  {
  }

  // ---------- prices ----------

  /** `get_price`: the stored price, or 0 for a denomination without one. */
  function PriceOf(prices: map<int, int>, denom: int): (p: int)
    ensures denom !in prices ==> p == 0
    ensures denom in prices ==> p == prices[denom]
  {
    if denom in prices then prices[denom] else 0
  }

  /** After `set_price(d, p)`, `get_price(d) == p` and every other price is as before. */
  lemma SetPriceThenGet(prices: map<int, int>, denom: int, price: int)
    ensures PriceOf(prices[denom := price], denom) == price
    ensures forall e :: e != denom ==> PriceOf(prices[denom := price], e) == PriceOf(prices, e)
  {
  }

  /** Setting the same price twice leaves the same table as setting it once. */
  lemma SetPriceIdempotent(prices: map<int, int>, denom: int, price: int)
    ensures prices[denom := price][denom := price] == prices[denom := price]
  {
  }

  // ---------- vouchers ----------

  /** `vouchers_for`: a denomination's queue, empty when it has none. */
  function Queue(vouchers: map<int, seq<string>>, denom: int): (q: seq<string>)
    ensures denom !in vouchers ==> q == []
    ensures denom in vouchers ==> q == vouchers[denom]
  {
    if denom in vouchers then vouchers[denom] else []
  }

  /** `add_vouchers`: the codes go to the back of the denomination's queue, in order. */
  function Enqueue(vouchers: map<int, seq<string>>, denom: int, codes: seq<string>): (r: map<int, seq<string>>)
    ensures Queue(r, denom) == Queue(vouchers, denom) + codes
    ensures forall e :: e != denom ==> Queue(r, e) == Queue(vouchers, e)
    ensures r.Keys == vouchers.Keys + {denom}
  {
    vouchers[denom := Queue(vouchers, denom) + codes]
  }

  /**
   * `pop_voucher`: an empty or missing queue gives `None` and changes
   * nothing; otherwise the head comes out and the tail stays.
   */
  function Dequeue(vouchers: map<int, seq<string>>, denom: int): (r: (Option<string>, map<int, seq<string>>))
    ensures Queue(vouchers, denom) == [] <==> r.0 == None
    ensures r.0 == None ==> r.1 == vouchers
    ensures r.0 != None ==> r.0 == Some(Queue(vouchers, denom)[0]) && Queue(r.1, denom) == Queue(vouchers, denom)[1..]
    ensures forall e :: e != denom ==> Queue(r.1, e) == Queue(vouchers, e)
    ensures r.1.Keys == vouchers.Keys
  {
    var q := Queue(vouchers, denom);
    if q == [] then (None, vouchers) else (Some(q[0]), vouchers[denom := q[1..]])
  }

  /** `n` successive `pop_voucher` calls: the codes that came out, and the queues left. */
  function DequeueMany(vouchers: map<int, seq<string>>, denom: int, n: nat): (r: (seq<string>, map<int, seq<string>>))
    ensures |r.0| <= n
    ensures r.1.Keys == vouchers.Keys
    decreases n
  {
    if n == 0 then ([], vouchers)
    else
      var (code, rest) := Dequeue(vouchers, denom);
      match code
      case None => ([], vouchers)
      case Some(c) =>
        var (more, left) := DequeueMany(rest, denom, n - 1);
        ([c] + more, left)
  }

  /** `n` pops take the first `n` codes of the queue (or all of them) in queue order, and leave the rest. */
  lemma {:induction false} DequeueManyTakesPrefix(vouchers: map<int, seq<string>>, denom: int, n: nat)
    ensures var m := if n <= |Queue(vouchers, denom)| then n else |Queue(vouchers, denom)|;
      && DequeueMany(vouchers, denom, n).0 == Queue(vouchers, denom)[..m]
      && Queue(DequeueMany(vouchers, denom, n).1, denom) == Queue(vouchers, denom)[m..]
      && forall e :: e != denom ==> Queue(DequeueMany(vouchers, denom, n).1, e) == Queue(vouchers, e)
    decreases n
  {
    var q := Queue(vouchers, denom);
    if n > 0 && q != [] {
      var rest := Dequeue(vouchers, denom).1;
      DequeueManyTakesPrefix(rest, denom, n - 1);
      assert Queue(rest, denom) == q[1..];
    }
  }

  /**
   * First in, first out: after `add_vouchers(d, codes)`, popping every
   * code of d gives the codes that were there before, then `codes` in
   * the order they were added, and leaves d's queue empty.
   */
  lemma FifoOrder(vouchers: map<int, seq<string>>, denom: int, codes: seq<string>)
    ensures var n := |Queue(vouchers, denom)| + |codes|;
      && DequeueMany(Enqueue(vouchers, denom, codes), denom, n).0 == Queue(vouchers, denom) + codes
      && Queue(DequeueMany(Enqueue(vouchers, denom, codes), denom, n).1, denom) == []
  {
    var n := |Queue(vouchers, denom)| + |codes|;
    DequeueManyTakesPrefix(Enqueue(vouchers, denom, codes), denom, n);
    assert (Queue(vouchers, denom) + codes)[..n] == Queue(vouchers, denom) + codes;
  }

  /** No voucher code occurs twice, in one queue or across queues. */
  ghost predicate DistinctCodes(vouchers: map<int, seq<string>>) {
    forall d1, d2, i, j ::
      d1 in vouchers && d2 in vouchers && 0 <= i < |vouchers[d1]| && 0 <= j < |vouchers[d2]| && (d1 != d2 || i != j)
      ==> vouchers[d1][i] != vouchers[d2][j]
  }

  /** A code occurs in some queue. */
  ghost predicate InStock(vouchers: map<int, seq<string>>, code: string) {
    exists d :: d in vouchers && code in vouchers[d]
  }

  /**
   * While codes are distinct, a popped code is in no queue any more, and
   * the queues stay distinct: a code serves at most one order.
   */
  lemma DequeueRemovesCode(vouchers: map<int, seq<string>>, denom: int)
    requires DistinctCodes(vouchers)
    requires Dequeue(vouchers, denom).0.Some?
    ensures DistinctCodes(Dequeue(vouchers, denom).1)
    ensures !InStock(Dequeue(vouchers, denom).1, Dequeue(vouchers, denom).0.value)
  {
    var (code, rest) := Dequeue(vouchers, denom);
    var c := code.value;
    assert vouchers[denom][0] == c;
    forall d1, d2, i, j |
      d1 in rest && d2 in rest && 0 <= i < |rest[d1]| && 0 <= j < |rest[d2]| && (d1 != d2 || i != j)
      ensures rest[d1][i] != rest[d2][j]
    {
      var i' := if d1 == denom then i + 1 else i;
      var j' := if d2 == denom then j + 1 else j;
      assert rest[d1][i] == vouchers[d1][i'];
      assert rest[d2][j] == vouchers[d2][j'];
    }
    forall d, i | d in rest && 0 <= i < |rest[d]| ensures rest[d][i] != c {
      var i' := if d == denom then i + 1 else i;
      assert rest[d][i] == vouchers[d][i'];
    }
  }

  /**
   * `add_vouchers` does not look at the codes it is given: a code that is
   * already in stock is queued a second time.
   */
  lemma EnqueueAcceptsDuplicate()
    ensures var vouchers := map[1000 := ["A"], 2000 := []];
      DistinctCodes(vouchers) && !DistinctCodes(Enqueue(vouchers, 2000, ["A"]))
  {
    var vouchers := map[1000 := ["A"], 2000 := []];
    var after := Enqueue(vouchers, 2000, ["A"]);
    assert after[1000][0] == after[2000][0];
  }

  /** The number of codes per default denomination, as `stock_text` shows them. */
  function StockLevels(vouchers: map<int, seq<string>>): (levels: seq<(int, nat)>)
    ensures |levels| == |DEFAULT_DENOMS|
    ensures forall i :: 0 <= i < |levels| ==> levels[i].0 == DEFAULT_DENOMS[i]
  {
    seq(|DEFAULT_DENOMS|, i requires 0 <= i < |DEFAULT_DENOMS| => (DEFAULT_DENOMS[i], |Queue(vouchers, DEFAULT_DENOMS[i])|))
  }

  /** Adding codes raises the shown stock of that denomination by their number and no other. */
  lemma StockAfterEnqueue(vouchers: map<int, seq<string>>, denom: int, codes: seq<string>)
    ensures forall i :: 0 <= i < |DEFAULT_DENOMS| ==>
      StockLevels(Enqueue(vouchers, denom, codes))[i].1
        == StockLevels(vouchers)[i].1 + (if DEFAULT_DENOMS[i] == denom then |codes| else 0)
  {
  }

  /** A successful pop lowers the shown stock of that denomination by one and no other. */
  lemma StockAfterDequeue(vouchers: map<int, seq<string>>, denom: int)
    requires Dequeue(vouchers, denom).0.Some?
    ensures forall i :: 0 <= i < |DEFAULT_DENOMS| ==>
      StockLevels(Dequeue(vouchers, denom).1)[i].1 + (if DEFAULT_DENOMS[i] == denom then 1 else 0)
        == StockLevels(vouchers)[i].1
  {
  }

  // ---------- orders ----------

  /** `o.get("order_id") == order_id`. */
  predicate Matches(o: Order, orderId: string)
    ensures Matches(o, orderId) ==> "order_id" in o
  {
    "order_id" in o && o["order_id"] == Str(orderId)
  }

  /** `update_order`: merge `fields` into the first record whose id matches (if any). */
  function UpdateFirst(orders: seq<Order>, orderId: string, fields: Order): (r: seq<Order>)
    ensures |r| == |orders|
  {
    if orders == [] then []
    else if Matches(orders[0], orderId) then [orders[0] + fields] + orders[1..]
    else [orders[0]] + UpdateFirst(orders[1..], orderId, fields)
  }

  /** When record `k` is the first match, exactly that record gets the fields merged in. */
  lemma {:induction false} UpdateFirstAt(orders: seq<Order>, orderId: string, fields: Order, k: nat)
    requires k < |orders| && Matches(orders[k], orderId)
    requires forall j :: 0 <= j < k ==> !Matches(orders[j], orderId)
    ensures UpdateFirst(orders, orderId, fields) == orders[k := orders[k] + fields]
  {
    if k > 0 {
      UpdateFirstAt(orders[1..], orderId, fields, k - 1);
    }
  }

  /** When no record matches, the orders are unchanged. */
  lemma {:induction false} UpdateFirstNone(orders: seq<Order>, orderId: string, fields: Order)
    requires forall j :: 0 <= j < |orders| ==> !Matches(orders[j], orderId)
    ensures UpdateFirst(orders, orderId, fields) == orders
  {
    if orders != [] {
      UpdateFirstNone(orders[1..], orderId, fields);
    }
  }

  /** Merging fields keeps a record's id unless `fields` sets `order_id`, so later updates still find it. */
  lemma UpdateKeepsMatch(o: Order, orderId: string, fields: Order)
    requires Matches(o, orderId) && "order_id" !in fields
    ensures Matches(o + fields, orderId)
  {
  }

  /**
   * `orders[-limit:]` with Python's slice rules: the last `limit` records
   * for a positive limit (all when fewer), all of them for 0 (`[-0:]` is
   * `[0:]`), and all but the first `-limit` for a negative one.
   */
  function LastN<T>(s: seq<T>, limit: int): (r: seq<T>)
    ensures limit >= 1 ==> |r| == (if limit < |s| then limit else |s|)
    ensures limit == 0 ==> r == s
    ensures limit < 0 ==> r == s[(if -limit < |s| then -limit else |s|)..]
    ensures r == s[|s| - |r|..]
  {
    var start := -limit;
    var from := if start < 0 then (if |s| + start < 0 then 0 else |s| + start) else (if start < |s| then start else |s|);
    s[from..]
  }

  // ---------- the store ----------

  /** The global `DATA` of data_store.py. */
  class Store {
    var vouchers: map<int, seq<string>>
    var prices: map<int, int>
    var orders: seq<Order>
    var users: seq<int>

    ghost predicate Valid()
      reads this
    {
      HasDefaults(vouchers, prices)
    }

    /** `DATA = load_data()`, from a normalised document. */
    constructor FromData(d: Data)
      requires HasDefaults(d.vouchers, d.prices)
      ensures Valid()
      ensures vouchers == d.vouchers && prices == d.prices && orders == d.orders && users == d.users
    {
      vouchers, prices, orders, users := d.vouchers, d.prices, d.orders, d.users;
    }

    /** `add_user` */
    method AddUser(uid: int)
      requires Valid()
      modifies this`users
      ensures Valid()
      ensures users == WithUser(old(users), uid)
    {
      if uid !in users {
        users := users + [uid];
      }
    }

    /** `get_price` */
    function GetPrice(denom: int): (p: int)
      reads this
      ensures denom !in prices ==> p == 0
      ensures denom in prices ==> p == prices[denom]
    {
      PriceOf(prices, denom)
    }

    /** `set_price` */
    method SetPrice(denom: int, price: int)
      requires Valid()
      modifies this`prices
      ensures Valid()
      ensures prices == old(prices)[denom := price]
      ensures GetPrice(denom) == price
      ensures forall e :: e != denom ==> GetPrice(e) == old(GetPrice(e))
    {
      prices := prices[denom := price];
    }

    /** `vouchers_for` */
    function VouchersFor(denom: int): (q: seq<string>)
      reads this
      ensures denom !in vouchers ==> q == []
      ensures denom in vouchers ==> q == vouchers[denom]
    {
      Queue(vouchers, denom)
    }

    /** `add_vouchers` */
    method AddVouchers(denom: int, codes: seq<string>)
      requires Valid()
      modifies this`vouchers
      ensures Valid()
      ensures vouchers == Enqueue(old(vouchers), denom, codes)
      ensures VouchersFor(denom) == old(VouchersFor(denom)) + codes
    {
      var lst := VouchersFor(denom);
      lst := lst + codes;
      vouchers := vouchers[denom := lst];
    }

    /** `pop_voucher` */
    method PopVoucher(denom: int) returns (code: Option<string>)
      requires Valid()
      modifies this`vouchers
      ensures Valid()
      ensures (code, vouchers) == Dequeue(old(vouchers), denom)
    {
      var lst := VouchersFor(denom);
      if lst == [] {
        return None;
      }
      code := Some(lst[0]);
      vouchers := vouchers[denom := lst[1..]];
    }

    /** `stock_text`: the queue length of each default denomination. */
    function StockText(): (levels: seq<(int, nat)>)
      reads this
      ensures |levels| == |DEFAULT_DENOMS|
      ensures forall i :: 0 <= i < |levels| ==> levels[i] == (DEFAULT_DENOMS[i], |VouchersFor(DEFAULT_DENOMS[i])|)
    {
      StockLevels(vouchers)
    }

    /** `add_order` */
    method AddOrder(o: Order)
      requires Valid()
      modifies this`orders
      ensures Valid()
      ensures orders == old(orders) + [o]
    {
      orders := orders + [o];
    }

    /** `update_order`: the first record whose `order_id` matches gets `fields` merged in. */
    method UpdateOrder(orderId: string, fields: Order)
      requires Valid()
      modifies this`orders
      ensures Valid()
      ensures orders == UpdateFirst(old(orders), orderId, fields)
      ensures |orders| == |old(orders)|
    {
      var i := 0;
      while i < |orders|
        invariant 0 <= i <= |orders|
        invariant orders == old(orders)
        invariant forall j :: 0 <= j < i ==> !Matches(orders[j], orderId)
      {
        if Matches(orders[i], orderId) {
          UpdateFirstAt(orders, orderId, fields, i);
          orders := orders[i := orders[i] + fields];
          return;
        }
        i := i + 1;
      }
      UpdateFirstNone(orders, orderId, fields);
    }

    /** `list_orders` */
    function ListOrders(limit: int): (r: seq<Order>)
      reads this
      ensures r == LastN(orders, limit)
      ensures limit >= 1 ==> |r| <= limit
      ensures |r| <= |orders| && r == orders[|orders| - |r|..]
    {
      LastN(orders, limit)
    }
  }

  /** The order just added is the last one `list_orders` shows, for any positive limit. */
  lemma ListOrdersShowsNewest(orders: seq<Order>, o: Order, limit: int)
    requires limit >= 1
    ensures var shown := LastN(orders + [o], limit); |shown| >= 1 && shown[|shown| - 1] == o
  {
  }
}
