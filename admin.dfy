/**
 * The admin handlers (Admin.py), over the store. Only the user whose id
 * is the configured admin id gets past a handler's first check. The
 * admin's session keeps one field, `state`, which is `"admin_add_<d>"`
 * while the panel waits for voucher codes of denomination d.
 */
module Admin {
  import opened Wrappers
  import opened Text
  import opened DataStore

  /** How many orders the orders view shows. */
  const ORDERS_SHOWN: int := 10

  /** The state prefix and callback prefix of the "add vouchers" flow. */
  const ADD_PREFIX: string := "admin_add_"

  /** What an admin handler shows. */
  datatype Reply =
    | Silent
    | NotAuthorized
    | NotAdminAlert
    | Panel
    | StockView(levels: seq<(int, nat)>)
    | OrdersView(orders: seq<Order>)
    | CodePrompt(denom: int)
    | NoCodesFound
    | CodesAdded(count: nat, denom: int, stock: seq<(int, nat)>)
    | SetPriceUsage
    | SetPriceInvalid
    | PriceSet(denom: int, price: int, current: seq<int>)
    | BroadcastUsage
    | BroadcastSent(sent: nat)

  // ---------- voucher codes in a message ----------

  /** A piece holds neither separator. */
  predicate NoSeparator(s: string) {
    ',' !in s && '\n' !in s
  }

  /** A code as the parser produces it: non-empty, no separator, no surrounding whitespace. */
  predicate WellFormedCode(c: string) {
    c != [] && NoSeparator(c) && IsStripped(c)
  }

  /** Every code of the list is well formed. */
  predicate AllWellFormed(codes: seq<string>) {
    forall i :: 0 <= i < |codes| ==> WellFormedCode(codes[i])
  }

  /** `[c.strip() for c in pieces if c.strip()]` */
  function StrippedNonEmpty(pieces: seq<string>): (codes: seq<string>)
    ensures |codes| <= |pieces|
  {
    if pieces == [] then []
    else
      var c := Strip(pieces[0]);
      (if c != [] then [c] else []) + StrippedNonEmpty(pieces[1..])
  }

  /** Pieces without separators give well-formed codes. */
  lemma {:induction false} StrippedNonEmptyWellFormed(pieces: seq<string>)
    requires forall j :: 0 <= j < |pieces| ==> NoSeparator(pieces[j])
    ensures AllWellFormed(StrippedNonEmpty(pieces))
  {
    if pieces != [] {
      StrippedNonEmptyWellFormed(pieces[1..]);
      StripKeepsMiddle(pieces[0]);
    }
  }

  /**
   * The codes in the text of an admin message: newlines become commas,
   * the text is split at commas, every piece is stripped, and empty pieces
   * are dropped; the rest keep their order.
   */
  function ParseCodes(text: string): (codes: seq<string>)
    ensures text == [] ==> codes == []
  {
    StrippedNonEmpty(Split(ReplaceChar(text, '\n', ','), ','))
  }

  /**
   * Every parsed code is non-empty, holds no comma and no newline, and
   * has no whitespace at either end.
   */
  lemma ParseCodesWellFormed(text: string)
    ensures AllWellFormed(ParseCodes(text))
  {
    var raw := ReplaceChar(text, '\n', ',');
    var pieces := Split(raw, ',');
    SplitPieces(raw, ',');
    assert '\n' !in raw;
    StrippedNonEmptyWellFormed(pieces);
  }

  /** Codes that are already well formed pass through the strip-and-drop step unchanged. */
  lemma {:induction false} StrippedNonEmptyKeeps(codes: seq<string>)
    requires AllWellFormed(codes)
    ensures StrippedNonEmpty(codes) == codes
  {
    if codes != [] {
      StripOfStripped(codes[0]);
      StrippedNonEmptyKeeps(codes[1..]);
    }
  }

  /** Joined well-formed codes have no whitespace at either end. */
  lemma {:induction false} JoinStripped(codes: seq<string>, sep: char)
    requires |codes| >= 1
    requires AllWellFormed(codes)
    ensures Join(codes, sep) != [] && IsStripped(Join(codes, sep))
  {
    if |codes| > 1 {
      JoinStripped(codes[1..], sep);
      var rest := Join(codes[1..], sep);
      var s := codes[0] + [sep] + rest;
      assert s[0] == codes[0][0];
      assert s[|s| - 1] == rest[|rest| - 1];
    }
  }

  /** Newlines between pieces that hold no separator read the same as commas. */
  lemma {:induction false} NewlinesAsCommas(codes: seq<string>)
    requires forall j :: 0 <= j < |codes| ==> NoSeparator(codes[j])
    ensures ReplaceChar(Join(codes, '\n'), '\n', ',') == Join(codes, ',')
    ensures '\n' !in Join(codes, ',')
  {
    if |codes| == 1 {
      ReplaceAbsent(codes[0], '\n', ',');
    } else if |codes| > 1 {
      NewlinesAsCommas(codes[1..]);
      ReplaceConcat(codes[0] + ['\n'], Join(codes[1..], '\n'), '\n', ',');
      ReplaceConcat(codes[0], ['\n'], '\n', ',');
      ReplaceAbsent(codes[0], '\n', ',');
    }
  }

  /** The strip-and-drop step works piece by piece: it distributes over concatenation. */
  lemma {:induction false} StrippedNonEmptyConcat(a: seq<string>, b: seq<string>)
    ensures StrippedNonEmpty(a + b) == StrippedNonEmpty(a) + StrippedNonEmpty(b)
  {
    if a == [] {
      assert a + b == b;
    } else {
      assert (a + b)[1..] == a[1..] + b;
      StrippedNonEmptyConcat(a[1..], b);
    }
  }

  /**
   * Any pieces without separators, sent one per line or separated by
   * commas, parse to exactly their non-empty stripped forms, in order:
   * padding around a piece is dropped and blank pieces vanish.
   */
  lemma ParseCodesOfJoin(pieces: seq<string>, sep: char)
    requires sep == ',' || sep == '\n'
    requires |pieces| >= 1
    requires forall j :: 0 <= j < |pieces| ==> NoSeparator(pieces[j])
    ensures ParseCodes(Join(pieces, sep)) == StrippedNonEmpty(pieces)
  {
    NewlinesAsCommas(pieces);
    ReplaceAbsent(Join(pieces, ','), '\n', ',');
    SplitJoin(pieces, ',');
  }

  /** A space after a comma is dropped: "A, B" gives the codes A and B. */
  lemma ParseCodesSpaceAfterComma(a: string, b: string)
    requires WellFormedCode(a) && WellFormedCode(b)
    ensures ParseCodes(a + ", " + b) == [a, b]
  {
    var padded := [' '] + b;
    var pieces := [a, padded];
    assert Join(pieces, ',') == a + ", " + b;
    ParseCodesOfJoin(pieces, ',');
    StripOfStripped(a);
    StripOfStripped(b);
    assert StripLeft(padded) == StripLeft(b) by {
      assert padded[1..] == b;
    }
    assert Strip(padded) == b;
    StrippedNonEmptyConcat([a], [padded]);
  }

  /** A blank line between codes is dropped: "A\n\nB" gives the codes A and B. */
  lemma ParseCodesBlankLine(a: string, b: string)
    requires WellFormedCode(a) && WellFormedCode(b)
    ensures ParseCodes(a + "\n\n" + b) == [a, b]
  {
    var pieces := [a, [], b];
    assert pieces[1..] == [[], b] && pieces[1..][1..] == [b];
    assert Join([[], b], '\n') == ['\n'] + b;
    assert Join(pieces, '\n') == a + "\n\n" + b;
    ParseCodesOfJoin(pieces, '\n');
    StripOfStripped(a);
    StripOfStripped([]);
    StripOfStripped(b);
    StrippedNonEmptyConcat([a], [[], b]);
    StrippedNonEmptyConcat([[]], [b]);
  }

  /**
   * Codes sent one per line, or separated by commas, are read back as
   * exactly those codes in that order, provided each is well formed.
   */
  lemma CodesRoundTrip(codes: seq<string>, sep: char)
    requires sep == ',' || sep == '\n'
    requires AllWellFormed(codes)
    ensures ParseCodes(Strip(Join(codes, sep))) == codes
  {
    var text := Join(codes, sep);
    if codes == [] {
      assert Strip(text) == [];
      assert Split([], ',') == [[]];
      assert StrippedNonEmpty([[]]) == [];
    } else {
      JoinStripped(codes, sep);
      StripOfStripped(text);
      NewlinesAsCommas(codes);
      ReplaceAbsent(Join(codes, ','), '\n', ',');
      SplitJoin(codes, ',');
      StrippedNonEmptyKeeps(codes);
    }
  }

  /** A message holding only separators and whitespace yields no codes. */
  lemma BlankMessageHasNoCodes(text: string)
    requires forall k :: 0 <= k < |text| ==> IsWhitespace(text[k]) || text[k] == ','
    ensures ParseCodes(text) == []
  {
    var raw := ReplaceChar(text, '\n', ',');
    var pieces := Split(raw, ',');
    SplitPieces(raw, ',');
    forall j | 0 <= j < |pieces| ensures Strip(pieces[j]) == [] {
      StripKeepsMiddle(pieces[j]);
      forall k | 0 <= k < |pieces[j]| ensures IsWhitespace(pieces[j][k]) {
        var c := pieces[j][k];
        assert c in raw;
        var m :| 0 <= m < |raw| && raw[m] == c;
      }
    }
    AllBlankDropped(pieces);
  }

  /** Pieces that strip to nothing are all dropped. */
  lemma {:induction false} AllBlankDropped(pieces: seq<string>)
    requires forall j :: 0 <= j < |pieces| ==> Strip(pieces[j]) == []
    ensures StrippedNonEmpty(pieces) == []
  {
    if pieces != [] {
      AllBlankDropped(pieces[1..]);
    }
  }

  // ---------- the "add vouchers" state ----------

  /** `"admin_add_<d>"` */
  function AddState(denom: nat): (s: string)
    ensures |s| > |ADD_PREFIX| && s[..|ADD_PREFIX|] == ADD_PREFIX
    ensures s[|ADD_PREFIX|..] == ShowNat(denom) && IsDigits(s[|ADD_PREFIX|..])
  {
    ADD_PREFIX + ShowNat(denom)
  }

  /** `int(s.split("_")[-1])` is defined. */
  predicate AddStateOk(s: string) {
    IsDigits(LastSegment(s, '_'))
  }

  /** The denomination `int(s.split("_")[-1])`. */
  function AddDenom(s: string): (d: nat)
    requires AddStateOk(s)
    ensures StartsWith(s, ADD_PREFIX) && IsDigits(s[|ADD_PREFIX|..]) ==> d == DigitsValue(s[|ADD_PREFIX|..])
  {
    if StartsWith(s, ADD_PREFIX) && IsDigits(s[|ADD_PREFIX|..]) then
      var digits := s[|ADD_PREFIX|..];
      assert s == "admin_add" + ['_'] + digits;
      NumeralIsOnePiece(digits, '_');
      SplitAtSep("admin_add", digits, '_');
      DigitsValue(LastSegment(s, '_'))
    else DigitsValue(LastSegment(s, '_'))
  }

  /** The state written for denomination d reads back as d. */
  lemma AddStateRoundTrip(denom: nat)
    ensures StartsWith(AddState(denom), ADD_PREFIX)
    ensures AddStateOk(AddState(denom)) && AddDenom(AddState(denom)) == denom
  {
    ShowNatPlain(denom);
    assert AddState(denom) == "admin_add" + ['_'] + ShowNat(denom);
    LastSegmentAfterSep("admin_add", ShowNat(denom), '_');
    DigitsValueShowNat(denom);
  }

  /** The session is in the "add vouchers" flow: `state and state.startswith("admin_add_")`. */
  predicate InAddFlow(state: Option<string>)
    ensures InAddFlow(state) ==> state.Some? && |state.value| >= |ADD_PREFIX|
    ensures state == Some(ADD_PREFIX) ==> InAddFlow(state)
  {
    state.Some? && StartsWith(state.value, ADD_PREFIX)
  }

  // ---------- the panel ----------

  class AdminPanel {
    /** `ADMIN_ID` from the configuration. */
    const adminId: int
    const store: Store
    /** The admin's `context.user_data["state"]`. */
    var state: Option<string>

    ghost predicate Valid()
      reads this, store
    {
      store.Valid() && (InAddFlow(state) ==> AddStateOk(state.value))
    }

    constructor (adminId: int, store: Store)
      requires store.Valid()
      ensures Valid()
      ensures this.adminId == adminId && this.store == store && state.None?
    {
      this.adminId := adminId;
      this.store := store;
      state := None;
    }

    /** `admin_command`: the admin gets the panel and leaves any flow. */
    method AdminCommand(userId: int) returns (reply: Reply)
      requires Valid()
      modifies this`state
      ensures Valid()
      ensures userId != adminId ==> reply == NotAuthorized && state == old(state)
      ensures userId == adminId ==> reply == Panel && state.None?
    {
      if userId != adminId {
        return NotAuthorized;
      }
      state := None;
      return Panel;
    }

    /** `admin_callback`: the stock view, the orders view, or the start of the "add vouchers" flow. */
    method AdminCallback(userId: int, data: string) returns (reply: Reply)
      requires Valid()
      requires StartsWith(data, ADD_PREFIX) ==> AddStateOk(data)
      modifies this`state
      ensures Valid()
      ensures userId != adminId ==> reply == NotAdminAlert && state == old(state)
      ensures userId == adminId && data == "admin_stock" ==>
        reply == StockView(StockLevels(store.vouchers)) && state == old(state)
      ensures userId == adminId && data == "admin_orders" ==>
        reply == OrdersView(LastN(store.orders, ORDERS_SHOWN)) && state == old(state)
      ensures reply.OrdersView? ==> |reply.orders| <= ORDERS_SHOWN
      ensures userId == adminId && StartsWith(data, ADD_PREFIX) ==>
        state == Some(AddState(AddDenom(data))) && reply == CodePrompt(AddDenom(data))
      ensures userId == adminId && data != "admin_stock" && data != "admin_orders" && !StartsWith(data, ADD_PREFIX) ==>
        reply == Silent && state == old(state)
    {
      if userId != adminId {
        return NotAdminAlert;
      }
      assert "admin_stock"[6] != ADD_PREFIX[6] && "admin_orders"[6] != ADD_PREFIX[6];
      if data == "admin_stock" {
        return StockView(StockLevels(store.vouchers));
      }
      if data == "admin_orders" {
        return OrdersView(store.ListOrders(ORDERS_SHOWN));
      }
      if StartsWith(data, ADD_PREFIX) {
        var denom := AddDenom(data);
        AddStateRoundTrip(denom);
        state := Some(AddState(denom));
        return CodePrompt(denom);
      }
      return Silent;
    }

    /** `admin_text`: in the "add vouchers" flow, the codes of the message are queued. */
    method AdminText(userId: int, message: string) returns (reply: Reply)
      requires Valid()
      modifies this`state, store`vouchers
      ensures Valid()
      ensures userId != adminId || !InAddFlow(old(state)) ==>
        reply == Silent && state == old(state) && store.vouchers == old(store.vouchers)
      ensures userId == adminId && InAddFlow(old(state)) && ParseCodes(Strip(message)) == [] ==>
        reply == NoCodesFound && state == old(state) && store.vouchers == old(store.vouchers)
      ensures userId == adminId && InAddFlow(old(state)) && ParseCodes(Strip(message)) != [] ==>
        var denom := AddDenom(old(state).value);
        var codes := ParseCodes(Strip(message));
        && store.vouchers == Enqueue(old(store.vouchers), denom, codes)
        && state.None?
        && reply == CodesAdded(|codes|, denom, StockLevels(store.vouchers))
    {
      if userId != adminId {
        return Silent;
      }
      if !InAddFlow(state) {
        return Silent;
      }
      var text := Strip(message);
      var denom := AddDenom(state.value);
      var codes := ParseCodes(text);
      if codes == [] {
        return NoCodesFound;
      }
      store.AddVouchers(denom, codes);
      reply := CodesAdded(|codes|, denom, StockLevels(store.vouchers));
      state := None;
    }

    /** `setprice_cmd`: `/setprice <denom> <price>`. */
    method SetPriceCmd(userId: int, args: seq<string>) returns (reply: Reply)
      requires Valid()
      modifies store`prices
      ensures Valid()
      ensures userId != adminId ==> reply == Silent && store.prices == old(store.prices)
      ensures userId == adminId && |args| != 2 ==> reply == SetPriceUsage && store.prices == old(store.prices)
      ensures userId == adminId && |args| == 2 && (ParseInt(args[0]).None? || ParseAmount(args[1]).None?) ==>
        reply == SetPriceInvalid && store.prices == old(store.prices)
      ensures userId == adminId && |args| == 2 && ParseInt(args[0]).Some? && ParseAmount(args[1]).Some? ==>
        var denom, price := ParseInt(args[0]).value, ParseAmount(args[1]).value;
        && store.prices == old(store.prices)[denom := price]
        && reply == PriceSet(denom, price, [store.GetPrice(1000), store.GetPrice(2000), store.GetPrice(4000)])
      // the store keeps a price for every default denomination, so the report never shows a missing 0
      ensures reply.PriceSet? ==>
        && 1000 in store.prices && 2000 in store.prices && 4000 in store.prices
        && reply.current == [store.prices[1000], store.prices[2000], store.prices[4000]]
    {
      if userId != adminId {
        return Silent;
      }
      if |args| != 2 {
        return SetPriceUsage;
      }
      var denom := ParseInt(args[0]);
      var price := ParseAmount(args[1]);
      if denom.None? || price.None? {
        return SetPriceInvalid;
      }
      store.SetPrice(denom.value, price.value);
      return PriceSet(denom.value, price.value, [store.GetPrice(1000), store.GetPrice(2000), store.GetPrice(4000)]);
    }

    /**
     * `broadcast_cmd`: every known user is sent the message, in order;
     * `delivered[i]` says whether the send to the i-th user succeeded. A
     * failed send does not stop the loop. The count shown is the number
     * of successful sends.
     */
    method BroadcastCmd(userId: int, args: seq<string>, delivered: seq<bool>) returns (reply: Reply, attempted: seq<int>)
      requires |delivered| == |store.users|
      ensures userId != adminId ==> reply == Silent && attempted == []
      ensures userId == adminId && args == [] ==> reply == BroadcastUsage && attempted == []
      ensures userId == adminId && args != [] ==>
        attempted == store.users && reply == BroadcastSent(multiset(delivered)[true])
      ensures reply.BroadcastSent? ==> reply.sent <= |store.users|
    {
      attempted := [];
      if userId != adminId {
        return Silent, attempted;
      }
      if args == [] {
        return BroadcastUsage, attempted;
      }
      var users := store.users;
      var count := 0;
      for i := 0 to |users|
        invariant attempted == users[..i]
        invariant count == multiset(delivered[..i])[true]
        invariant count <= i
      {
        attempted := attempted + [users[i]];
        assert delivered[..i + 1] == delivered[..i] + [delivered[i]];
        if delivered[i] {
          count := count + 1;
        }
      }
      assert delivered[..|users|] == delivered;
      return BroadcastSent(count), attempted;
    }
  }
}
