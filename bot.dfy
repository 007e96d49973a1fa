/**
 * The purchase conversation of the bot's stand-alone entry point (main.py):
 * per user, a session of four fields (`state`, `denom`, `qty`, `total`)
 * that the text handler and the button handler update one step at a
 * time. Replies are values naming what the user is shown; their
 * Markdown wording and keyboards are not modelled.
 */
module Bot {
  import opened Wrappers
  import opened Text

  const ADMIN_ID: int := 7757877833

  /** Unit price per denomination, in paise (40.0, 70.0 and 140.0 rupees). Never written by a handler. */
  const PRICES: map<int, int> := map[1000 := 4000, 2000 := 7000, 4000 := 14000]

  datatype StockEntry = StockEntry(available: nat, reserved: nat)

  /** The demo stock table. Never written by a handler. */
  const STOCK: map<int, StockEntry> := map[1000 := StockEntry(0, 0), 2000 := StockEntry(129, 0), 4000 := StockEntry(0, 0)]

  const MIN_QTY: int := 1
  const MAX_QTY: int := 20

  /** The texts of the three main-menu buttons. */
  const BUY_TEXT: string := "\U{1F6D2} Buy Vouchers"
  const STOCK_TEXT: string := "\U{1F4E6} Available Stock"
  const TICKET_TEXT: string := "\U{2753} Raise Ticket"

  /** The three menu texts are different from each other. */
  lemma MenuTextsDistinct()
    ensures BUY_TEXT != STOCK_TEXT && BUY_TEXT != TICKET_TEXT && STOCK_TEXT != TICKET_TEXT
  {
    assert BUY_TEXT[0] != TICKET_TEXT[0];
    assert |BUY_TEXT| != |STOCK_TEXT| && |STOCK_TEXT| != |TICKET_TEXT|;
  }

  predicate IsMenuText(text: string)
    ensures IsMenuText(text) ==> !IsDigits(text)
  {
    text == BUY_TEXT || text == STOCK_TEXT || text == TICKET_TEXT
  }

  /** The stored `state`: "ticket", "wait_quantity" or "tnc"; `None` in the session is no state. */
  datatype Stage = Ticket | WaitQuantity | Tnc

  /** What a handler shows the user (and, for a ticket, forwards to the admin). */
  datatype Reply =
    | Welcome
    | DenomMenu
    | StockReport(stock: map<int, StockEntry>)
    | TicketPrompt
    | TicketRecorded(forwarded: string)
    | InvalidNumber
    | QuantityOutOfRange
    | TermsAndSummary(denom: int, qty: int, priceEach: int, total: int)
    | NotUnderstood
    | Cancelled
    | DenomChosen(denom: int, available: nat, priceEach: int)
    | OrderExpired
    | PaymentSummary(denom: int, qty: int, priceEach: int, total: int)
    | Disagreed
    | NoReply
    | NotAuthorized
    | AdminStock(levels: seq<nat>)

  /** The outcome of reading a quantity: not a numeral, a number out of range, or a valid quantity. */
  datatype QuantityCheck = NotANumber | OutOfRange(n: nat) | Quantity(q: int)

  /** `text.isdigit()`, then `int(text)` and the range check against [1, 20]. */
  function CheckQuantity(text: string): (r: QuantityCheck)
    ensures r.NotANumber? <==> !IsDigits(text)
    ensures r.Quantity? <==> IsDigits(text) && MIN_QTY <= DigitsValue(text) <= MAX_QTY
    ensures r.Quantity? ==> r.q == DigitsValue(text) && MIN_QTY <= r.q <= MAX_QTY
    ensures r.OutOfRange? ==> r.n == DigitsValue(text) && (r.n < MIN_QTY || r.n > MAX_QTY)
  {
    if !IsDigits(text) then NotANumber
    else
      var n := DigitsValue(text);
      if n < MIN_QTY || n > MAX_QTY then OutOfRange(n) else Quantity(n)
  }

  /** A quantity typed as its decimal numeral is accepted exactly when it lies in [1, 20]. */
  lemma CheckQuantityOfNumeral(n: nat)
    ensures CheckQuantity(ShowNat(n)) == if MIN_QTY <= n <= MAX_QTY then Quantity(n) else OutOfRange(n)
  {
    DigitsValueShowNat(n);
  }

  /** A quantity typed with leading zeros counts as the number itself: "05" orders five. */
  lemma CheckQuantityLeadingZero(text: string)
    requires IsDigits(text)
    ensures CheckQuantity(['0'] + text) == CheckQuantity(text)
  {
    DigitsValueLeadingZero(text);
  }

  /** The total for `qty` vouchers of `denom`: `qty * PRICES[denom]`, exact in paise. */
  function Total(denom: int, qty: int): (t: int)
    requires denom in PRICES && MIN_QTY <= qty <= MAX_QTY
    ensures PRICES[denom] <= t <= MAX_QTY * PRICES[denom]
    ensures t % PRICES[denom] == 0 && t / PRICES[denom] == qty
  {
    qty * PRICES[denom]
  }

  /** The callback tag of a denomination button, `"denom_<d>"`. */
  function DenomTag(denom: nat): (tag: string)
    ensures |tag| > 6 && tag[..6] == "denom_"
    ensures IsDigits(tag[6..]) && DigitsValue(tag[6..]) == denom
  {
    DigitsValueShowNat(denom);
    "denom_" + ShowNat(denom)
  }

  /** `int(data.split("_")[1])` is defined and names a denomination with a price and a stock entry. */
  predicate DenomTagOk(data: string) {
    var parts := Split(data, '_');
    |parts| >= 2 && IsDigits(parts[1]) && DigitsValue(parts[1]) in PRICES
  }

  /** The denomination a `denom_` tag names. */
  function TagDenom(data: string): (d: int)
    requires DenomTagOk(data)
    ensures d in PRICES && d in STOCK
  {
    DigitsValue(Split(data, '_')[1])
  }

  /** The tag of every denomination button reads back as that denomination. */
  lemma DenomTagRoundTrip(denom: nat)
    requires denom in PRICES
    ensures StartsWith(DenomTag(denom), "denom_")
    ensures DenomTagOk(DenomTag(denom)) && TagDenom(DenomTag(denom)) == denom
  {
    ShowNatPlain(denom);
    assert DenomTag(denom) == "denom" + ['_'] + ShowNat(denom);
    SplitAtSep("denom", ShowNat(denom), '_');
    SplitNoSep("denom", '_');
    SplitNoSep(ShowNat(denom), '_');
    DigitsValueShowNat(denom);
  }

  /** A denomination button is none of the other buttons. */
  lemma DenomTagIsNoOtherButton(denom: nat)
    ensures DenomTag(denom) !in ["cancel", "agree", "disagree"]
  {
    assert DenomTag(denom)[0] == 'd';
    assert DenomTag(denom)[1] == 'e';
  }

  /** The fixed button payloads are not denomination tags and differ from one another. */
  lemma ButtonsDistinct()
    ensures !StartsWith("cancel", "denom_") && !StartsWith("agree", "denom_")
    ensures !StartsWith("disagree", "denom_")
    ensures "cancel" != "agree" && "cancel" != "disagree" && "agree" != "disagree"
  {
    assert "cancel"[0] != "denom_"[0];
    assert "agree"[0] != "denom_"[0];
    assert "disagree"[1] != "denom_"[1];
  }

  /** Python truthiness of an optional number: present and not zero. */
  predicate Truthy(x: Option<int>)
    ensures Truthy(x) ==> x.Some?
    ensures x == Some(0) ==> !Truthy(x)
  {
    x.Some? && x.value != 0
  }

  /** main.py's `admin` command: only the admin sees the available stock. */
  function AdminView(userId: int): (r: Reply)
    ensures r.NotAuthorized? <==> userId != ADMIN_ID
    ensures userId == ADMIN_ID ==> r.AdminStock?
    ensures r.AdminStock? ==> r.levels == [STOCK[1000].available, STOCK[2000].available, STOCK[4000].available]
  {
    if userId != ADMIN_ID then NotAuthorized
    else AdminStock([STOCK[1000].available, STOCK[2000].available, STOCK[4000].available])
  }

  /** One user's `context.user_data`. A key that is absent and a key holding `None` read alike. */
  class Conversation {
    var state: Option<Stage>
    var denom: Option<int>
    var qty: Option<int>
    var total: Option<int>

    /**
     * What every handler keeps: a chosen denomination has a price; a
     * quantity is in range and comes with its total; waiting for a
     * quantity means a denomination is chosen; showing the terms means
     * the total is the quantity times the unit price.
     */
    ghost predicate Valid()
      reads this
    {
      && (denom.Some? ==> denom.value in PRICES)
      && (qty.Some? <==> total.Some?)
      && (qty.Some? ==> MIN_QTY <= qty.value <= MAX_QTY)
      && (state == Some(WaitQuantity) ==> denom.Some?)
      && (state == Some(Tnc) ==> denom.Some? && qty.Some? && total == Some(Total(denom.value, qty.value)))
    }

    /** `context.user_data` is empty. */
    predicate IsCleared()
      reads this
    {
      state.None? && denom.None? && qty.None? && total.None?
    }

    constructor ()
      ensures Valid() && IsCleared()
    {
      state, denom, qty, total := None, None, None, None;
    }

    /** `start`: greets the user and clears the session. */
    method Start() returns (reply: Reply)
      modifies this
      ensures Valid() && IsCleared()
      ensures reply == Welcome
    {
      reply := Welcome;
      state, denom, qty, total := None, None, None, None;
    }

    /** `raise_ticket`: asks for the issue and waits for it. */
    method RaiseTicket() returns (reply: Reply)
      requires Valid()
      modifies this`state
      ensures Valid()
      ensures state == Some(Ticket)
      ensures reply == TicketPrompt
    {
      reply := TicketPrompt;
      state := Some(Ticket);
    }

    /**
     * `handle_text`: the menu texts are recognised first, whatever the
     * state; then a ticket description, then a quantity. `delivered`
     * says whether forwarding a ticket to the admin succeeds: when the send
     * fails, the handler stops with the state still "ticket" and no reply.
     */
    method HandleText(message: string, delivered: bool) returns (reply: Reply)
      requires Valid()
      modifies this
      ensures Valid()
      ensures denom == old(denom)
      ensures var text := Strip(message);
        && (text == BUY_TEXT ==> reply == DenomMenu && unchanged(this))
        && (text == STOCK_TEXT ==> reply == StockReport(STOCK) && unchanged(this))
        && (text == TICKET_TEXT ==>
              reply == TicketPrompt && state == Some(Ticket) && qty == old(qty) && total == old(total))
        && (!IsMenuText(text) && old(state) == Some(Ticket) && delivered ==>
              reply == TicketRecorded(text) && state.None? && qty == old(qty) && total == old(total))
        && (!IsMenuText(text) && old(state) == Some(Ticket) && !delivered ==>
              reply == NoReply && unchanged(this))
        && (!IsMenuText(text) && old(state) == Some(WaitQuantity) ==>
              match CheckQuantity(text)
              case NotANumber => reply == InvalidNumber && unchanged(this)
              case OutOfRange(_) => reply == QuantityOutOfRange && unchanged(this)
              case Quantity(q) =>
                && state == Some(Tnc) && qty == Some(q) && total == Some(Total(denom.value, q))
                && reply == TermsAndSummary(denom.value, q, PRICES[denom.value], Total(denom.value, q)))
        && (!IsMenuText(text) && old(state) != Some(Ticket) && old(state) != Some(WaitQuantity) ==>
              reply == NotUnderstood && unchanged(this))
    {
      var text := Strip(message);
      MenuTextsDistinct();
      if text == BUY_TEXT {
        return DenomMenu;
      }
      if text == STOCK_TEXT {
        return StockReport(STOCK);
      }
      if text == TICKET_TEXT {
        reply := RaiseTicket();
        return;
      }
      if state == Some(Ticket) {
        if !delivered {
          return NoReply;
        }
        state := None;
        return TicketRecorded(text);
      }
      if state == Some(WaitQuantity) {
        var check := CheckQuantity(text);
        match check
        case NotANumber =>
          return InvalidNumber;
        case OutOfRange(_) =>
          return QuantityOutOfRange;
        case Quantity(q) =>
          var d := denom.value;
          var priceEach := PRICES[d];
          var t := q * priceEach;
          qty := Some(q);
          total := Some(t);
          state := Some(Tnc);
          return TermsAndSummary(d, q, priceEach, t);
      }
      return NotUnderstood;
    }

    /**
     * `callback_buttons`: cancel, a denomination button, agree and
     * disagree; any other tag is ignored.
     */
    method CallbackButtons(data: string) returns (reply: Reply)
      requires Valid()
      requires StartsWith(data, "denom_") ==> DenomTagOk(data)
      modifies this
      ensures Valid()
      ensures (data == "cancel" || data == "disagree") ==>
        IsCleared() && reply == (if data == "cancel" then Cancelled else Disagreed)
      ensures StartsWith(data, "denom_") ==>
        var d := TagDenom(data);
        && denom == Some(d) && state == Some(WaitQuantity) && qty == old(qty) && total == old(total)
        && reply == DenomChosen(d, STOCK[d].available, PRICES[d])
      ensures data == "agree" && !(Truthy(old(denom)) && Truthy(old(qty))) ==>
        IsCleared() && reply == OrderExpired
      ensures data == "agree" && Truthy(old(denom)) && Truthy(old(qty)) ==>
        && state.None? && denom == old(denom) && qty == old(qty) && total == old(total)
        && reply == PaymentSummary(denom.value, qty.value, PRICES[denom.value], total.value)
      ensures data !in ["cancel", "agree", "disagree"] && !StartsWith(data, "denom_") ==>
        reply == NoReply && unchanged(this)
    {
      ButtonsDistinct();
      if data == "cancel" {
        state, denom, qty, total := None, None, None, None;
        return Cancelled;
      }
      if StartsWith(data, "denom_") {
        var d := TagDenom(data);
        denom := Some(d);
        state := Some(WaitQuantity);
        return DenomChosen(d, STOCK[d].available, PRICES[d]);
      }
      if data == "agree" {
        if !Truthy(denom) || !Truthy(qty) {
          state, denom, qty, total := None, None, None, None;
          return OrderExpired;
        }
        reply := PaymentSummary(denom.value, qty.value, PRICES[denom.value], total.value);
        state := None;
        return;
      }
      if data == "disagree" {
        state, denom, qty, total := None, None, None, None;
        return Disagreed;
      }
      return NoReply;
    }
  }

  /**
   * The example purchase: the ₹2000 button, quantity "3", then "I Agree"
   * gives a payment summary of 3 × 70.00 = 210.00.
   */
  method PurchaseExample() returns (reply: Reply)
    ensures reply == PaymentSummary(2000, 3, 7000, 21000)
  {
    var c := new Conversation();
    DenomTagRoundTrip(2000);
    DenomTagIsNoOtherButton(2000);
    reply := c.CallbackButtons(DenomTag(2000));
    assert c.denom == Some(2000) && c.state == Some(WaitQuantity);
    var three := ShowNat(3);
    StripOfStripped(three);
    ShowNatPlain(3);
    CheckQuantityOfNumeral(3);
    assert !IsMenuText(three) by {
      assert |three| == 1;
    }
    reply := c.HandleText(three, true);
    assert c.qty == Some(3) && c.total == Some(21000);
    reply := c.CallbackButtons("agree");
  }

  /**
   * "I Agree" does not check that the terms are being shown: pressing it
   * on an old summary after choosing another denomination shows the new
   * unit price with the total computed for the earlier one (₹1000 × 2 =
   * 80.00, then ₹4000 at 140.00 each, still 80.00).
   */
  method StaleTotalExample() returns (reply: Reply)
    ensures reply.PaymentSummary?
    ensures reply == PaymentSummary(4000, 2, 14000, 8000)
    ensures reply.total != reply.qty * reply.priceEach
  {
    var c := new Conversation();
    DenomTagRoundTrip(1000);
    DenomTagIsNoOtherButton(1000);
    reply := c.CallbackButtons(DenomTag(1000));
    assert c.denom == Some(1000) && c.state == Some(WaitQuantity);
    var two := ShowNat(2);
    StripOfStripped(two);
    ShowNatPlain(2);
    CheckQuantityOfNumeral(2);
    assert !IsMenuText(two) by {
      assert |two| == 1;
    }
    reply := c.HandleText(two, true);
    assert c.qty == Some(2) && c.total == Some(8000);
    DenomTagRoundTrip(4000);
    DenomTagIsNoOtherButton(4000);
    reply := c.CallbackButtons(DenomTag(4000));
    assert c.denom == Some(4000) && c.qty == Some(2) && c.total == Some(8000);
    reply := c.CallbackButtons("agree");
  }
}
