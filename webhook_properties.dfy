/**
 * What the handler promises, stated about `Step` (one message) and `Run` (a
 * batch): the effect of each command on the tables and the reply it sends,
 * the routing of the reply buttons, and invariants that hold over any batch.
 */
module WebhookProperties {
  import opened Wrappers
  import opened Text
  import opened Cart
  import opened Catalog
  import opened Webhook

  /** The four tables of `t` are those of `s`; only the outbox may differ. */
  predicate SameTables(s: BotState, t: BotState) {
    && t.sessions == s.sessions
    && t.orders == s.orders
    && t.adminOrders == s.adminOrders
    && t.loyaltyPoints == s.loyaltyPoints
  }

  // ---------------------------------------------------------------------------
  // Input normalisation and routing
  // ---------------------------------------------------------------------------

  /** Each keyword selects its own branch, and nothing else does. */
  lemma ClassifyIsExactMatch(input: Option<string>)
    ensures Classify(input) == ShowMenu <==> input == Some("menu")
    ensures Classify(input) == ShowCart <==> input == Some("cart")
    ensures Classify(input) == Checkout <==> input == Some("checkout")
    ensures Classify(input) == Confirm <==> input == Some("confirm")
    ensures Classify(input) == TrackOrder <==> input == Some("track order")
    ensures Classify(input) == ShowPoints <==> input == Some("loyalty points")
  {
  }

  /** A non-empty button id is the input, whatever text comes with it. */
  lemma ButtonTakesPrecedence(m: Inbound)
    requires m.buttonId.Some? && m.buttonId.value != ""
    ensures UserInput(m) == m.buttonId
  {
  }

  /** Without a button, the text is matched lower-cased and trimmed. */
  lemma TextIsNormalised(from: string, body: string)
    ensures UserInput(Inbound(from, Some(body), None)) == Some(Trim(Lower(body)))
    ensures UserInput(Inbound(from, Some(body), Some(""))) == Some(Trim(Lower(body)))
  {
  }

  /** The branch a press of button `caption` selects, whatever text comes with it. */
  function Pressed(from: string, text: Option<string>, caption: string): Command {
    Classify(UserInput(Inbound(from, text, Some(ButtonId(caption)))))
  }

  /** The welcome's buttons "Menu", "Cart" and "Loyalty Points" reach the branches they name. */
  lemma WelcomeButtonsRoute(from: string, text: Option<string>)
    ensures Pressed(from, text, WelcomeButtons[0]) == ShowMenu
    ensures Pressed(from, text, WelcomeButtons[1]) == ShowCart
    ensures Pressed(from, text, WelcomeButtons[2]) == ShowPoints
  {
    assert ButtonId("Menu") == "menu";
    assert ButtonId("Cart") == "cart";
    assert ButtonId("Loyalty Points") == "loyalty points";
  }

  /** The menu's buttons "Add to Cart" and "View Cart" reach no branch. */
  lemma MenuButtonsRouteNowhere(from: string, text: Option<string>)
    ensures Pressed(from, text, MenuButtons[0]) == Unrecognized
    ensures Pressed(from, text, MenuButtons[1]) == Unrecognized
  {
    assert ButtonId("Add to Cart") == "add to cart";
    assert ButtonId("View Cart") == "view cart";
  }

  /** The cart's buttons "Confirm Order" and "Modify Order" reach no branch. */
  lemma CartButtonsRouteNowhere(from: string, text: Option<string>)
    ensures Pressed(from, text, CartButtons[0]) == Unrecognized
    ensures Pressed(from, text, CartButtons[1]) == Unrecognized
  {
    assert ButtonId("Confirm Order") == "confirm order";
    assert ButtonId("Modify Order") == "modify order";
  }

  /** Of the summary's buttons, "Confirm" confirms and "Cancel" reaches no branch. */
  lemma SummaryButtonsRoute(from: string, text: Option<string>)
    ensures Pressed(from, text, SummaryButtons[0]) == Confirm
    ensures Pressed(from, text, SummaryButtons[1]) == Unrecognized
  {
    assert ButtonId("Confirm") == "confirm";
    assert ButtonId("Cancel") == "cancel";
  }

  /** The confirmation's button "Track Order" reaches "track order". */
  lemma ConfirmedButtonRoutes(from: string, text: Option<string>)
    ensures Pressed(from, text, ConfirmedButtons[0]) == TrackOrder
  {
    assert ButtonId("Track Order") == "track order";
  }

  // ---------------------------------------------------------------------------
  // One message
  // ---------------------------------------------------------------------------

  /**
   * A sender without a session gets a fresh "greeting" session with an empty
   * cart and the welcome, and the input itself is not looked at.
   */
  lemma FirstContact(s: BotState, m: Inbound)
    requires m.from !in s.sessions
    ensures var t := Step(s, m);
      && t.sessions == s.sessions[m.from := Session(Greeting, [])]
      && t.orders == s.orders && t.adminOrders == s.adminOrders
      && t.loyaltyPoints == s.loyaltyPoints
      && t.outbox == s.outbox + [Outgoing(m.from, Welcome, WelcomeButtons)]
  {
  }

  /** "menu" moves the session to "ordering", keeps its cart, and sends the menu. */
  lemma MenuCommand(s: BotState, m: Inbound)
    requires m.from in s.sessions && UserInput(m) == Some("menu")
    ensures var t := Step(s, m);
      && t.sessions == s.sessions[m.from := Session(Ordering, s.sessions[m.from].order)]
      && t.orders == s.orders && t.adminOrders == s.adminOrders
      && t.loyaltyPoints == s.loyaltyPoints
      && t.outbox == s.outbox + [Outgoing(m.from, MenuText(MENU_ITEMS), MenuButtons)]
  {
  }

  /**
   * "cart" lists every line of the session's cart in order and reports the sum
   * of price times quantity; nothing else changes.
   */
  lemma CartCommand(s: BotState, m: Inbound)
    requires m.from in s.sessions && UserInput(m) == Some("cart")
    ensures var t := Step(s, m); var cart := s.sessions[m.from].order;
      && SameTables(s, t)
      && t.outbox == s.outbox + [Outgoing(m.from,
           CartHeader + LinesText(cart) + TotalLine(CartTotal(cart)), CartButtons)]
  {
  }

  /** "checkout" on an empty cart sends only the empty-cart notice and changes nothing. */
  lemma CheckoutEmptyCart(s: BotState, m: Inbound)
    requires m.from in s.sessions && UserInput(m) == Some("checkout")
    requires s.sessions[m.from].order == []
    ensures var t := Step(s, m);
      SameTables(s, t) && t.outbox == s.outbox + [Outgoing(m.from, EmptyCart, [])]
  {
  }

  /**
   * "checkout" on a cart with lines sends the same lines and the same total as
   * "cart" would, under the summary header and followed by the question; the
   * stage and every table stay as they were.
   */
  lemma CheckoutAgreesWithCart(s: BotState, checkout: Inbound, cart: Inbound)
    requires checkout.from == cart.from && checkout.from in s.sessions
    requires UserInput(checkout) == Some("checkout") && UserInput(cart) == Some("cart")
    requires s.sessions[checkout.from].order != []
    ensures var t := Step(s, checkout);
      var body := LinesText(s.sessions[checkout.from].order)
                  + TotalLine(CartTotal(s.sessions[checkout.from].order));
      && SameTables(s, t)
      && t.outbox == s.outbox + [Outgoing(checkout.from, SummaryHeader + body + ConfirmPrompt, SummaryButtons)]
      && Step(s, cart).outbox == s.outbox + [Outgoing(cart.from, CartHeader + body, CartButtons)]
  {
    var order := s.sessions[checkout.from].order;
    var lines, total := LinesText(order), TotalLine(CartTotal(order));
    assert SummaryHeader + lines + total + ConfirmPrompt == SummaryHeader + (lines + total) + ConfirmPrompt;
    assert CartHeader + lines + total == CartHeader + (lines + total);
  }

  /**
   * "confirm" stores the cart as the sender's order (replacing any earlier
   * one), logs it once for the admin, credits ten points (from zero when the
   * sender had none), deletes the session, and touches no other sender.
   */
  lemma ConfirmCommand(s: BotState, m: Inbound)
    requires m.from in s.sessions && UserInput(m) == Some("confirm")
    ensures var t := Step(s, m); var cart := s.sessions[m.from].order;
      && t.orders == s.orders[m.from := cart]
      && t.adminOrders == s.adminOrders + [AdminOrder(m.from, cart)]
      && Points(t.loyaltyPoints, m.from) == Points(s.loyaltyPoints, m.from) + 10
      && (forall u :: u != m.from ==> Points(t.loyaltyPoints, u) == Points(s.loyaltyPoints, u))
      && t.sessions == s.sessions - {m.from}
      && t.outbox == s.outbox + [Outgoing(m.from, Confirmed, ConfirmedButtons)]
  {
  }

  /** "confirm" does not look at the cart: an empty one is confirmed like any other. */
  lemma ConfirmEmptyCart(s: BotState, m: Inbound)
    requires m.from in s.sessions && UserInput(m) == Some("confirm")
    requires s.sessions[m.from].order == []
    ensures var t := Step(s, m);
      && m.from in t.orders && t.orders[m.from] == []
      && t.adminOrders == s.adminOrders + [AdminOrder(m.from, [])]
      && Points(t.loyaltyPoints, m.from) == Points(s.loyaltyPoints, m.from) + 10
      && m.from !in t.sessions
  {
  }

  /** "track order" says "being prepared" exactly when the sender has an order; nothing changes. */
  lemma TrackOrderCommand(s: BotState, m: Inbound)
    requires m.from in s.sessions && UserInput(m) == Some("track order")
    ensures var t := Step(s, m);
      && SameTables(s, t)
      && t.outbox == s.outbox + [Outgoing(m.from, if m.from in s.orders then Preparing else NoActiveOrders, [])]
  {
  }

  /** "loyalty points" reports the balance, zero when there is none; nothing changes. */
  lemma LoyaltyPointsCommand(s: BotState, m: Inbound)
    requires m.from in s.sessions && UserInput(m) == Some("loyalty points")
    ensures var t := Step(s, m);
      && SameTables(s, t)
      && t.outbox == s.outbox + [Outgoing(m.from,
           PointsMessage(if m.from in s.loyaltyPoints then s.loyaltyPoints[m.from] else 0), HelpButtons)]
  {
  }

  /** Any other input, an absent one included, gets the help reply and changes nothing. */
  lemma Fallback(s: BotState, m: Inbound)
    requires m.from in s.sessions
    requires Classify(UserInput(m)) == Unrecognized
    ensures var t := Step(s, m);
      SameTables(s, t) && t.outbox == s.outbox + [Outgoing(m.from, NotUnderstood, HelpButtons)]
  {
  }

  // ---------------------------------------------------------------------------
  // Several messages
  // ---------------------------------------------------------------------------

  /**
   * Whatever the command, its branch appends exactly one reply, addressed to
   * the sender, and only "confirm" changes the orders, the admin log or the
   * balances.
   */
  lemma DispatchFrame(s: BotState, from: string, command: Command)
    requires from in s.sessions
    ensures var t := Dispatch(s, from, command);
      && |t.outbox| == |s.outbox| + 1
      && t.outbox == s.outbox + [t.outbox[|s.outbox|]]
      && t.outbox[|s.outbox|].to == from
      && if command == Confirm then t == ConfirmOrder(s, from)
         else t.orders == s.orders && t.adminOrders == s.adminOrders && t.loyaltyPoints == s.loyaltyPoints
  {
  }

  /**
   * Every message, whatever it is, appends exactly one reply, addressed to its
   * sender; only "confirm" changes the orders, the admin log or the balances.
   */
  lemma StepFrame(s: BotState, m: Inbound)
    ensures var t := Step(s, m);
      && |t.outbox| == |s.outbox| + 1
      && t.outbox[..|s.outbox|] == s.outbox
      && t.outbox[|s.outbox|].to == m.from
      && if m.from in s.sessions && Classify(UserInput(m)) == Confirm then t == ConfirmOrder(s, m.from)
         else t.orders == s.orders && t.adminOrders == s.adminOrders && t.loyaltyPoints == s.loyaltyPoints
  {
    var t := Step(s, m);
    if m.from in s.sessions {
      DispatchFrame(s, m.from, Classify(UserInput(m)));
    }
    assert t.outbox == s.outbox + [t.outbox[|s.outbox|]];
  }

  lemma {:induction false} RunAppend(s: BotState, a: seq<Inbound>, b: seq<Inbound>)
    ensures Run(s, a + b) == Run(Run(s, a), b)
    decreases |b|
  {
    if b == [] {
      assert a + b == a;
    } else {
      var n := |b| - 1;
      assert (a + b)[..|a + b| - 1] == a + b[..n];
      RunAppend(s, a, b[..n]);
    }
  }

  lemma RunTwo(s: BotState, m1: Inbound, m2: Inbound)
    ensures Run(s, [m1, m2]) == Step(Step(s, m1), m2)
  {
    var one, two := [m1], [m1, m2];
    assert two[..|two| - 1] == one && two[|two| - 1] == m2;
    assert one[..|one| - 1] == [] && one[|one| - 1] == m1;
    assert Run(s, one) == Step(s, m1);
  }

  /**
   * The "Track Order" button sent with the confirmation never reports the
   * order on its first press: the session was deleted, so the press is a
   * first contact and gets the welcome.
   */
  lemma TrackRightAfterConfirmWelcomes(s: BotState, confirm: Inbound, track: Inbound)
    requires confirm.from in s.sessions && UserInput(confirm) == Some("confirm")
    requires track.from == confirm.from
    ensures var t := Run(s, [confirm, track]);
      && confirm.from in t.orders
      && t.outbox == s.outbox + [Outgoing(confirm.from, Confirmed, ConfirmedButtons),
                                 Outgoing(confirm.from, Welcome, WelcomeButtons)]
  {
    RunTwo(s, confirm, track);
    ConfirmCommand(s, confirm);
    FirstContact(Step(s, confirm), track);
  }

  /**
   * The order is reported from the second message after the confirmation
   * on: the first one reopens a session, and then "track order" finds the
   * order.
   */
  lemma TrackAfterReopenReports(s: BotState, confirm: Inbound, x: Inbound, track: Inbound)
    requires confirm.from in s.sessions && UserInput(confirm) == Some("confirm")
    requires x.from == confirm.from && track.from == confirm.from
    requires UserInput(track) == Some("track order")
    ensures var t := Step(Step(Step(s, confirm), x), track);
      t.outbox[|t.outbox| - 1] == Outgoing(confirm.from, Preparing, [])
  {
    var s1 := Step(s, confirm);
    ConfirmCommand(s, confirm);
    var s2 := Step(s1, x);
    FirstContact(s1, x);
    TrackOrderCommand(s2, track);
    StepFrame(s2, track);
  }

  /**
   * Two confirmations from the same sender, with any message in between (it
   * opens a new session), credit 20 points and log two orders.
   */
  lemma TwoConfirmsGiveTwenty(s: BotState, c1: Inbound, x: Inbound, c2: Inbound)
    requires c1.from in s.sessions && x.from == c1.from && c2.from == c1.from
    requires UserInput(c1) == Some("confirm") && UserInput(c2) == Some("confirm")
    ensures var t := Run(s, [c1, x, c2]);
      && Points(t.loyaltyPoints, c1.from) == Points(s.loyaltyPoints, c1.from) + 20
      && |t.adminOrders| == |s.adminOrders| + 2
      && c1.from !in t.sessions
  {
    assert [c1, x, c2] == [c1, x] + [c2];
    RunAppend(s, [c1, x], [c2]);
    RunTwo(s, c1, x);
    assert Run(Run(s, [c1, x]), [c2]) == Step(Run(s, [c1, x]), c2) by {
      assert [c2][..0] == [];
    }
    var s1 := Step(s, c1);
    ConfirmCommand(s, c1);
    var s2 := Step(s1, x);
    FirstContact(s1, x);
    ConfirmCommand(s2, c2);
  }

  /** The replies sent so far are those of the start followed by one per message, each to its sender. */
  predicate RepliesTo(start: seq<Outgoing>, outbox: seq<Outgoing>, batch: seq<Inbound>) {
    && |outbox| == |start| + |batch|
    && outbox[..|start|] == start
    && forall i :: 0 <= i < |batch| ==> outbox[|start| + i].to == batch[i].from
  }

  lemma RepliesToExtend(start: seq<Outgoing>, before: seq<Outgoing>, after: seq<Outgoing>,
                        batch: seq<Inbound>, m: Inbound)
    requires RepliesTo(start, before, batch)
    requires |after| == |before| + 1 && after[..|before|] == before && after[|before|].to == m.from
    ensures RepliesTo(start, after, batch + [m])
  {
    assert after[..|start|] == after[..|before|][..|start|];
    forall i | 0 <= i < |batch| + 1
      ensures after[|start| + i].to == (batch + [m])[i].from
    {
      if i < |batch| {
        assert after[|start| + i] == before[|start| + i];
      }
    }
  }

  /** Every message gets exactly one reply, to its sender, in order; earlier replies stay. */
  lemma {:induction false} OneReplyPerMessage(s: BotState, batch: seq<Inbound>)
    ensures RepliesTo(s.outbox, Run(s, batch).outbox, batch)
    decreases |batch|
  {
    if batch == [] {
      assert s.outbox[..|s.outbox|] == s.outbox;
    } else {
      var n := |batch| - 1;
      var r := Run(s, batch[..n]);
      OneReplyPerMessage(s, batch[..n]);
      StepFrame(r, batch[n]);
      assert batch[..n] + [batch[n]] == batch;
      RepliesToExtend(s.outbox, r.outbox, Run(s, batch).outbox, batch[..n], batch[n]);
    }
  }

  /** No message takes points away: every balance only grows over a batch. */
  lemma {:induction false} PointsNeverDecrease(s: BotState, batch: seq<Inbound>, u: string)
    ensures Points(s.loyaltyPoints, u) <= Points(Run(s, batch).loyaltyPoints, u)
    decreases |batch|
  {
    if batch != [] {
      var n := |batch| - 1;
      PointsNeverDecrease(s, batch[..n], u);
      StepFrame(Run(s, batch[..n]), batch[n]);
    }
  }

  /** The admin log is only ever appended to. */
  lemma {:induction false} AdminLogOnlyGrows(s: BotState, batch: seq<Inbound>)
    ensures var t := Run(s, batch);
      |s.adminOrders| <= |t.adminOrders| && t.adminOrders[..|s.adminOrders|] == s.adminOrders
    decreases |batch|
  {
    if batch != [] {
      var n := |batch| - 1;
      AdminLogOnlyGrows(s, batch[..n]);
      var r := Run(s, batch[..n]);
      StepFrame(r, batch[n]);
      var t := Step(r, batch[n]);
      assert t.adminOrders[..|r.adminOrders|] == r.adminOrders;
      assert t.adminOrders[..|s.adminOrders|] == t.adminOrders[..|r.adminOrders|][..|s.adminOrders|];
    }
  }

  // ---------------------------------------------------------------------------
  // The ledger: orders, admin log and loyalty points agree
  // ---------------------------------------------------------------------------

  /** How many orders `user` has confirmed, according to the admin log. */
  function Confirmations(log: seq<AdminOrder>, user: string): nat {
    if log == [] then 0
    else Confirmations(log[..|log| - 1], user) + (if log[|log| - 1].user == user then 1 else 0)
  }

  /** The cart of the last order `user` confirmed, according to the admin log. */
  function LastOrder(log: seq<AdminOrder>, user: string): Option<seq<CartLine>> {
    if log == [] then None
    else if log[|log| - 1].user == user then Some(log[|log| - 1].order)
    else LastOrder(log[..|log| - 1], user)
  }

  /**
   * A sender has an order exactly when the log has one of theirs, and it is
   * the last one logged; a sender's balance is ten per logged order, and the
   * balance exists exactly when an order does.
   */
  ghost predicate LedgerConsistent(s: BotState) {
    && (forall u :: u in s.orders <==> Confirmations(s.adminOrders, u) > 0)
    && (forall u :: u in s.orders ==> LastOrder(s.adminOrders, u) == Some(s.orders[u]))
    && (forall u :: u in s.loyaltyPoints <==> u in s.orders)
    && (forall u :: Points(s.loyaltyPoints, u) == LoyaltyAccrual * Confirmations(s.adminOrders, u))
  }

  lemma LogAppend(log: seq<AdminOrder>, r: AdminOrder, u: string)
    ensures Confirmations(log + [r], u) == Confirmations(log, u) + (if r.user == u then 1 else 0)
    ensures LastOrder(log + [r], u) == if r.user == u then Some(r.order) else LastOrder(log, u)
  {
    assert (log + [r])[..|log|] == log;
  }

  /** Confirming keeps the ledger: one more logged confirmation for the sender, which becomes its last order. */
  lemma {:induction false} ConfirmKeepsLedger(s: BotState, from: string)
    requires from in s.sessions && LedgerConsistent(s)
    ensures LedgerConsistent(ConfirmOrder(s, from))
    ensures forall u ::
              Confirmations(ConfirmOrder(s, from).adminOrders, u)
                == Confirmations(s.adminOrders, u) + (if from == u then 1 else 0)
    ensures forall u ::
              LastOrder(ConfirmOrder(s, from).adminOrders, u)
                == if from == u then Some(s.sessions[from].order) else LastOrder(s.adminOrders, u)
  {
    var t := ConfirmOrder(s, from);
    var r := AdminOrder(from, s.sessions[from].order);
    assert t.adminOrders == s.adminOrders + [r];
    forall u
      ensures Confirmations(t.adminOrders, u) == Confirmations(s.adminOrders, u) + (if from == u then 1 else 0)
      ensures LastOrder(t.adminOrders, u) == if from == u then Some(r.order) else LastOrder(s.adminOrders, u)
    {
      LogAppend(s.adminOrders, r, u);
    }
  }

  /** Every message keeps the ledger consistent. */
  lemma {:induction false} StepKeepsLedger(s: BotState, m: Inbound)
    requires LedgerConsistent(s)
    ensures LedgerConsistent(Step(s, m))
  {
    StepFrame(s, m);
    if m.from in s.sessions && Classify(UserInput(m)) == Confirm {
      ConfirmKeepsLedger(s, m.from);
    }
  }

  lemma {:induction false} RunKeepsLedger(s: BotState, batch: seq<Inbound>)
    requires LedgerConsistent(s)
    ensures LedgerConsistent(Run(s, batch))
    decreases |batch|
  {
    if batch != [] {
      RunKeepsLedger(s, batch[..|batch| - 1]);
      StepKeepsLedger(Run(s, batch[..|batch| - 1]), batch[|batch| - 1]);
    }
  }

  /** In a consistent state, "track order" reports an order exactly when the log has one of the sender's. */
  lemma TrackReplyFromLedger(s: BotState, m: Inbound)
    requires LedgerConsistent(s) && m.from in s.sessions && UserInput(m) == Some("track order")
    ensures var confirmed := Confirmations(s.adminOrders, m.from);
      Step(s, m).outbox
        == s.outbox + [Outgoing(m.from, if confirmed > 0 then Preparing else NoActiveOrders, [])]
  {
    assert Step(s, m) == Dispatch(s, m.from, TrackOrder);
    assert m.from in s.orders <==> Confirmations(s.adminOrders, m.from) > 0;
  }

  /** In a consistent state, "loyalty points" reports ten points per logged order of the sender's. */
  lemma PointsReplyFromLedger(s: BotState, m: Inbound)
    requires LedgerConsistent(s) && m.from in s.sessions && UserInput(m) == Some("loyalty points")
    ensures Step(s, m).outbox
         == s.outbox + [Outgoing(m.from, PointsMessage(10 * Confirmations(s.adminOrders, m.from)), HelpButtons)]
  {
    assert Step(s, m) == Dispatch(s, m.from, ShowPoints);
    assert Points(s.loyaltyPoints, m.from) == 10 * Confirmations(s.adminOrders, m.from);
  }

  /**
   * After any batch handled from the start, "track order" reports "being
   * prepared" exactly when the sender has confirmed an order before, and
   * "loyalty points" reports ten points per confirmed order.
   */
  lemma RepliesMatchLedger(batch: seq<Inbound>, m: Inbound)
    requires var s := Run(Initial, batch); m.from in s.sessions
    ensures var s := Run(Initial, batch); var t := Step(s, m);
      var confirmed := Confirmations(s.adminOrders, m.from);
      && (UserInput(m) == Some("track order") ==>
            t.outbox == s.outbox + [Outgoing(m.from, if confirmed > 0 then Preparing else NoActiveOrders, [])])
      && (UserInput(m) == Some("loyalty points") ==>
            t.outbox == s.outbox + [Outgoing(m.from, PointsMessage(10 * confirmed), HelpButtons)])
  {
    var s := Run(Initial, batch);
    RunKeepsLedger(Initial, batch);
    if UserInput(m) == Some("track order") {
      TrackReplyFromLedger(s, m);
    }
    if UserInput(m) == Some("loyalty points") {
      PointsReplyFromLedger(s, m);
    }
  }

  // ---------------------------------------------------------------------------
  // Carts stay empty
  // ---------------------------------------------------------------------------

  /** Every session's cart is empty. */
  predicate CartsEmpty(s: BotState) {
    forall u :: u in s.sessions ==> s.sessions[u].order == []
  }

  /**
   * No branch adds a line to a cart: every session that remains keeps its
   * cart, and the admin log grows at most by the sender's cart.
   */
  lemma DispatchKeepsCarts(s: BotState, from: string, command: Command)
    requires from in s.sessions
    ensures var t := Dispatch(s, from, command);
      && (forall u :: u in t.sessions ==> u in s.sessions && t.sessions[u].order == s.sessions[u].order)
      && (t.adminOrders == s.adminOrders
          || t.adminOrders == s.adminOrders + [AdminOrder(from, s.sessions[from].order)])
  {
  }

  /**
   * Since no branch adds a line to a cart, from the start every cart stays empty:
   * "checkout" always answers that the cart is empty and every logged order
   * is empty.
   */
  lemma {:induction false} CartsStayEmpty(batch: seq<Inbound>)
    ensures CartsEmpty(Run(Initial, batch))
    ensures forall i :: 0 <= i < |Run(Initial, batch).adminOrders| ==> Run(Initial, batch).adminOrders[i].order == []
    decreases |batch|
  {
    if batch != [] {
      var n := |batch| - 1;
      CartsStayEmpty(batch[..n]);
      var r := Run(Initial, batch[..n]);
      var m := batch[n];
      var t := Step(r, m);
      assert Run(Initial, batch) == t;
      if m.from in r.sessions {
        DispatchKeepsCarts(r, m.from, Classify(UserInput(m)));
      }
    }
  }

  /** Handled from the start, "checkout" always answers that the cart is empty. */
  lemma CheckoutAlwaysEmpty(batch: seq<Inbound>, m: Inbound)
    requires var s := Run(Initial, batch); m.from in s.sessions && UserInput(m) == Some("checkout")
    ensures var s := Run(Initial, batch);
      Step(s, m).outbox == s.outbox + [Outgoing(m.from, EmptyCart, [])]
  {
    CartsStayEmpty(batch);
  }
}
