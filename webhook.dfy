/**
 * The conversation handler of the POST `/webhook` route: for each inbound
 * message it consults the sender's session and the normalised input, updates
 * the process-wide tables (`usersSession`, `orders`, `adminOrders`,
 * `loyaltyPoints`) and sends exactly one reply.
 *
 * `Step` is the specification of one message and `Run` that of a batch; the
 * class `Bot` holds the tables as fields and its methods are proved to change
 * them as `Step` and `Run` say. `sendMessage` becomes an append to `outbox`.
 */
module Webhook {
  import opened Wrappers
  import opened Text
  import opened Cart
  import opened Catalog

  // ---------------------------------------------------------------------------
  // Data
  // ---------------------------------------------------------------------------

  /** The two stage values the handler ever writes: "greeting" and "ordering". */
  datatype Stage = Greeting | Ordering

  /** `usersSession[from]`: the stage and the cart (`order`). */
  datatype Session = Session(stage: Stage, order: seq<CartLine>)

  /** An entry of `adminOrders`. */
  datatype AdminOrder = AdminOrder(user: string, order: seq<CartLine>)

  /** One call of `sendMessage(to, message, buttons)`. */
  datatype Outgoing = Outgoing(to: string, text: string, buttons: seq<string>)

  /**
   * One element of the webhook's `messages` array: the sender, the raw text
   * body if any, and the id of the pressed reply button if any.
   */
  datatype Inbound = Inbound(from: string, text: Option<string>, buttonId: Option<string>)

  /** The tables and the messages sent so far. */
  datatype BotState = BotState(
    sessions: map<string, Session>,
    orders: map<string, seq<CartLine>>,
    adminOrders: seq<AdminOrder>,
    loyaltyPoints: map<string, int>,
    outbox: seq<Outgoing>)

  /** The tables as the process starts: all empty. */
  const Initial: BotState := BotState(map[], map[], [], map[], [])

  // ---------------------------------------------------------------------------
  // Replies
  // ---------------------------------------------------------------------------

  const Welcome: string := "🌟 Welcome to Puchka Das! 🌟"
  const WelcomeButtons: seq<string> := ["Menu", "Cart", "Loyalty Points"]
  const MenuButtons: seq<string> := ["Add to Cart", "View Cart"]
  const CartHeader: string := "🛒 *Your Cart:*\n"
  const CartButtons: seq<string> := ["Confirm Order", "Modify Order"]
  const EmptyCart: string := "🛒 Your cart is empty!"
  const SummaryHeader: string := "🛒 *Order Summary:*\n"
  const ConfirmPrompt: string := "\n✅ Confirm order?"
  const SummaryButtons: seq<string> := ["Confirm", "Cancel"]
  const Confirmed: string :=
    "🎉 Order confirmed! You earned *10 loyalty points*! We’ll notify you when it’s ready. 🍽️"
  const ConfirmedButtons: seq<string> := ["Track Order"]
  const Preparing: string := "🚚 Your order is being prepared! 🍽️ Estimated time: 20 min."
  const NoActiveOrders: string := "❌ No active orders found."
  const NotUnderstood: string := "🤖 I didn't understand. Type *menu* to see options."
  const HelpButtons: seq<string> := ["Menu", "Cart"]

  /** Points credited per confirmed order. */
  const LoyaltyAccrual: int := 10

  /** The closing line of the cart and of the order summary. */
  function TotalLine(total: int): string {
    "\n💰 *Total: ₹" + IntToString(total) + "*"
  }

  /** Reply to "cart". */
  function CartMessage(cart: seq<CartLine>): string {
    CartHeader + LinesText(cart) + TotalLine(CartTotal(cart))
  }

  /** Reply to "checkout" when the cart has lines. */
  function SummaryMessage(cart: seq<CartLine>): string {
    SummaryHeader + LinesText(cart) + TotalLine(CartTotal(cart)) + ConfirmPrompt
  }

  /** Reply to "loyalty points". */
  function PointsMessage(points: int): string {
    "🏆 *Your Loyalty Points:* " + IntToString(points) + " points!"
  }

  // ---------------------------------------------------------------------------
  // Input
  // ---------------------------------------------------------------------------

  /** The id a reply button carries: its label in lower case. */
  function ButtonId(caption: string): string {
    Lower(caption)
  }

  /**
   * `buttonId || text`: a non-empty button id wins; otherwise the text body,
   * lower-cased and trimmed, or nothing when there is no body.
   */
  function UserInput(m: Inbound): Option<string> {
    if m.buttonId.Some? && m.buttonId.value != "" then m.buttonId
    else match m.text
      case Some(body) => Some(Normalize(body))
      case None => None
  }

  /** The branch an input selects, by exact comparison with each keyword in turn. */
  datatype Command = ShowMenu | ShowCart | Checkout | Confirm | TrackOrder | ShowPoints | Unrecognized

  function Classify(input: Option<string>): Command {
    match input
    case None => Unrecognized
    case Some(s) =>
      if s == "menu" then ShowMenu
      else if s == "cart" then ShowCart
      else if s == "checkout" then Checkout
      else if s == "confirm" then Confirm
      else if s == "track order" then TrackOrder
      else if s == "loyalty points" then ShowPoints
      else Unrecognized
  }

  /** `loyaltyPoints[user] || 0`. */
  function Points(ledger: map<string, int>, user: string): int {
    if user in ledger then ledger[user] else 0
  }

  // ---------------------------------------------------------------------------
  // Specification of the handler
  // ---------------------------------------------------------------------------

  /** `sendMessage(to, text, buttons)` as a change of state: one more message in the outbox. */
  function Reply(s: BotState, to: string, text: string, buttons: seq<string>): BotState {
    s.(outbox := s.outbox + [Outgoing(to, text, buttons)])
  }

  /** First contact: a fresh session in the "greeting" stage and the welcome. */
  function Greet(s: BotState, from: string): BotState {
    Reply(s.(sessions := s.sessions[from := Session(Greeting, [])]), from, Welcome, WelcomeButtons)
  }

  /** "menu": the stage becomes "ordering" and the menu is sent. */
  function OpenMenu(s: BotState, from: string): BotState
    requires from in s.sessions
  {
    Reply(s.(sessions := s.sessions[from := s.sessions[from].(stage := Ordering)]),
          from, MenuText(MENU_ITEMS), MenuButtons)
  }

  /** "checkout": the summary, or the empty-cart notice. */
  function CheckoutReply(s: BotState, from: string): BotState
    requires from in s.sessions
  {
    var cart := s.sessions[from].order;
    if |cart| == 0 then Reply(s, from, EmptyCart, [])
    else Reply(s, from, SummaryMessage(cart), SummaryButtons)
  }

  /**
   * "confirm": the cart becomes the sender's order and an admin record, ten
   * points are credited and the session is deleted.
   */
  function ConfirmOrder(s: BotState, from: string): BotState
    requires from in s.sessions
  {
    var cart := s.sessions[from].order;
    Reply(BotState(
            s.sessions - {from},
            s.orders[from := cart],
            s.adminOrders + [AdminOrder(from, cart)],
            s.loyaltyPoints[from := Points(s.loyaltyPoints, from) + LoyaltyAccrual],
            s.outbox),
          from, Confirmed, ConfirmedButtons)
  }

  /** The branch `command` selects for a sender who has a session. */
  function Dispatch(s: BotState, from: string, command: Command): BotState
    requires from in s.sessions
  {
    match command
    case ShowMenu => OpenMenu(s, from)
    case ShowCart => Reply(s, from, CartMessage(s.sessions[from].order), CartButtons)
    case Checkout => CheckoutReply(s, from)
    case Confirm => ConfirmOrder(s, from)
    case TrackOrder => Reply(s, from, if from in s.orders then Preparing else NoActiveOrders, [])
    case ShowPoints => Reply(s, from, PointsMessage(Points(s.loyaltyPoints, from)), HelpButtons)
    case Unrecognized => Reply(s, from, NotUnderstood, HelpButtons)
  }

  /** What handling one message does to the tables and the outbox. */
  function Step(s: BotState, m: Inbound): BotState {
    if m.from !in s.sessions then Greet(s, m.from)
    else Dispatch(s, m.from, Classify(UserInput(m)))
  }

  /** What handling a batch does: its messages one after another, in order. */
  function Run(s: BotState, batch: seq<Inbound>): BotState {
    if batch == [] then s else Step(Run(s, batch[..|batch| - 1]), batch[|batch| - 1])
  }

  // ---------------------------------------------------------------------------
  // The handler
  // ---------------------------------------------------------------------------

  class Bot {
    var usersSession: map<string, Session>
    var orders: map<string, seq<CartLine>>
    var adminOrders: seq<AdminOrder>
    var loyaltyPoints: map<string, int>
    var outbox: seq<Outgoing>

    function State(): BotState
      reads this
    {
      BotState(usersSession, orders, adminOrders, loyaltyPoints, outbox)
    }

    constructor ()
      ensures State() == Initial
    {
      usersSession, orders, adminOrders, loyaltyPoints, outbox := map[], map[], [], map[], [];
    }

    /** `sendMessage(to, message, buttons)`. */
    method Send(to: string, message: string, buttons: seq<string>)
      modifies this`outbox
      ensures outbox == old(outbox) + [Outgoing(to, message, buttons)]
    {
      outbox := outbox + [Outgoing(to, message, buttons)];
    }

    /**
     * The body of the `for ... of` loop for one message: the welcome for a
     * sender without a session, otherwise the branch the input selects.
     */
    method Handle(m: Inbound)
      modifies this
      ensures State() == Step(old(State()), m)
    {
      var from := m.from;
      if from !in usersSession {
        usersSession := usersSession[from := Session(Greeting, [])];
        Send(from, Welcome, WelcomeButtons);
        return;
      }
      var command := Classify(UserInput(m));
      Respond(from, command);
    }

    /**
     * The chain of `userInput === keyword` tests, once the sender has a
     * session; `Classify` names the test that holds first.
     */
    method Respond(from: string, command: Command)
      requires from in usersSession
      modifies this
      ensures State() == Dispatch(old(State()), from, command)
    {
      if command == ShowMenu {
        usersSession := usersSession[from := usersSession[from].(stage := Ordering)];
        var menu := MenuMessage(MENU_ITEMS);
        Send(from, menu, MenuButtons);
        return;
      }

      if command == ShowCart {
        var cartLines, total := RenderLines(usersSession[from].order);
        Send(from, CartHeader + cartLines + TotalLine(total), CartButtons);
        return;
      }

      if command == Checkout {
        if |usersSession[from].order| == 0 {
          Send(from, EmptyCart, []);
          return;
        }
        var summaryLines, totalAmount := RenderLines(usersSession[from].order);
        Send(from, SummaryHeader + summaryLines + TotalLine(totalAmount) + ConfirmPrompt, SummaryButtons);
        return;
      }

      if command == Confirm {
        orders := orders[from := usersSession[from].order];
        adminOrders := adminOrders + [AdminOrder(from, usersSession[from].order)];
        loyaltyPoints := loyaltyPoints[from := Points(loyaltyPoints, from) + LoyaltyAccrual];
        Send(from, Confirmed, ConfirmedButtons);
        usersSession := usersSession - {from};
        return;
      }

      if command == TrackOrder {
        if from in orders {
          Send(from, Preparing, []);
        } else {
          Send(from, NoActiveOrders, []);
        }
        return;
      }

      if command == ShowPoints {
        var points := Points(loyaltyPoints, from);
        Send(from, PointsMessage(points), HelpButtons);
        return;
      }

      Send(from, NotUnderstood, HelpButtons);
    }

    /** The `for (const message of messages)` loop: every message, in order. */
    method HandleBatch(messages: seq<Inbound>)
      modifies this
      ensures State() == Run(old(State()), messages)
    {
      var i := 0;
      while i < |messages|
        invariant 0 <= i <= |messages|
        invariant State() == Run(old(State()), messages[..i])
      {
        assert messages[..i + 1][..i] == messages[..i];
        Handle(messages[i]);
        i := i + 1;
      }
      assert messages[..i] == messages;
    }
  }
}
