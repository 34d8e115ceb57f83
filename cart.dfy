/**
 * A session's cart (`usersSession[from].order`) and the two computations the
 * handler runs over it for "cart" and "checkout": one rendered line per entry
 * and the running total of price times quantity.
 */
module Cart {
  import opened Text

  /** One entry of a cart, with the four fields the handler reads. */
  datatype CartLine = CartLine(name: string, variation: string, price: int, quantity: int)

  function Subtotal(l: CartLine): int {
    l.price * l.quantity
  }

  /** Sum of price times quantity over the lines, accumulated first to last. */
  function CartTotal(cart: seq<CartLine>): int {
    if cart == [] then 0 else CartTotal(cart[..|cart| - 1]) + Subtotal(cart[|cart| - 1])
  }

  /** "- 2x Pani Puri (large) - ₹70" and a line feed. */
  function LineText(l: CartLine): string {
    "- " + IntToString(l.quantity) + "x " + l.name + " (" + l.variation + ") - ₹"
    + IntToString(Subtotal(l)) + "\n"
  }

  /** The rendered lines of a cart, in cart order. */
  function LinesText(cart: seq<CartLine>): string {
    Join(LineText, cart)
  }

  /**
   * The `forEach` loop of the "cart" and "checkout" branches: appends one line
   * per entry to the text and adds each entry's subtotal to the total.
   */
  method RenderLines(cart: seq<CartLine>) returns (text: string, total: int)
    ensures text == LinesText(cart)
    ensures total == CartTotal(cart)
  {
    text, total := "", 0;
    var i := 0;
    while i < |cart|
      invariant 0 <= i <= |cart|
      invariant text == LinesText(cart[..i])
      invariant total == CartTotal(cart[..i])
    {
      assert cart[..i + 1][..i] == cart[..i];
      text := text + LineText(cart[i]);
      total := total + cart[i].price * cart[i].quantity;
      i := i + 1;
    }
    assert cart[..i] == cart;
  }

  // ---------------------------------------------------------------------------
  // Properties of the total
  // ---------------------------------------------------------------------------

  /** The total of two carts laid end to end is the sum of their totals. */
  lemma {:induction false} CartTotalAppend(a: seq<CartLine>, b: seq<CartLine>)
    ensures CartTotal(a + b) == CartTotal(a) + CartTotal(b)
    decreases |b|
  {
    if b != [] {
      var n := |b| - 1;
      assert (a + b)[..|a + b| - 1] == a + b[..n];
      CartTotalAppend(a, b[..n]);
    } else {
      assert a + b == a;
    }
  }

  /** The total of a cart is that of the other lines plus the subtotal of line `k`. */
  lemma {:induction false} CartTotalSplit(b: seq<CartLine>, k: nat)
    requires k < |b|
    ensures CartTotal(b) == CartTotal(b[..k] + b[k + 1..]) + Subtotal(b[k])
  {
    assert b == (b[..k] + [b[k]]) + b[k + 1..];
    CartTotalAppend(b[..k] + [b[k]], b[k + 1..]);
    assert (b[..k] + [b[k]])[..k] == b[..k];
    CartTotalAppend(b[..k], b[k + 1..]);
  }

  lemma {:induction false} MultisetWithout<T>(a: seq<T>, b: seq<T>, k: nat)
    requires |a| > 0 && k < |b| && b[k] == a[|a| - 1]
    requires multiset(a) == multiset(b)
    ensures multiset(a[..|a| - 1]) == multiset(b[..k] + b[k + 1..])
  {
    var n := |a| - 1;
    assert a == a[..n] + [a[n]];
    assert b == b[..k] + [b[k]] + b[k + 1..];
    calc {
      multiset(a[..n]) + multiset{a[n]};
      multiset(a);
      multiset(b);
      multiset(b[..k]) + multiset{b[k]} + multiset(b[k + 1..]);
      multiset(b[..k] + b[k + 1..]) + multiset{a[n]};
    }
    assert multiset(a[..n]) == multiset(a[..n]) + multiset{a[n]} - multiset{a[n]};
    assert multiset(b[..k] + b[k + 1..])
        == multiset(b[..k] + b[k + 1..]) + multiset{a[n]} - multiset{a[n]};
  }

  /** The total does not depend on the order the lines were added in. */
  lemma {:induction false} CartTotalPermutation(a: seq<CartLine>, b: seq<CartLine>)
    requires multiset(a) == multiset(b)
    ensures CartTotal(a) == CartTotal(b)
    decreases |a|
  {
    if a == [] {
      assert |b| == |multiset(b)| == 0;
    } else {
      var n := |a| - 1;
      assert a[n] in multiset(b) by {
        assert a[n] in a;
      }
      var k :| 0 <= k < |b| && b[k] == a[n];
      MultisetWithout(a, b, k);
      CartTotalPermutation(a[..n], b[..k] + b[k + 1..]);
      CartTotalSplit(b, k);
    }
  }

  // ---------------------------------------------------------------------------
  // Properties of the rendered lines
  // ---------------------------------------------------------------------------

  /** Number of occurrences of `c` in `s`. */
  function Count(s: string, c: char): nat {
    if s == [] then 0 else Count(s[..|s| - 1], c) + (if s[|s| - 1] == c then 1 else 0)
  }

  lemma {:induction false} CountAppend(s: string, t: string, c: char)
    ensures Count(s + t, c) == Count(s, c) + Count(t, c)
    decreases |t|
  {
    if t != [] {
      assert (s + t)[..|s + t| - 1] == s + t[..|t| - 1];
      CountAppend(s, t[..|t| - 1], c);
    } else {
      assert s + t == s;
    }
  }

  lemma {:induction false} CountAbsent(s: string, c: char)
    requires forall i :: 0 <= i < |s| ==> s[i] != c
    ensures Count(s, c) == 0
    decreases |s|
  {
    if s != [] {
      CountAbsent(s[..|s| - 1], c);
    }
  }

  predicate NoLineFeed(s: string) {
    forall i :: 0 <= i < |s| ==> s[i] != '\n'
  }

  lemma IntToStringNoLineFeed(n: int)
    ensures NoLineFeed(IntToString(n))
  {
    if n < 0 {
      var s := IntToString(n);
      assert s[1..] == NatToString(-n);
      assert forall i :: 1 <= i < |s| ==> s[i] == s[1..][i - 1];
    }
  }

  /** A line of the cart is exactly one line of text when its name and variation are. */
  lemma {:induction false} LineTextIsOneLine(l: CartLine)
    requires NoLineFeed(l.name) && NoLineFeed(l.variation)
    ensures Count(LineText(l), '\n') == 1
  {
    IntToStringNoLineFeed(l.quantity);
    IntToStringNoLineFeed(Subtotal(l));
    var body := "- " + IntToString(l.quantity) + "x " + l.name + " (" + l.variation + ") - ₹"
                + IntToString(Subtotal(l));
    assert NoLineFeed(body);
    assert LineText(l) == body + "\n";
    CountAbsent(body, '\n');
    CountAppend(body, "\n", '\n');
    assert "\n"[..0] == [];
  }

  /** The rendered cart has one line per entry, no more and no fewer. */
  lemma {:induction false} OneLinePerEntry(cart: seq<CartLine>)
    requires forall l :: l in cart ==> NoLineFeed(l.name) && NoLineFeed(l.variation)
    ensures Count(LinesText(cart), '\n') == |cart|
    decreases |cart|
  {
    if cart != [] {
      var n := |cart| - 1;
      assert forall l :: l in cart[..n] ==> l in cart;
      OneLinePerEntry(cart[..n]);
      LineTextIsOneLine(cart[n]);
      CountAppend(LinesText(cart[..n]), LineText(cart[n]), '\n');
    }
  }
}
