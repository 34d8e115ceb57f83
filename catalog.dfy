/**
 * The static catalog `MENU_ITEMS` and its rendering as the text the bot sends
 * for "menu" (`getMenuMessage`).
 */
module Catalog {
  import opened Text

  /** A priced variation of an item: its name and its unit price in rupees. */
  datatype Variation = Variation(name: string, price: int)

  /**
   * A catalog entry under key `id`. The variations keep the order in which
   * they are written, which is the order `Object.keys` lists them in.
   */
  datatype MenuItem = MenuItem(id: nat, name: string, variations: seq<Variation>)

  /** The catalog in `for ... in` iteration order (integer keys ascending). */
  const MENU_ITEMS: seq<MenuItem> := [
    MenuItem(1, "Pani Puri", [Variation("small", 20), Variation("large", 35)]),
    MenuItem(2, "Bhel Puri", [Variation("regular", 30), Variation("spicy", 35)]),
    MenuItem(3, "Sev Puri", [Variation("regular", 25), Variation("extra_cheese", 30)]),
    MenuItem(4, "Dahi Puri", [Variation("regular", 35), Variation("extra_dahi", 40)])
  ]

  const MenuHeader: string := "🍽️ *Menu:*\n"
  const MenuFooter: string := "\n🛒 Click below to view menu or cart."

  /** "*1*. Pani Puri" and a line feed. */
  function ItemLine(item: MenuItem): string {
    "*" + IntToString(item.id) + "*. " + item.name + "\n"
  }

  /** "   - small: ₹20" and a line feed. */
  function VariationLine(v: Variation): string {
    "   - " + v.name + ": ₹" + IntToString(v.price) + "\n"
  }

  /** An item's line followed by one line per variation. */
  function ItemBlock(item: MenuItem): string {
    ItemLine(item) + Join(VariationLine, item.variations)
  }

  /** The whole menu text: header, one block per item in catalog order, footer. */
  function MenuText(catalog: seq<MenuItem>): string {
    MenuHeader + Join(ItemBlock, catalog) + MenuFooter
  }

  /**
   * `getMenuMessage`: appends, item after item, the item's line and then its
   * variation lines, and closes with the footer. The appended lines are
   * gathered in `items` and `lines` before they join the header; the text is
   * the same.
   */
  method MenuMessage(catalog: seq<MenuItem>) returns (message: string)
    ensures message == MenuText(catalog)
  {
    var items := "";
    var i := 0;
    while i < |catalog|
      invariant 0 <= i <= |catalog|
      invariant items == Join(ItemBlock, catalog[..i])
    {
      var item := catalog[i];
      var lines := "";
      var j := 0;
      while j < |item.variations|
        invariant 0 <= j <= |item.variations|
        invariant lines == Join(VariationLine, item.variations[..j])
      {
        assert item.variations[..j + 1][..j] == item.variations[..j];
        lines := lines + VariationLine(item.variations[j]);
        j := j + 1;
      }
      assert item.variations[..j] == item.variations;
      assert catalog[..i + 1][..i] == catalog[..i];
      items := items + (ItemLine(item) + lines);
      i := i + 1;
    }
    assert catalog[..i] == catalog;
    message := MenuHeader + items + MenuFooter;
  }

  // ---------------------------------------------------------------------------
  // Layout of the menu text
  // ---------------------------------------------------------------------------

  /**
   * Item `i` appears after the items before it in the catalog, as its own
   * line followed by its variation lines, and before the items after it and
   * the footer.
   */
  lemma {:induction false} MenuItemAt(catalog: seq<MenuItem>, i: nat)
    requires i < |catalog|
    ensures MenuText(catalog)
         == MenuHeader + (Join(ItemBlock, catalog[..i]) + ItemBlock(catalog[i])
            + Join(ItemBlock, catalog[i + 1..])) + MenuFooter
  {
    JoinAt(ItemBlock, catalog, i);
  }

  /** Within an item's block, variation `j` follows the item line and the variations before it. */
  lemma {:induction false} VariationAt(item: MenuItem, j: nat)
    requires j < |item.variations|
    ensures ItemBlock(item)
         == ItemLine(item) + Join(VariationLine, item.variations[..j])
            + VariationLine(item.variations[j]) + Join(VariationLine, item.variations[j + 1..])
  {
    JoinAt(VariationLine, item.variations, j);
  }
}
