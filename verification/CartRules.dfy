/** What an accepted cart charges for each line, and what a refused one is refused for. */
module CartRules {
  import opened Cart
  import opened Wrappers

  // ----- prices

  /** A priced line stands for its cart line: the same item, quantity, options and course, taxed as the menu says. */
  ghost predicate StandsFor(menu: Menu, line: CartLine, p: PricedLine) {
    && line.item in menu.items
    && p.item == line.item && p.quantity == line.quantity && p.options == line.options && p.course == line.course
    && p.taxExempt == menu.items[line.item].taxExempt
  }

  /**
   In an accepted cart a line with an override costs the override, whatever its options, and a line without either
   costs its item's menu price.
   */
  lemma AcceptedLineCosts(menu: Menu, lines: seq<CartLine>, i: nat)
    requires PriceCart(menu, lines).Ok? && i < |lines|
    ensures |PriceCart(menu, lines).value.lines| == |lines|
    ensures var p := PriceCart(menu, lines).value.lines[i];
      && StandsFor(menu, lines[i], p)
      && (lines[i].priceOverride.Some? ==> p.price == lines[i].priceOverride.value)
      && (lines[i].priceOverride.None? && lines[i].options == [] ==> p.price == menu.items[lines[i].item].price)
  {
    PriceCartAccepts(menu, lines);
  }

  /** The same options with one more chosen at a position. */
  function OneMore(line: CartLine, option: OptionId, at: nat): CartLine
    requires at <= |line.options|
  {
    line.(options := line.options[..at] + [option] + line.options[at..])
  }

  /** What one more of an option adds to a line's price: nothing when the price is overridden. */
  function Raise(menu: Menu, line: CartLine, option: OptionId): int {
    if line.priceOverride.Some? || option !in menu.options then 0 else menu.options[option].adjustment
  }

  /**
   Choosing an option once more, anywhere in a line's list, raises the price of that line by exactly the option's
   adjustment, unless the price is overridden; no other line moves, and the subtotal moves with the quantity.
   */
  lemma {:induction false} OptionRaisesPrice(menu: Menu, lines: seq<CartLine>, i: nat, option: OptionId, at: nat,
      before: PricedCart, after: PricedCart)
    requires i < |lines| && at <= |lines[i].options|
    requires PriceCart(menu, lines) == Ok(before)
    requires PriceCart(menu, lines[i := OneMore(lines[i], option, at)]) == Ok(after)
    ensures option in menu.options && |after.lines| == |before.lines| == |lines|
    ensures after.lines[i].price == before.lines[i].price + Raise(menu, lines[i], option)
    ensures forall j | 0 <= j < |lines| && j != i :: after.lines[j] == before.lines[j]
    ensures after.subtotal == before.subtotal + Raise(menu, lines[i], option) * lines[i].quantity
  {
    OptionRaisesLines(menu, lines, i, option, at, before, after);
    AcceptedSubtotal(menu, lines, before);
    AcceptedSubtotal(menu, lines[i := OneMore(lines[i], option, at)], after);
    GrownSubtotal(before.lines, after.lines, i, Raise(menu, lines[i], option), lines[i].quantity);
  }

  lemma {:induction false} OptionRaisesLines(menu: Menu, lines: seq<CartLine>, i: nat, option: OptionId, at: nat,
      before: PricedCart, after: PricedCart)
    requires i < |lines| && at <= |lines[i].options|
    requires PriceCart(menu, lines) == Ok(before)
    requires PriceCart(menu, lines[i := OneMore(lines[i], option, at)]) == Ok(after)
    ensures option in menu.options && |after.lines| == |before.lines| == |lines|
    ensures after.lines == before.lines[i := after.lines[i]]
    ensures after.lines[i].quantity == before.lines[i].quantity == lines[i].quantity
    ensures after.lines[i].price == before.lines[i].price + Raise(menu, lines[i], option)
  {
    var grown := lines[i := OneMore(lines[i], option, at)];
    OptionKnown(menu, grown, i, at);
    AcceptedCart(menu, lines, before);
    AcceptedCart(menu, grown, after);
    GrownLinePriced(menu, lines, i, option, at, before.lines, after.lines);
  }

  lemma AcceptedSubtotal(menu: Menu, lines: seq<CartLine>, cart: PricedCart)
    requires PriceCart(menu, lines) == Ok(cart)
    ensures cart.subtotal == PricedTotal(cart.lines)
  {
    PriceCartAccepts(menu, lines);
  }

  /** What an accepted cart's lines and subtotal are. */
  lemma AcceptedCart(menu: Menu, lines: seq<CartLine>, cart: PricedCart)
    requires PriceCart(menu, lines) == Ok(cart)
    ensures |cart.lines| == |lines| && cart.subtotal == PricedTotal(cart.lines)
    ensures forall j | 0 <= j < |lines| :: lines[j].item in menu.items && cart.lines[j] == Priced(menu, lines[j])
  {
    PriceCartAccepts(menu, lines);
  }

  lemma GrownSubtotal(before: seq<PricedLine>, after: seq<PricedLine>, i: nat, raise: int, quantity: int)
    requires i < |before| == |after| && after == before[i := after[i]]
    requires after[i].quantity == before[i].quantity == quantity && after[i].price == before[i].price + raise
    ensures PricedTotal(after) == PricedTotal(before) + raise * quantity
  {
    OneLineMoves(before, i, after[i]);
    Distributes(before[i].price, raise, quantity);
  }

  lemma OptionKnown(menu: Menu, lines: seq<CartLine>, i: nat, at: nat)
    requires PriceCart(menu, lines).Ok? && i < |lines| && at < |lines[i].options|
    ensures lines[i].options[at] in menu.options
  {
    PriceCartAccepts(menu, lines);
    assert lines[i] in lines && lines[i].options[at] in lines[i].options;
  }

  lemma GrownLinePriced(menu: Menu, lines: seq<CartLine>, i: nat, option: OptionId, at: nat,
      before: seq<PricedLine>, after: seq<PricedLine>)
    requires i < |lines| && at <= |lines[i].options| && option in menu.options
    requires |before| == |after| == |lines|
    requires forall j | 0 <= j < |lines| :: lines[j].item in menu.items && before[j] == Priced(menu, lines[j])
    requires var grown := lines[i := OneMore(lines[i], option, at)];
      forall j | 0 <= j < |lines| :: grown[j].item in menu.items && after[j] == Priced(menu, grown[j])
    ensures after == before[i := after[i]] && after[i].quantity == before[i].quantity == lines[i].quantity
    ensures after[i].price == before[i].price + Raise(menu, lines[i], option)
  {
    OptionRaisesLine(menu, lines[i], option, at);
  }

  lemma OptionRaisesLine(menu: Menu, line: CartLine, option: OptionId, at: nat)
    requires line.item in menu.items && at <= |line.options| && option in menu.options
    ensures UnitPrice(menu, OneMore(line, option, at)) == UnitPrice(menu, line) + Raise(menu, line, option)
  {
    AdjustmentsCountOccurrences(menu, line.options, option, at);
  }

  lemma Distributes(price: int, raise: int, quantity: int)
    ensures (price + raise) * quantity == price * quantity + raise * quantity
  {
  }

  lemma {:induction false} OneLineMoves(lines: seq<PricedLine>, i: nat, line: PricedLine)
    requires i < |lines|
    ensures PricedTotal(lines[i := line])
         == PricedTotal(lines) - lines[i].price * lines[i].quantity + line.price * line.quantity
  {
    var front := lines[..|lines| - 1];
    if i < |front| {
      OneLineMoves(front, i, line);
      assert lines[i := line][..|front|] == front[i := line];
    } else {
      assert lines[i := line][..|front|] == front;
    }
  }

  /** The lines that are taxed. */
  function Taxed(lines: seq<PricedLine>): seq<PricedLine> {
    if lines == [] then []
    else
      var last := lines[|lines| - 1];
      Taxed(lines[..|lines| - 1]) + (if last.taxExempt then [] else [last])
  }

  /** The taxable part is what the lines that are not exempt cost by themselves. */
  lemma {:induction false} TaxableIsTaxedLines(lines: seq<PricedLine>)
    ensures TaxableTotal(lines) == PricedTotal(Taxed(lines))
  {
    if lines != [] {
      var front, last := lines[..|lines| - 1], lines[|lines| - 1];
      TaxableIsTaxedLines(front);
      if last.taxExempt {
        assert Taxed(lines) == Taxed(front);
      } else {
        assert Taxed(lines) == Taxed(front) + [last];
        TotalOneMore(Taxed(front), last);
      }
    }
  }

  lemma {:induction false} TaxedLines(lines: seq<PricedLine>, l: PricedLine)
    ensures l in Taxed(lines) <==> l in lines && !l.taxExempt
  {
    if lines != [] {
      TaxedLines(lines[..|lines| - 1], l);
      assert lines == lines[..|lines| - 1] + [lines[|lines| - 1]];
    }
  }

  lemma TotalOneMore(lines: seq<PricedLine>, line: PricedLine)
    ensures PricedTotal(lines + [line]) == PricedTotal(lines) + line.price * line.quantity
  {
    assert (lines + [line])[..|lines|] == lines;
  }

  // ----- selection counts

  /** The positions at which an option of the group is chosen. */
  function PositionsOf(menu: Menu, options: seq<OptionId>, group: GroupId): set<nat> {
    set i: nat | i < |options| && options[i] in menu.options && menu.options[options[i]].group == group
  }

  /** A selection is counted once for each position it is chosen at. */
  lemma {:induction false} ChosenCountsPositions(menu: Menu, options: seq<OptionId>, group: GroupId)
    ensures Chosen(menu, options, group) == |PositionsOf(menu, options, group)|
  {
    if options != [] {
      var n := |options| - 1;
      ChosenCountsPositions(menu, options[..n], group);
      var front, all := PositionsOf(menu, options[..n], group), PositionsOf(menu, options, group);
      assert all == if Belongs(menu, options[n], group) then front + {n} else front;
    }
  }

  /** An accepted line meets every rule of its groups, by the number of positions chosen. */
  lemma AcceptedLineMeetsRules(menu: Menu, lines: seq<CartLine>, line: CartLine, group: Group)
    requires PriceCart(menu, lines).Ok? && line in lines && Attachment(line.item, group) in menu.attachments
    ensures var count := |PositionsOf(menu, line.options, group.id)|;
      && (group.required ==> 1 <= count)
      && (!group.multiSelect ==> count <= 1)
      && (group.multiSelect && group.maxSelections.Some? ==> count <= group.maxSelections.value)
  {
    PriceCartAccepts(menu, lines);
    ChosenCountsPositions(menu, line.options, group.id);
  }

  // ----- refusals

  /** A group attached to the item whose rule the number of chosen positions breaks in the way the error names. */
  ghost predicate BreaksRule(menu: Menu, line: CartLine, group: Group, e: CartError) {
    var count := |PositionsOf(menu, line.options, group.id)|;
    && Attachment(line.item, group) in menu.attachments
    && match e
       case SelectionMissing(id) => id == group.id && group.required && count == 0
       case SingleSelectionExceeded(id) => id == group.id && !group.multiSelect && 1 < count
       case MaxSelectionsExceeded(id) =>
         && id == group.id && group.multiSelect && group.maxSelections.Some?
         && group.maxSelections.value < count
       case _ => false
  }

  /** What is wrong with a line, in the error's own terms. */
  ghost predicate Explains(menu: Menu, line: CartLine, e: CartError) {
    match e
    case ItemNotFound(item) => item == line.item && item !in menu.items
    case OptionNotFound(option) => line.item in menu.items && option in line.options && option !in menu.options
    case OptionNotApplicable(option) =>
      && line.item in menu.items && option in line.options && option in menu.options
      && forall g: Group | Attachment(line.item, g) in menu.attachments :: g.id != menu.options[option].group
    case _ => line.item in menu.items && exists g: Group :: BreaksRule(menu, line, g, e)
  }

  lemma {:induction false} OptionsErrorExplains(menu: Menu, item: ItemId, options: seq<OptionId>)
    requires OptionsError(menu, item, options).Some?
    ensures var e := OptionsError(menu, item, options).value;
      || (e.OptionNotFound? && e.option in options && e.option !in menu.options)
      || (e.OptionNotApplicable? && e.option in options && e.option in menu.options
          && forall g: Group | Attachment(item, g) in menu.attachments :: g.id != menu.options[e.option].group)
  {
    var front, last := options[..|options| - 1], options[|options| - 1];
    if OptionsError(menu, item, front).Some? {
      OptionsErrorExplains(menu, item, front);
    } else {
      forall g: Group | Attachment(item, g) in menu.attachments ensures g in GroupsOf(menu.attachments, item) {
        GroupsOfMembers(menu.attachments, item, g);
      }
    }
  }

  lemma {:induction false} RulesErrorExplains(menu: Menu, line: CartLine, groups: seq<Group>)
    requires RulesError(menu, line.options, groups).Some?
    requires forall g | g in groups :: Attachment(line.item, g) in menu.attachments
    ensures exists g: Group :: BreaksRule(menu, line, g, RulesError(menu, line.options, groups).value)
  {
    var front, last := groups[..|groups| - 1], groups[|groups| - 1];
    if RulesError(menu, line.options, front).Some? {
      RulesErrorExplains(menu, line, front);
    } else {
      ChosenCountsPositions(menu, line.options, last.id);
      assert BreaksRule(menu, line, last, RulesError(menu, line.options, groups).value);
    }
  }

  lemma LineErrorExplains(menu: Menu, line: CartLine)
    requires LineError(menu, line).Some?
    ensures Explains(menu, line, LineError(menu, line).value)
  {
    if line.item in menu.items {
      if OptionsError(menu, line.item, line.options).Some? {
        OptionsErrorExplains(menu, line.item, line.options);
      } else {
        var groups := GroupsOf(menu.attachments, line.item);
        forall g | g in groups ensures Attachment(line.item, g) in menu.attachments {
          GroupsOfMembers(menu.attachments, line.item, g);
        }
        RulesErrorExplains(menu, line, groups);
      }
    }
  }

  /** A refused cart is refused for its first line that is not allowed, by an error that says what is wrong with it. */
  lemma {:induction false} RefusalNamesFirstBadLine(menu: Menu, lines: seq<CartLine>) returns (i: nat)
    requires PriceCart(menu, lines).Err?
    ensures i < |lines| && Explains(menu, lines[i], PriceCart(menu, lines).error)
    ensures !LineAllowed(menu, lines[i]) && forall j | 0 <= j < i :: LineAllowed(menu, lines[j])
  {
    var front, last := lines[..|lines| - 1], lines[|lines| - 1];
    if PriceCart(menu, front).Err? {
      i := RefusalNamesFirstBadLine(menu, front);
    } else {
      i := |front|;
      PriceCartAccepts(menu, front);
      LineErrorSound(menu, last);
      LineErrorExplains(menu, last);
      assert forall j | 0 <= j < i :: lines[j] == front[j] && front[j] in front;
    }
  }

  // ----- stock

  /** What a cart takes off a counted item, as far as there is any. */
  lemma {:induction false} SoldOneMore(lines: seq<PricedLine>, line: PricedLine, item: ItemId)
    ensures Sold([], item) == 0
    ensures Sold(lines + [line], item) == Sold(lines, item) + (if line.item == item then line.quantity else 0)
  {
    assert (lines + [line])[..|lines|] == lines;
  }

  /** Selling one line takes its quantity off its item, down to zero at most, and touches no other item. */
  lemma OneLineSold(stock: Stock, line: PricedLine)
    requires 0 < line.quantity
    ensures var left := StockAfter(stock, [line]);
      && left.Keys == stock.Keys
      && (forall item | item in stock && item != line.item :: left[item] == stock[item])
      && (line.item in stock ==>
            && (line.quantity <= stock[line.item] ==> left[line.item] == stock[line.item] - line.quantity)
            && (stock[line.item] < line.quantity ==> left[line.item] == 0))
  {
    SoldOneMore([], line, line.item);
    assert [] + [line] == [line];
    forall item | item in stock && item != line.item ensures StockAfter(stock, [line])[item] == stock[item] {
      SoldOneMore([], line, item);
    }
  }
}
