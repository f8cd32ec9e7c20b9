/**
 Pricing a cart against the menu: which carts are refused and why, what each line costs, and
 what a sale takes out of stock.
 */
module Cart {
  import opened Money
  import opened Wrappers

  type ItemId = string
  type OptionId = string
  type GroupId = string

  /** Item rows already limited to the organization's available, undeleted items. */
  datatype MenuItem = MenuItem(price: int, taxExempt: bool)

  datatype MenuOption = MenuOption(group: GroupId, adjustment: int)

  datatype Group = Group(id: GroupId, required: bool, multiSelect: bool, maxSelections: Option<int>)

  /** One row of the item-to-group table, joined with the group's rule. */
  datatype Attachment = Attachment(item: ItemId, group: Group)

  datatype Menu = Menu(items: map<ItemId, MenuItem>, options: map<OptionId, MenuOption>, attachments: seq<Attachment>)

  datatype CartLine = CartLine(
    item: ItemId, quantity: int, options: seq<OptionId>, course: Option<int>, priceOverride: Option<int>)

  datatype PricedLine = PricedLine(
    item: ItemId, quantity: int, price: int, options: seq<OptionId>, course: Option<int>, taxExempt: bool)

  datatype CartError =
    | ItemNotFound(item: ItemId)
    | OptionNotFound(option: OptionId)
    | OptionNotApplicable(option: OptionId)
    | SelectionMissing(group: GroupId)
    | SingleSelectionExceeded(group: GroupId)
    | MaxSelectionsExceeded(group: GroupId)

  datatype PricedCart = PricedCart(lines: seq<PricedLine>, subtotal: int)

  // ----- what a valid line is, stated without the order the checks run in

  /** The groups attached to an item, in table order. */
  function GroupsOf(attachments: seq<Attachment>, item: ItemId): (groups: seq<Group>) {
    if attachments == [] then []
    else (if attachments[0].item == item then [attachments[0].group] else []) + GroupsOf(attachments[1..], item)
  }

  lemma {:induction false} GroupsOfMembers(attachments: seq<Attachment>, item: ItemId, group: Group)
    ensures group in GroupsOf(attachments, item) <==> Attachment(item, group) in attachments
  {
    if attachments != [] {
      GroupsOfMembers(attachments[1..], item, group);
      assert attachments == [attachments[0]] + attachments[1..];
    }
  }

  /** How many of the chosen options, repeats included, belong to a group. */
  function Chosen(menu: Menu, options: seq<OptionId>, group: GroupId): nat {
    if options == [] then 0
    else Chosen(menu, options[..|options| - 1], group) + (if Belongs(menu, options[|options| - 1], group) then 1 else 0)
  }

  predicate Belongs(menu: Menu, option: OptionId, group: GroupId) {
    option in menu.options && menu.options[option].group == group
  }

  predicate RuleMet(group: Group, count: int) {
    && (group.required ==> count >= 1)
    && (!group.multiSelect ==> count <= 1)
    && (group.multiSelect && group.maxSelections.Some? ==> count <= group.maxSelections.value)
  }

  ghost predicate OptionAllowed(menu: Menu, item: ItemId, option: OptionId) {
    option in menu.options &&
    exists group: Group :: Attachment(item, group) in menu.attachments && group.id == menu.options[option].group
  }

  ghost predicate LineAllowed(menu: Menu, line: CartLine) {
    && line.item in menu.items
    && (forall option | option in line.options :: OptionAllowed(menu, line.item, option))
    && (forall group: Group | Attachment(line.item, group) in menu.attachments ::
          RuleMet(group, Chosen(menu, line.options, group.id)))
  }

  // ----- what a line costs

  function Adjustments(menu: Menu, options: seq<OptionId>): int {
    if options == [] then 0
    else Adjustments(menu, options[..|options| - 1]) + AdjustmentOf(menu, options[|options| - 1])
  }

  function AdjustmentOf(menu: Menu, option: OptionId): int {
    if option in menu.options then menu.options[option].adjustment else 0
  }

  function UnitPrice(menu: Menu, line: CartLine): int
    requires line.item in menu.items
  {
    match line.priceOverride
    case Some(price) => price
    case None => menu.items[line.item].price + Adjustments(menu, line.options)
  }

  function Priced(menu: Menu, line: CartLine): PricedLine
    requires line.item in menu.items
  {
    var exempt := menu.items[line.item].taxExempt;
    PricedLine(line.item, line.quantity, UnitPrice(menu, line), line.options, line.course, exempt)
  }

  // ----- the checks in the order they run

  function OptionError(menu: Menu, item: ItemId, option: OptionId): Option<CartError> {
    if option !in menu.options then Some(OptionNotFound(option))
    else if menu.options[option].group !in GroupIds(GroupsOf(menu.attachments,
        item)) then Some(OptionNotApplicable(option))
    else None
  }

  function GroupIds(groups: seq<Group>): set<GroupId> {
    set g | g in groups :: g.id
  }

  function OptionsError(menu: Menu, item: ItemId, options: seq<OptionId>): Option<CartError> {
    if options == [] then None
    else
      var earlier := OptionsError(menu, item, options[..|options| - 1]);
      if earlier.Some? then earlier else OptionError(menu, item, options[|options| - 1])
  }

  function RuleError(group: Group, count: int): Option<CartError> {
    if group.required && count == 0 then Some(SelectionMissing(group.id))
    else if !group.multiSelect && count > 1 then Some(SingleSelectionExceeded(group.id))
    else if group.multiSelect && group.maxSelections.Some? && count > group.maxSelections.value then
      Some(MaxSelectionsExceeded(group.id))
    else None
  }

  function RulesError(menu: Menu, options: seq<OptionId>, groups: seq<Group>): Option<CartError> {
    if groups == [] then None
    else
      var earlier := RulesError(menu, options, groups[..|groups| - 1]);
      var last := groups[|groups| - 1];
      if earlier.Some? then earlier else RuleError(last, Chosen(menu, options, last.id))
  }

  function LineError(menu: Menu, line: CartLine): Option<CartError> {
    if line.item !in menu.items then Some(ItemNotFound(line.item))
    else
      var options := OptionsError(menu, line.item, line.options);
      if options.Some? then options else RulesError(menu, line.options, GroupsOf(menu.attachments, line.item))
  }

  /** The priced cart, or the refusal of its first bad line. */
  function PriceCart(menu: Menu, lines: seq<CartLine>): Result<PricedCart, CartError> {
    if lines == [] then Ok(PricedCart([], 0))
    else
      var last := lines[|lines| - 1];
      match PriceCart(menu, lines[..|lines| - 1])
      case Err(e) => Err(e)
      case Ok(cart) =>
        match LineError(menu, last)
        case Some(e) => Err(e)
        case None =>
          var priced := Priced(menu, last);
          Ok(PricedCart(cart.lines + [priced], cart.subtotal + priced.price * priced.quantity))
  }

  // ----- the checks accept exactly the valid carts

  lemma {:induction false} OptionsErrorSound(menu: Menu, item: ItemId, options: seq<OptionId>)
    ensures OptionsError(menu, item, options).None? <==> forall o | o in options :: OptionAllowed(menu, item, o)
  {
    if options != [] {
      var front, last := options[..|options| - 1], options[|options| - 1];
      OptionsErrorSound(menu, item, front);
      assert options == front + [last];
      forall g: Group ensures g in GroupsOf(menu.attachments, item) <==> Attachment(item, g) in menu.attachments {
        GroupsOfMembers(menu.attachments, item, g);
      }
      assert OptionError(menu, item, last).None? <==> OptionAllowed(menu, item, last);
    }
  }

  lemma {:induction false} RulesErrorSound(menu: Menu, options: seq<OptionId>, groups: seq<Group>)
    ensures RulesError(menu, options, groups).None?
      <==> forall g | g in groups :: RuleMet(g, Chosen(menu, options, g.id))
  {
    if groups != [] {
      var front, last := groups[..|groups| - 1], groups[|groups| - 1];
      RulesErrorSound(menu, options, front);
      RuleErrorSound(last, Chosen(menu, options, last.id));
      assert groups == front + [last];
    }
  }

  lemma RuleErrorSound(group: Group, count: int)
    requires 0 <= count
    ensures RuleError(group, count).None? <==> RuleMet(group, count)
  {
  }

  lemma LineErrorSound(menu: Menu, line: CartLine)
    ensures LineError(menu, line).None? <==> LineAllowed(menu, line)
  {
    OptionsErrorSound(menu, line.item, line.options);
    RulesErrorSound(menu, line.options, GroupsOf(menu.attachments, line.item));
    forall g: Group ensures g in GroupsOf(menu.attachments, line.item)
        <==> Attachment(line.item, g) in menu.attachments {
      GroupsOfMembers(menu.attachments, line.item, g);
    }
  }

  /**
   A cart is priced exactly when every line is allowed; then each line costs its own unit price and the subtotal is
   their sum.
   */
  lemma {:induction false} PriceCartAccepts(menu: Menu, lines: seq<CartLine>)
    ensures PriceCart(menu, lines).Ok? <==> forall l | l in lines :: LineAllowed(menu, l)
    ensures PriceCart(menu, lines).Ok? ==>
      var cart := PriceCart(menu, lines).value;
      && |cart.lines| == |lines|
      && (forall i | 0 <= i < |lines| :: lines[i].item in menu.items && cart.lines[i] == Priced(menu, lines[i]))
      && cart.subtotal == PricedTotal(cart.lines)
  {
    if lines != [] {
      var front, last := lines[..|lines| - 1], lines[|lines| - 1];
      PriceCartAccepts(menu, front);
      LineErrorSound(menu, last);
      assert lines == front + [last];
      if PriceCart(menu, lines).Ok? {
        var cart := PriceCart(menu, front).value;
        assert (cart.lines + [Priced(menu, last)])[..|cart.lines|] == cart.lines;
      }
    }
  }

  function PricedTotal(lines: seq<PricedLine>): int {
    if lines == [] then 0
    else PricedTotal(lines[..|lines| - 1]) + lines[|lines| - 1].price * lines[|lines| - 1].quantity
  }

  /** Ordering one more of an option adds its adjustment once more: each occurrence is charged. */
  lemma {:induction false} AdjustmentsCountOccurrences(menu: Menu, options: seq<OptionId>, option: OptionId, at: nat)
    requires at <= |options|
    ensures Adjustments(menu, options[..at] + [option] + options[at..])
      == Adjustments(menu, options) + AdjustmentOf(menu, option)
    decreases |options| - at
  {
    var grown := options[..at] + [option] + options[at..];
    if at == |options| {
      assert grown[..|grown| - 1] == options;
    } else {
      var front := options[..|options| - 1];
      AdjustmentsCountOccurrences(menu, front, option, at);
      assert grown[..|grown| - 1] == front[..at] + [option] + front[at..];
    }
  }

  /** A line without options on a menu without attachments is priced as its item. */
  lemma PlainLinePriced(menu: Menu, front: seq<CartLine>, line: CartLine, cart: PricedCart)
    requires PriceCart(menu, front) == Ok(cart) && line.item in menu.items
    requires menu.attachments == [] && line.options == [] && line.priceOverride.None?
    ensures var item := menu.items[line.item];
      PriceCart(menu, front + [line]) == Ok(PricedCart(
        cart.lines + [PricedLine(line.item, line.quantity, item.price, [], line.course, item.taxExempt)],
        cart.subtotal + item.price * line.quantity))
  {
    assert (front + [line])[..|front|] == front;
    assert LineError(menu, line).None?;
  }

  // ----- the service's loops

  /** The service's own pricing pass: one loop over the lines, a mutable count per group and a running subtotal. */
  method PriceCartItems(menu: Menu, lines: seq<CartLine>) returns (result: Result<PricedCart, CartError>)
    ensures result == PriceCart(menu, lines)
  {
    var priced: seq<PricedLine> := [];
    var subtotal := 0;
    for n := 0 to |lines|
      invariant PriceCart(menu, lines[..n]) == Ok(PricedCart(priced, subtotal))
    {
      var line := lines[n];
      assert lines[..n + 1][..n] == lines[..n];
      var error := CheckLine(menu, line);
      if error.Some? {
        FirstErrorStands(menu, lines, n + 1);
        return Err(error.value);
      }
      var unitPrice := UnitPrice(menu, line);
      subtotal := subtotal + unitPrice * line.quantity;
      priced := priced + [Priced(menu, line)];
    }
    assert lines[..|lines|] == lines;
    return Ok(PricedCart(priced, subtotal));
  }

  lemma {:induction false} FirstErrorStands(menu: Menu, lines: seq<CartLine>, n: nat)
    requires n <= |lines| && PriceCart(menu, lines[..n]).Err?
    ensures PriceCart(menu, lines) == PriceCart(menu, lines[..n])
    decreases |lines| - n
  {
    if n < |lines| {
      assert lines[..|lines| - 1][..n] == lines[..n];
      FirstErrorStands(menu, lines[..|lines| - 1], n);
    } else {
      assert lines[..n] == lines;
    }
  }

  /** Look up the chosen options one by one, counting selections per group. */
  method CountSelections(menu: Menu, line: CartLine, groupIds: set<GroupId>)
    returns (error: Option<CartError>, counts: map<GroupId, int>)
    requires groupIds == GroupIds(GroupsOf(menu.attachments, line.item))
    ensures error == OptionsError(menu, line.item, line.options)
    ensures error.None? ==> forall g: GroupId :: CountIn(counts, g) == Chosen(menu, line.options, g)
  {
    counts := map[];
    for n := 0 to |line.options|
      invariant OptionsError(menu, line.item, line.options[..n]).None?
      invariant forall g: GroupId :: CountIn(counts, g) == Chosen(menu, line.options[..n], g)
    {
      var option := line.options[n];
      assert line.options[..n + 1][..n] == line.options[..n];
      if option !in menu.options || menu.options[option].group !in groupIds {
        OptionErrorStands(menu, line.item, line.options, n + 1);
        return OptionError(menu, line.item, option), counts;
      }
      var group := menu.options[option].group;
      CountOneMore(menu, line.options[..n + 1], counts, option);
      counts := counts[group := CountIn(counts, group) + 1];
    }
    assert line.options[..|line.options|] == line.options;
    return None, counts;
  }

  /** Hold the counts against each attached group's rule. */
  method CheckRules(menu: Menu, options: seq<OptionId>, attached: seq<Group>, counts: map<GroupId, int>)
    returns (error: Option<CartError>)
    requires forall g: GroupId :: CountIn(counts, g) == Chosen(menu, options, g)
    ensures error == RulesError(menu, options, attached)
  {
    for n := 0 to |attached|
      invariant RulesError(menu, options, attached[..n]).None?
    {
      assert attached[..n + 1][..n] == attached[..n];
      var broken := RuleError(attached[n], CountIn(counts, attached[n].id));
      if broken.Some? {
        RuleErrorStands(menu, options, attached, n + 1);
        return broken;
      }
    }
    assert attached[..|attached|] == attached;
    return None;
  }

  method CheckLine(menu: Menu, line: CartLine) returns (error: Option<CartError>)
    ensures error == LineError(menu, line)
  {
    if line.item !in menu.items {
      return Some(ItemNotFound(line.item));
    }
    var attached := GroupsOf(menu.attachments, line.item);
    var counts: map<GroupId, int>;
    error, counts := CountSelections(menu, line, GroupIds(attached));
    if error.None? {
      error := CheckRules(menu, line.options, attached, counts);
    }
  }

  function CountIn(counts: map<GroupId, int>, group: GroupId): int {
    if group in counts then counts[group] else 0
  }

  lemma CountOneMore(menu: Menu, options: seq<OptionId>, counts: map<GroupId, int>, option: OptionId)
    requires options != [] && options[|options| - 1] == option && option in menu.options
    requires forall g: GroupId :: CountIn(counts, g) == Chosen(menu, options[..|options| - 1], g)
    ensures var group := menu.options[option].group;
      forall g: GroupId :: CountIn(counts[group := CountIn(counts, group) + 1], g) == Chosen(menu, options, g)
  {
    var group := menu.options[option].group;
    forall g: GroupId ensures CountIn(counts[group := CountIn(counts, group) + 1], g) == Chosen(menu, options, g) {
      assert CountIn(counts, g) == Chosen(menu, options[..|options| - 1], g);
    }
  }

  lemma {:induction false} OptionErrorStands(menu: Menu, item: ItemId, options: seq<OptionId>, n: nat)
    requires n <= |options| && OptionsError(menu, item, options[..n]).Some?
    ensures OptionsError(menu, item, options) == OptionsError(menu, item, options[..n])
    decreases |options| - n
  {
    if n < |options| {
      assert options[..|options| - 1][..n] == options[..n];
      OptionErrorStands(menu, item, options[..|options| - 1], n);
    } else {
      assert options[..n] == options;
    }
  }

  lemma {:induction false} RuleErrorStands(menu: Menu, options: seq<OptionId>, groups: seq<Group>, n: nat)
    requires n <= |groups| && RulesError(menu, options, groups[..n]).Some?
    ensures RulesError(menu, options, groups) == RulesError(menu, options, groups[..n])
    decreases |groups| - n
  {
    if n < |groups| {
      assert groups[..|groups| - 1][..n] == groups[..n];
      RuleErrorStands(menu, options, groups[..|groups| - 1], n);
    } else {
      assert groups[..n] == groups;
    }
  }

  // ----- taxable part and stock

  function TaxableTotal(lines: seq<PricedLine>): int {
    if lines == [] then 0
    else
      var last := lines[|lines| - 1];
      TaxableTotal(lines[..|lines| - 1]) + (if last.taxExempt then 0 else last.price * last.quantity)
  }

  /** The taxable part never exceeds the subtotal, and is all of it when nothing is exempt. */
  lemma {:induction false} TaxableWithinSubtotal(lines: seq<PricedLine>)
    requires forall l | l in lines :: 0 <= l.price && 0 < l.quantity
    ensures 0 <= TaxableTotal(lines) <= PricedTotal(lines)
    ensures (forall l | l in lines :: !l.taxExempt) ==> TaxableTotal(lines) == PricedTotal(lines)
  {
    if lines != [] {
      var front, last := lines[..|lines| - 1], lines[|lines| - 1];
      TaxableWithinSubtotal(front);
      assert last in lines;
      assert 0 <= last.price * last.quantity;
    }
  }

  /** Counted stock by item; an item without a counted quantity is absent. */
  type Stock = map<ItemId, int>

  function Sold(lines: seq<PricedLine>, item: ItemId): int {
    if lines == [] then 0
    else Sold(lines[..|lines| - 1], item) + (if lines[|lines| - 1].item == item then lines[|lines| - 1].quantity else 0)
  }

  /** Stock after a sale: flooring once, after everything sold is taken off. */
  function StockAfter(stock: Stock, lines: seq<PricedLine>): Stock {
    map item | item in stock :: if Sold(lines, item) == 0 then stock[item] else Max(stock[item] - Sold(lines, item), 0)
  }

  lemma {:induction false} SoldNonNegative(lines: seq<PricedLine>, item: ItemId)
    requires forall l | l in lines :: 0 < l.quantity
    ensures 0 <= Sold(lines, item)
  {
    if lines != [] {
      SoldNonNegative(lines[..|lines| - 1], item);
      assert lines[|lines| - 1] in lines;
    }
  }

  lemma StockAfterOneMore(stock: Stock, lines: seq<PricedLine>, line: PricedLine)
    requires 0 < line.quantity && forall l | l in lines :: 0 < l.quantity
    ensures var before := StockAfter(stock, lines);
      StockAfter(stock, lines + [line]) ==
      if line.item in stock then before[line.item := Max(before[line.item] - line.quantity, 0)] else before
  {
    assert (lines + [line])[..|lines|] == lines;
    SoldNonNegative(lines, line.item);
  }

  /** The service floors at zero after every line; that is the same as flooring once at the end. */
  method DecrementStock(stock: Stock, lines: seq<PricedLine>) returns (left: Stock)
    requires forall l | l in lines :: 0 < l.quantity
    ensures left == StockAfter(stock, lines)
  {
    left := stock;
    for n := 0 to |lines|
      invariant left == StockAfter(stock, lines[..n])
    {
      var line := lines[n];
      assert lines[..n + 1] == lines[..n] + [line];
      StockAfterOneMore(stock, lines[..n], line);
      if line.item in left {
        left := left[line.item := Max(left[line.item] - line.quantity, 0)];
      }
    }
    assert lines[..|lines|] == lines;
  }

  lemma {:induction false} SoldAppend(a: seq<PricedLine>, b: seq<PricedLine>, item: ItemId)
    ensures Sold(a + b, item) == Sold(a, item) + Sold(b, item)
  {
    if b == [] {
      assert a + b == a;
    } else {
      SoldAppend(a, b[..|b| - 1], item);
      assert (a + b)[..|a + b| - 1] == a + b[..|b| - 1];
    }
  }

  /** Two sales take from stock what one sale of all their lines would: flooring in between loses nothing. */
  lemma StockAfterTwoSales(stock: Stock, a: seq<PricedLine>, b: seq<PricedLine>)
    requires (forall l | l in a :: 0 < l.quantity) && (forall l | l in b :: 0 < l.quantity)
    ensures StockAfter(StockAfter(stock, a), b) == StockAfter(stock, a + b)
  {
    forall item | item in stock ensures StockAfter(StockAfter(stock, a), b)[item] == StockAfter(stock, a + b)[item] {
      SoldAppend(a, b, item);
      SoldNonNegative(a, item);
      SoldNonNegative(b, item);
    }
  }
}
