/** The composed cache keys of the menu: different requests never share one. */
module CacheKeys {
  import opened MenuCache
  import opened Wrappers

  type Text = string

  function Digit(d: nat): char
    requires d < 10
  {
    "0123456789"[d]
  }

  /** A whole number as the template string prints it. */
  function Decimal(n: nat): Text {
    if n < 10 then [Digit(n)] else Decimal(n / 10) + [Digit(n % 10)]
  }

  function DigitValue(c: char): int { c as int - '0' as int }

  function DecimalValue(t: Text): int {
    if t == "" then 0 else 10 * DecimalValue(t[..|t| - 1]) + DigitValue(t[|t| - 1])
  }

  lemma {:induction false} DecimalReadsBack(n: nat)
    ensures DecimalValue(Decimal(n)) == n && ':' !in Decimal(n) && Decimal(n) != ""
  {
    if n >= 10 {
      DecimalReadsBack(n / 10);
      assert Decimal(n)[..|Decimal(n)| - 1] == Decimal(n / 10);
    } else {
      assert Decimal(n)[..0] == "";
    }
  }

  function Join(a: Text, b: Text): Text { a + ":" + b }

  /** `menu:${org}:v${version}:${scope}:${location || 'all'}:${offset}:${limit}` */
  function MenuKey(org: Text, version: nat, view: View): Text {
    Join("menu", Join(org, Join("v" + Decimal(version), Join(Scope(view.withDeleted), PagePart(view)))))
  }

  function PagePart(view: View): Text {
    Join(Join(LocationPart(view.location), Decimal(view.offset)), Decimal(view.limit))
  }

  function Scope(withDeleted: bool): Text { if withDeleted then "withDeleted" else "active" }

  /** Any text the request gives; only a missing or empty one becomes `all`. */
  function LocationPart(location: Option<Text>): Text {
    if location.Some? && location.value != "" then location.value else "all"
  }

  function VersionKey(org: Text): Text { Join("menu", Join(org, "ver")) }

  lemma FirstColonSplits(a: Text, x: Text, b: Text, y: Text)
    requires ':' !in a && ':' !in b && Join(a, x) == Join(b, y)
    ensures a == b && x == y
  {
    var whole := Join(a, x);
    assert whole[|a|] == ':' && whole[|b|] == ':';
    assert forall i | 0 <= i < |a| :: whole[i] == a[i] && a[i] in a;
    assert forall i | 0 <= i < |b| :: whole[i] == b[i] && b[i] in b;
    assert |a| == |b|;
    assert whole[..|a|] == a && whole[..|b|] == b;
    assert whole[|a| + 1..] == x && whole[|b| + 1..] == y;
  }

  lemma LastColonSplits(x: Text, a: Text, y: Text, b: Text)
    requires ':' !in a && ':' !in b && Join(x, a) == Join(y, b)
    ensures x == y && a == b
  {
    var whole := Join(x, a);
    assert whole[|x|] == ':' && whole[|y|] == ':';
    assert forall i | |x| < i < |whole| :: whole[i] == a[i - |x| - 1] && a[i - |x| - 1] in a;
    assert forall i | |y| < i < |whole| :: whole[i] == b[i - |y| - 1] && b[i - |y| - 1] in b;
    assert |x| == |y|;
    assert whole[..|x|] == x && whole[..|y|] == y;
    assert whole[|x| + 1..] == a && whole[|y| + 1..] == b;
  }

  /** The page reads back from its end, whatever the location text is. */
  lemma PagePartInjective(view: View, view': View)
    requires PagePart(view) == PagePart(view')
    ensures LocationPart(view.location) == LocationPart(view'.location)
    ensures view.offset == view'.offset && view.limit == view'.limit
  {
    DecimalReadsBack(view.offset); DecimalReadsBack(view'.offset);
    DecimalReadsBack(view.limit); DecimalReadsBack(view'.limit);
    LastColonSplits(Join(LocationPart(view.location), Decimal(view.offset)), Decimal(view.limit),
      Join(LocationPart(view'.location), Decimal(view'.offset)), Decimal(view'.limit));
    LastColonSplits(LocationPart(view.location), Decimal(view.offset),
      LocationPart(view'.location), Decimal(view'.offset));
  }

  lemma ScopeReadsBack(a: bool, b: bool)
    ensures ':' !in Scope(a) && (Scope(a) == Scope(b) <==> a == b)
  {
    assert Scope(true)[0] != Scope(false)[0];
  }

  lemma VersionReadsBack(version: nat, version': nat)
    ensures ':' !in "v" + Decimal(version)
    ensures "v" + Decimal(version) == "v" + Decimal(version') <==> version == version'
  {
    DecimalReadsBack(version); DecimalReadsBack(version');
    assert ("v" + Decimal(version))[1..] == Decimal(version) && ("v" + Decimal(version'))[1..] == Decimal(version');
  }

  /**
   Two menu requests share a key exactly when they ask for the same page of the same menu at the same version; a
   location text may be anything, colons included, and only the text `all` stands for none as well.
   */
  lemma MenuKeyInjective(org: Text, version: nat, view: View, org': Text, version': nat, view': View)
    requires ':' !in org && ':' !in org'
    ensures MenuKey(org, version, view) == MenuKey(org', version', view') <==>
      && org == org' && version == version' && view.withDeleted == view'.withDeleted
      && LocationPart(view.location) == LocationPart(view'.location)
      && view.offset == view'.offset && view.limit == view'.limit
  {
    if MenuKey(org, version, view) == MenuKey(org', version', view') {
      var scope := Join(Scope(view.withDeleted), PagePart(view));
      var scope' := Join(Scope(view'.withDeleted), PagePart(view'));
      var rest, rest' := Join("v" + Decimal(version), scope), Join("v" + Decimal(version'), scope');
      FirstColonSplits("menu", Join(org, rest), "menu", Join(org', rest'));
      FirstColonSplits(org, rest, org', rest');
      VersionReadsBack(version, version');
      VersionReadsBack(version', version);
      FirstColonSplits("v" + Decimal(version), scope, "v" + Decimal(version'), scope');
      ScopeReadsBack(view.withDeleted, view'.withDeleted);
      ScopeReadsBack(view'.withDeleted, view.withDeleted);
      FirstColonSplits(Scope(view.withDeleted), PagePart(view), Scope(view'.withDeleted), PagePart(view'));
      PagePartInjective(view, view');
    }
  }

  lemma JoinAssociates(a: Text, b: Text, c: Text)
    ensures Join(a, Join(b, c)) == Join(Join(a, b), c)
  {
  }

  /** The keys as they read; a missing or empty location reads `all`. */
  lemma KeysRead(org: Text, version: nat, view: View)
    ensures var scope := if view.withDeleted then "withDeleted" else "active";
      var location := if view.location == None || view.location == Some("") then "all" else view.location.value;
      var page := location + ":" + Decimal(view.offset) + ":" + Decimal(view.limit);
      MenuKey(org, version, view) == "menu" + ":" + org + ":" + ("v" + Decimal(version)) + ":" + scope + ":" + page
    ensures VersionKey(org) == "menu" + ":" + org + ":" + "ver"
  {
    var v, scope, page := "v" + Decimal(version), Scope(view.withDeleted), PagePart(view);
    JoinAssociates("menu", org, Join(v, Join(scope, page)));
    JoinAssociates(Join("menu", org), v, Join(scope, page));
    JoinAssociates(Join(Join("menu", org), v), scope, page);
    JoinAssociates("menu", org, "ver");
  }

  /** No menu is ever stored over a version stamp. */
  lemma MenuKeyIsNoVersionKey(org: Text, version: nat, view: View, org': Text)
    requires ':' !in org && ':' !in org'
    ensures MenuKey(org, version, view) != VersionKey(org')
  {
    var rest := Join("v" + Decimal(version), Join(Scope(view.withDeleted), PagePart(view)));
    assert rest[|"v" + Decimal(version)|] == ':' && ':' in rest;
    assert ':' !in "ver";
    if MenuKey(org, version, view) == VersionKey(org') {
      FirstColonSplits("menu", Join(org, rest), "menu", Join(org', "ver"));
      FirstColonSplits(org, rest, org', "ver");
    }
  }
}
