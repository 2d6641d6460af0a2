/** `mapWasteType`: maps a free-text label from the detection service onto
    one of seven coarse waste categories by ordered keyword rules. */
module WasteType {
  import opened Text
  import Tips

  datatype Category = Plastic | Paper | Cardboard | Metal | Glass | Organic | Trash

  /** The string `mapWasteType` returns, which is also the tips-table key. */
  function Key(c: Category): string
  {
    match c
    case Plastic => "plastic"
    case Paper => "paper"
    case Cardboard => "cardboard"
    case Metal => "metal"
    case Glass => "glass"
    case Organic => "organic"
    case Trash => "trash"
  }

  /** Position of a category's rule in the if-chain; the default comes last. */
  function Rank(c: Category): nat
  {
    match c
    case Plastic => 0
    case Paper => 1
    case Cardboard => 2
    case Metal => 3
    case Glass => 4
    case Organic => 5
    case Trash => 6
  }

  /** The keywords of a category's rule; the default rule has none. */
  function Keywords(c: Category): seq<string>
  {
    match c
    case Plastic => ["plastic"]
    case Paper => ["paper"]
    case Cardboard => ["cardboard"]
    case Metal => ["metal"]
    case Glass => ["glass"]
    case Organic => ["food", "organic"]
    case Trash => []
  }

  /** The rule of category `c` fires on the lower-cased label `low`. */
  ghost predicate Fires(low: string, c: Category)
  {
    exists k | k in Keywords(c) :: Occurs(k, low)
  }

  /** Reference semantics of an ordered rule list: `c` is chosen when its rule
      fires (or it is the default) and no earlier rule fires. */
  ghost predicate FirstRule(low: string, c: Category)
  {
    (c == Trash || Fires(low, c)) && forall d | Rank(d) < Rank(c) :: !Fires(low, d)
  }

  /** `mapWasteType(className)`: the first rule whose keyword occurs in the
      lower-cased class name wins; `Trash` is the default. */
  function MapWasteType(className: string): Category
  {
    var low := Lower(className);
    if Contains(low, "plastic") then Plastic
    else if Contains(low, "paper") then Paper
    else if Contains(low, "cardboard") then Cardboard
    else if Contains(low, "metal") then Metal
    else if Contains(low, "glass") then Glass
    else if Contains(low, "food") || Contains(low, "organic") then Organic
    else Trash
  }

  /** `Fires` spelled out rule by rule. */
  lemma FiresByRule(low: string, c: Category)
    ensures c == Plastic ==> (Fires(low, c) <==> Occurs("plastic", low))
    ensures c == Paper ==> (Fires(low, c) <==> Occurs("paper", low))
    ensures c == Cardboard ==> (Fires(low, c) <==> Occurs("cardboard", low))
    ensures c == Metal ==> (Fires(low, c) <==> Occurs("metal", low))
    ensures c == Glass ==> (Fires(low, c) <==> Occurs("glass", low))
    ensures c == Organic ==> (Fires(low, c) <==> Occurs("food", low) || Occurs("organic", low))
    ensures c == Trash ==> !Fires(low, c)
  {
  }

  /** `MapWasteType` implements the ordered-rule semantics: the category it
      returns is the first whose rule fires on the lower-cased name, and
      `Trash` only when no rule fires. */
  lemma {:induction false} MapWasteTypeIsFirstRule(className: string)
    ensures FirstRule(Lower(className), MapWasteType(className))
  {
    var low := Lower(className);
    ContainsMeansOccurs(low, "plastic");
    ContainsMeansOccurs(low, "paper");
    ContainsMeansOccurs(low, "cardboard");
    ContainsMeansOccurs(low, "metal");
    ContainsMeansOccurs(low, "glass");
    ContainsMeansOccurs(low, "food");
    ContainsMeansOccurs(low, "organic");
    var c := MapWasteType(className);
    FiresByRule(low, c);
    forall d | Rank(d) < Rank(c)
      ensures !Fires(low, d)
    {
      FiresByRule(low, d);
    }
  }

  /** At most one category satisfies the ordered-rule semantics, so
      `MapWasteTypeIsFirstRule` determines the result of `MapWasteType`. */
  lemma FirstRuleUnique(low: string, c: Category, d: Category)
    requires FirstRule(low, c) && FirstRule(low, d)
    ensures c == d
  {
  }

  /** Lower-casing the label first changes nothing. */
  lemma CaseInsensitive(className: string)
    ensures MapWasteType(Lower(className)) == MapWasteType(className)
  {
    LowerIdempotent(className);
  }

  /** A keyword of a category decides the result whenever no earlier rule's
      keyword occurs: in particular "plastic" in any letter case always gives
      `Plastic`. */
  lemma KeywordDecides(className: string, c: Category, k: string)
    requires k in Keywords(c) && Occurs(k, Lower(className))
    requires forall d | Rank(d) < Rank(c) :: !Fires(Lower(className), d)
    ensures MapWasteType(className) == c
  {
    MapWasteTypeIsFirstRule(className);
    FirstRuleUnique(Lower(className), MapWasteType(className), c);
  }

  lemma PlasticAnyCase(className: string)
    requires Occurs("plastic", Lower(className))
    ensures MapWasteType(className) == Plastic
  {
    KeywordDecides(className, Plastic, "plastic");
  }

  /** Overlaps resolve to the earlier rule: "plastic" beats "paper". */
  lemma PlasticBeatsPaper(className: string)
    requires Occurs("plastic", Lower(className)) && Occurs("paper", Lower(className))
    ensures MapWasteType(className) == Plastic
  {
    KeywordDecides(className, Plastic, "plastic");
  }

  /** Overlaps resolve to the earlier rule: "paper" beats "cardboard". */
  lemma PaperBeatsCardboard(className: string)
    requires Occurs("paper", Lower(className)) && Occurs("cardboard", Lower(className))
    requires !Occurs("plastic", Lower(className))
    ensures MapWasteType(className) == Paper
  {
    KeywordDecides(className, Paper, "paper");
  }

  /** "food" and "organic" both select `Organic` when no earlier keyword occurs. */
  lemma FoodIsOrganic(className: string)
    requires Occurs("food", Lower(className))
    requires forall d | Rank(d) < Rank(Organic) :: !Fires(Lower(className), d)
    ensures MapWasteType(className) == Organic
  {
    KeywordDecides(className, Organic, "food");
  }

  /** A label without any keyword falls through to the default. */
  lemma NoKeywordIsTrash(className: string)
    requires forall c | c != Trash :: !Fires(Lower(className), c)
    ensures MapWasteType(className) == Trash
  {
    MapWasteTypeIsFirstRule(className);
    FirstRuleUnique(Lower(className), MapWasteType(className), Trash);
  }

  /** Every category `MapWasteType` can return is a key of the tips table,
      and the keys of the table are exactly these categories; so the
      `|| segregationTips['trash']` fallback is never taken. */
  lemma KeysAreCategories()
    ensures forall c: Category :: Key(c) in Tips.Table && Tips.Lookup(Key(c)) == Tips.Table[Key(c)]
    ensures forall key | key in Tips.Table :: exists c: Category :: Key(c) == key
  {
    forall key | key in Tips.Table
      ensures exists c: Category :: Key(c) == key
    {
      if key == "plastic" { assert Key(Plastic) == key; }
      else if key == "paper" { assert Key(Paper) == key; }
      else if key == "cardboard" { assert Key(Cardboard) == key; }
      else if key == "metal" { assert Key(Metal) == key; }
      else if key == "glass" { assert Key(Glass) == key; }
      else if key == "organic" { assert Key(Organic) == key; }
      else { assert Key(Trash) == key; }
    }
  }

  /** Different categories have different keys, so each category gets its own
      table entry. */
  lemma KeyInjective(c: Category, d: Category)
    requires Key(c) == Key(d)
    ensures c == d
  {
  }

  /** The rule of `d` does not fire on `low` because character `j` of each of
      its keywords is missing from `low`. */
  lemma RuleSilent(low: string, d: Category, j: nat)
    requires d != Trash
    requires forall k | k in Keywords(d) :: j < |k| && k[j] !in low
    ensures !Fires(low, d)
  {
  }

  /** A lower-case name on which `c`'s rule fires (or `c` is the default) and
      every earlier rule stays silent maps to `c`. */
  lemma DecidedBy(low: string, c: Category)
    requires Lower(low) == low && (c == Trash || Fires(low, c))
    requires Rank(c) > 0 ==> !Fires(low, Plastic)
    requires Rank(c) > 1 ==> !Fires(low, Paper)
    requires Rank(c) > 2 ==> !Fires(low, Cardboard)
    requires Rank(c) > 3 ==> !Fires(low, Metal)
    requires Rank(c) > 4 ==> !Fires(low, Glass)
    requires Rank(c) > 5 ==> !Fires(low, Organic)
    ensures MapWasteType(low) == c
  {
    assert FirstRule(low, c);
    MapWasteTypeIsFirstRule(low);
    FirstRuleUnique(low, MapWasteType(low), c);
  }
}
