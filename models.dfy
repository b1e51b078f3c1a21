/** The eco-impact rule of a clothing listing: when a listing is saved
    without an eco impact, an estimate of the CO2 saved by swapping the
    item is computed from its category and condition and stored on it.
    The choice lists of the listing come first, then the rule itself. */
module Models {
  /** A parse that may find nothing. */
  datatype Option<+T> = None | Some(value: T)

  /** CONDITION_CHOICES: the state of wear of a listed item. */
  datatype Condition = New | LikeNew | Good | Fair {

    /** The string stored in the `condition` column; it fits the column width. */
    function Key(): (k: string)
      ensures 0 < |k| <= 10
    {
      match this
      case New => "new"
      case LikeNew => "like_new"
      case Good => "good"
      case Fair => "fair"
    }

    /** The label shown for the choice. */
    function Label(): string {
      match this
      case New => "New"
      case LikeNew => "Like New"
      case Good => "Good"
      case Fair => "Fair"
    }
  }

  /** CATEGORY_CHOICES: the fabric family of a listed item. */
  datatype Category = Cotton | Synthetic | Mixed {

    /** The string stored in the `category` column; it fits the column width. */
    function Key(): (k: string)
      ensures 0 < |k| <= 10
    {
      match this
      case Cotton => "cotton"
      case Synthetic => "synthetic"
      case Mixed => "mixed"
    }

    /** The label shown for the choice. */
    function Label(): string {
      match this
      case Cotton => "Cotton/Natural"
      case Synthetic => "Synthetic"
      case Mixed => "Mixed"
    }
  }

  /** The conditions in the order the choice list declares them, best first. */
  const ConditionChoices: seq<Condition> := [New, LikeNew, Good, Fair]

  /** The categories in the order the choice list declares them. */
  const CategoryChoices: seq<Category> := [Cotton, Synthetic, Mixed]

  /** Each choice list names every choice exactly once. */
  lemma ChoiceListsComplete()
    ensures forall c: Condition :: c in ConditionChoices
    ensures forall c: Category :: c in CategoryChoices
    ensures forall i, j :: 0 <= i < j < |ConditionChoices| ==> ConditionChoices[i] != ConditionChoices[j]
    ensures forall i, j :: 0 <= i < j < |CategoryChoices| ==> CategoryChoices[i] != CategoryChoices[j]
  {
    forall c: Condition ensures c in ConditionChoices {
      match c
      case New => assert ConditionChoices[0] == c;
      case LikeNew => assert ConditionChoices[1] == c;
      case Good => assert ConditionChoices[2] == c;
      case Fair => assert ConditionChoices[3] == c;
    }
    forall c: Category ensures c in CategoryChoices {
      match c
      case Cotton => assert CategoryChoices[0] == c;
      case Synthetic => assert CategoryChoices[1] == c;
      case Mixed => assert CategoryChoices[2] == c;
    }
  }

  /** The first position of `x` in `s`, as a list's `index` gives it. */
  function IndexOf<T(==)>(s: seq<T>, x: T): (i: nat)
    requires x in s
    ensures i < |s| && s[i] == x
    ensures forall k :: 0 <= k < i ==> s[k] != x
  {
    if s[0] == x then 0 else 1 + IndexOf(s[1..], x)
  }

  /** The position of a condition in its choice list (0 for `new`). */
  function ConditionRank(c: Condition): (i: nat)
    ensures i < |ConditionChoices| && ConditionChoices[i] == c
  {
    ChoiceListsComplete();
    IndexOf(ConditionChoices, c)
  }

  /** The default of the `category` column. */
  const DefaultCategory: Category := Mixed

  /** The condition a stored string denotes, or None when it is not one of the choices. */
  function ParseCondition(s: string): (r: Option<Condition>)
    ensures r.Some? ==> r.value.Key() == s
    ensures r.None? <==> forall c: Condition :: c.Key() != s
  {
    if s == "new" then Some(New)
    else if s == "like_new" then Some(LikeNew)
    else if s == "good" then Some(Good)
    else if s == "fair" then Some(Fair)
    else None
  }

  /** The category a stored string denotes, or None when it is not one of the choices. */
  function ParseCategory(s: string): (r: Option<Category>)
    ensures r.Some? ==> r.value.Key() == s
    ensures r.None? <==> forall c: Category :: c.Key() != s
  {
    if s == "cotton" then Some(Cotton)
    else if s == "synthetic" then Some(Synthetic)
    else if s == "mixed" then Some(Mixed)
    else None
  }

  /** Parsing a stored key gives back its choice, so no two choices share a key. */
  lemma ConditionKeyRoundTrip(c: Condition)
    ensures ParseCondition(c.Key()) == Some(c)
  {
  }

  lemma CategoryKeyRoundTrip(c: Category)
    ensures ParseCategory(c.Key()) == Some(c)
  {
  }

  /** The estimate before any scaling, in kg of CO2. */
  const BaseImpact: real := 5.0

  /** The multiplier looked up by the stored condition. */
  const ConditionMultipliers: map<string, real> :=
    map["new" := 1.2, "like_new" := 1.0, "good" := 0.8, "fair" := 0.6]

  /** The scaling by category: synthetic and cotton have their own factor;
      every other string, the default `mixed` included, keeps the base. */
  function CategoryFactor(category: string): (f: real)
    ensures 0.8 <= f <= 1.5
    ensures f == 1.5 <==> ParseCategory(category) == Some(Synthetic)
    ensures f == 0.8 <==> ParseCategory(category) == Some(Cotton)
    ensures f == 1.0 <==> ParseCategory(category) == Some(Mixed) || ParseCategory(category).None?
  {
    if category == "synthetic" then 1.5
    else if category == "cotton" then 0.8
    else 1.0
  }

  /** The scaling by condition: the multiplier table, with 1.0 for a
      condition outside it. */
  function ConditionFactor(condition: string): (f: real)
    ensures 0.6 <= f <= 1.2
    ensures f == 1.2 <==> ParseCondition(condition) == Some(New)
    ensures f == 0.8 <==> ParseCondition(condition) == Some(Good)
    ensures f == 0.6 <==> ParseCondition(condition) == Some(Fair)
    ensures f == 1.0 <==> ParseCondition(condition) == Some(LikeNew) || ParseCondition(condition).None?
  {
    if condition in ConditionMultipliers then ConditionMultipliers[condition] else 1.0
  }

  /** The eco impact a listing with this category and condition is given. */
  function Estimate(category: string, condition: string): (r: real)
    ensures 2.4 <= r <= 9.0
  {
    BaseImpact * CategoryFactor(category) * ConditionFactor(condition)
  }

  /** The value of `eco_impact` after a save that found `current` there:
      an unset (zero) value is replaced by the estimate, any other is kept. */
  function SavedImpact(current: real, category: string, condition: string): (r: real)
    ensures r != 0.0
    ensures current != 0.0 ==> r == current
    ensures current == 0.0 ==> r == Estimate(category, condition)
  {
    if current == 0.0 then Estimate(category, condition) else current
  }

  /** The estimate is lowest exactly for cotton in fair condition. */
  lemma MinimumOnlyAtCottonFair(category: string, condition: string)
    ensures Estimate(category, condition) == 2.4 <==> category == "cotton" && condition == "fair"
  {
  }

  /** The estimate is highest exactly for synthetic in new condition. */
  lemma MaximumOnlyAtSyntheticNew(category: string, condition: string)
    ensures Estimate(category, condition) == 9.0 <==> category == "synthetic" && condition == "new"
  {
  }

  /** With the category fixed, a better condition gives a strictly larger estimate. */
  lemma ConditionOrdersEstimate(category: string)
    ensures Estimate(category, New.Key()) > Estimate(category, LikeNew.Key())
    ensures Estimate(category, LikeNew.Key()) > Estimate(category, Good.Key())
    ensures Estimate(category, Good.Key()) > Estimate(category, Fair.Key())
  {
  }

  /** Along the declared order of the condition choices the estimate strictly
      falls, whatever the category. */
  lemma ChoiceOrderRanksEstimate(category: string, i: nat, j: nat)
    requires i < j < |ConditionChoices|
    ensures Estimate(category, ConditionChoices[i].Key()) > Estimate(category, ConditionChoices[j].Key())
  {
  }

  /** For two conditions, the one listed earlier among the choices is
      exactly the one with the larger estimate, whatever the category. */
  lemma EarlierConditionLargerEstimate(category: string, a: Condition, b: Condition)
    ensures ConditionRank(a) < ConditionRank(b)
        <==> Estimate(category, a.Key()) > Estimate(category, b.Key())
  {
    var i, j := ConditionRank(a), ConditionRank(b);
    if i < j {
      ChoiceOrderRanksEstimate(category, i, j);
    } else if j < i {
      ChoiceOrderRanksEstimate(category, j, i);
    } else {
      assert a == b;
    }
  }

  /** With the condition fixed, synthetic beats every other category and cotton is beaten by every other. */
  lemma CategoryOrdersEstimate(category: string, condition: string)
    ensures category != "synthetic" ==> Estimate("synthetic", condition) > Estimate(category, condition)
    ensures category != "cotton" ==> Estimate(category, condition) > Estimate("cotton", condition)
  {
  }

  /** A second save leaves the eco impact as the first one set it. */
  lemma SaveIdempotent(current: real, category: string, condition: string)
    ensures SavedImpact(SavedImpact(current, category, condition), category, condition)
         == SavedImpact(current, category, condition)
  {
  }

  /** The computation in `save`: scale the base by the category, then by the condition. */
  method ComputeEcoImpact(category: string, condition: string) returns (impact: real)
    ensures impact == Estimate(category, condition)
  {
    var baseImpact := BaseImpact;
    if category == "synthetic" {
      baseImpact := baseImpact * 1.5;
    } else if category == "cotton" {
      baseImpact := baseImpact * 0.8;
    }
    var multiplier := if condition in ConditionMultipliers then ConditionMultipliers[condition] else 1.0;
    impact := baseImpact * multiplier;
  }

  /** A clothing listing, with the fields `save` reads or writes and the
      descriptive fields it must leave alone. */
  class Listing {
    var title: string
    var description: string
    var condition: string
    var category: string
    var isPublic: bool
    var ecoImpact: real

    /** A new listing: the category defaults to `mixed`, the listing is
        public and no eco impact is set yet. */
    constructor (title: string, description: string, condition: string)
      ensures this.title == title && this.description == description
      ensures this.condition == condition && this.category == DefaultCategory.Key()
      ensures isPublic && ecoImpact == 0.0
    {
      this.title := title;
      this.description := description;
      this.condition := condition;
      this.category := DefaultCategory.Key();
      this.isPublic := true;
      this.ecoImpact := 0.0;
    }

    /** A new listing with its category given. */
    constructor WithCategory(title: string, description: string, condition: string, category: string)
      ensures this.title == title && this.description == description
      ensures this.condition == condition && this.category == category
      ensures isPublic && ecoImpact == 0.0
    {
      this.title := title;
      this.description := description;
      this.condition := condition;
      this.category := category;
      this.isPublic := true;
      this.ecoImpact := 0.0;
    }

    /** Fills in the eco impact when it is unset; persisting the row comes
        after and is not modelled. Only `ecoImpact` may change. */
    method Save()
      modifies this`ecoImpact
      ensures ecoImpact == SavedImpact(old(ecoImpact), category, condition)
    {
      if ecoImpact == 0.0 {
        ecoImpact := ComputeEcoImpact(category, condition);
      }
    }
  }

  /** Creating a listing: a fresh row whose first save always fills in the
      estimate, because a new listing starts with no eco impact. */
  method CreateListing(title: string, description: string, condition: string, category: string)
    returns (listing: Listing)
    ensures fresh(listing)
    ensures listing.title == title && listing.description == description
    ensures listing.condition == condition && listing.category == category && listing.isPublic
    ensures listing.ecoImpact == Estimate(category, condition)
  {
    listing := new Listing.WithCategory(title, description, condition, category);
    listing.Save();
  }
}
