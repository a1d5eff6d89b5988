/**
 * The rules content tree (categories of subcategories of rules) and the
 * editor's rebuilds of it. Every operation returns a new tree, as the
 * editor's `map`/`filter`/spread code does. Ids are not unique: an update or
 * a delete acts on every entry whose id matches.
 */
module Rules {
  import opened Wrappers
  import opened Text

  datatype Rule = Rule(id: string, title: string, description: string, lastUpdate: Option<string>)

  datatype SubCategory = SubCategory(id: string, title: string, description: Option<string>, rules: seq<Rule>)

  datatype MainCategory = MainCategory(id: string, title: string, subCategories: seq<SubCategory>)

  /** `Partial<...>` updates: a `Some` field overrides, a `None` field keeps the old value. */
  datatype CategoryUpdate = CategoryUpdate(id: Option<string>, title: Option<string>, subCategories: Option<seq<SubCategory>>)

  datatype SubCategoryUpdate =
    SubCategoryUpdate(id: Option<string>, title: Option<string>, description: Option<string>, rules: Option<seq<Rule>>)

  datatype RuleUpdate =
    RuleUpdate(id: Option<string>, title: Option<string>, description: Option<string>, lastUpdate: Option<string>)

  const NewCategoryTitle: string := "Yeni Kategori"
  const NewSubCategoryTitle: string := "Yeni Alt Kategori"
  const NewSubCategoryDescription: string :=
    "Bu b\U{00F6}l\U{00FC}mdeki kurallar a\U{015F}a\U{011F}\U{0131}da listelenmi\U{015F}tir."
  const NewRuleTitle: string := "Yeni Kural"
  const NewRuleDescription: string := "Kural a\U{00E7}\U{0131}klamas\U{0131} buraya yaz\U{0131}lacak."

  function CategoryId(c: MainCategory): string { c.id }
  function SubCategoryId(s: SubCategory): string { s.id }
  function RuleId(r: Rule): string { r.id }

  // ---------------------------------------------------------------------
  // Generic `find` and `filter` by id

  /** `s.findIndex(x => idOf(x) === id)`: the position of the first entry with that id, or -1. */
  function FirstIndexWithId<T>(s: seq<T>, idOf: T -> string, id: string): (k: int)
    ensures -1 <= k < |s|
    ensures k == -1 <==> forall i :: 0 <= i < |s| ==> idOf(s[i]) != id
    ensures k != -1 ==> FirstWithId(s, idOf, id, k)
  {
    if |s| == 0 then -1
    else if idOf(s[0]) == id then 0
    else
      var k := FirstIndexWithId(s[1..], idOf, id);
      if k == -1 then -1 else k + 1
  }

  /** `s.find(x => idOf(x) === id)`: the first entry with that id. */
  function FindById<T>(s: seq<T>, idOf: T -> string, id: string): (r: Option<T>)
    ensures r.None? <==> forall i :: 0 <= i < |s| ==> idOf(s[i]) != id
    ensures r.Some? ==> exists k :: FirstWithId(s, idOf, id, k) && s[k] == r.value
  {
    var k := FirstIndexWithId(s, idOf, id);
    if k == -1 then None else assert FirstWithId(s, idOf, id, k); Some(s[k])
  }

  /** Index `k` holds the first entry with that id. */
  predicate FirstWithId<T>(s: seq<T>, idOf: T -> string, id: string, k: int) {
    0 <= k < |s| && idOf(s[k]) == id && forall j :: 0 <= j < k ==> idOf(s[j]) != id
  }

  /** `s.filter(x => idOf(x) !== id)`. */
  function WithoutId<T>(s: seq<T>, idOf: T -> string, id: string): seq<T> {
    if |s| == 0 then []
    else (if idOf(s[0]) == id then [] else [s[0]]) + WithoutId(s[1..], idOf, id)
  }

  /** The number of entries carrying `id`. */
  function CountId<T>(s: seq<T>, idOf: T -> string, id: string): nat {
    if |s| == 0 then 0 else (if idOf(s[0]) == id then 1 else 0) + CountId(s[1..], idOf, id)
  }

  /** The filter keeps exactly the entries with another id, and one fewer per removed entry. */
  lemma {:induction false} WithoutIdMembers<T>(s: seq<T>, idOf: T -> string, id: string)
    ensures forall x :: x in WithoutId(s, idOf, id) <==> x in s && idOf(x) != id
    ensures |WithoutId(s, idOf, id)| == |s| - CountId(s, idOf, id)
  {
    if |s| > 0 {
      WithoutIdMembers(s[1..], idOf, id);
      assert s == [s[0]] + s[1..];
    }
  }

  /** The filter works piecewise, so the kept entries stay in their original order. */
  lemma {:induction false} WithoutIdConcat<T>(a: seq<T>, b: seq<T>, idOf: T -> string, id: string)
    ensures WithoutId(a + b, idOf, id) == WithoutId(a, idOf, id) + WithoutId(b, idOf, id)
  {
    if |a| == 0 {
      assert a + b == b;
    } else {
      assert (a + b)[1..] == a[1..] + b;
      WithoutIdConcat(a[1..], b, idOf, id);
    }
  }

  /** Removing an id nobody carries changes nothing. */
  lemma {:induction false} WithoutAbsentId<T>(s: seq<T>, idOf: T -> string, id: string)
    requires forall i :: 0 <= i < |s| ==> idOf(s[i]) != id
    ensures WithoutId(s, idOf, id) == s
  {
    if |s| > 0 {
      WithoutAbsentId(s[1..], idOf, id);
    }
  }

  // ---------------------------------------------------------------------
  // Merging partial updates (`{ ...x, ...updates }`)

  function MergeCategory(c: MainCategory, u: CategoryUpdate): MainCategory {
    MainCategory(u.id.GetOr(c.id), u.title.GetOr(c.title), u.subCategories.GetOr(c.subCategories))
  }

  function MergeSubCategory(s: SubCategory, u: SubCategoryUpdate): SubCategory {
    SubCategory(u.id.GetOr(s.id), u.title.GetOr(s.title),
                if u.description.Some? then u.description else s.description,
                u.rules.GetOr(s.rules))
  }

  /** `{ ...rule, ...updates, lastUpdate: today }`: the stamp always wins over the update's own. */
  function MergeRule(r: Rule, u: RuleUpdate, today: string): Rule {
    Rule(u.id.GetOr(r.id), u.title.GetOr(r.title), u.description.GetOr(r.description), Some(today))
  }

  // ---------------------------------------------------------------------
  // Categories

  function NewCategoryId(cats: seq<MainCategory>): string {
    NatToDecimal(|cats| + 1)
  }

  function AddCategory(cats: seq<MainCategory>): seq<MainCategory> {
    cats + [MainCategory(NewCategoryId(cats), NewCategoryTitle, [])]
  }

  function UpdateCategory(cats: seq<MainCategory>, id: string, u: CategoryUpdate): seq<MainCategory> {
    seq(|cats|, i requires 0 <= i < |cats| => if cats[i].id == id then MergeCategory(cats[i], u) else cats[i])
  }

  function DeleteCategory(cats: seq<MainCategory>, id: string): seq<MainCategory> {
    WithoutId(cats, CategoryId, id)
  }

  // ---------------------------------------------------------------------
  // Subcategories

  function NewSubCategoryId(categoryId: string, c: MainCategory): string {
    categoryId + "." + NatToDecimal(|c.subCategories| + 1)
  }

  function NewSubCategory(id: string): SubCategory {
    SubCategory(id, NewSubCategoryTitle, Some(NewSubCategoryDescription), [])
  }

  /**
   * `addSubCategory`: the first category with that id supplies the children;
   * its list plus the new subcategory is then written to every category with
   * that id (it goes through `updateCategory`).
   */
  function AddSubCategory(cats: seq<MainCategory>, categoryId: string): seq<MainCategory> {
    match FindById(cats, CategoryId, categoryId)
    case None => cats
    case Some(c) =>
      var added := c.subCategories + [NewSubCategory(NewSubCategoryId(categoryId, c))];
      UpdateCategory(cats, categoryId, CategoryUpdate(None, None, Some(added)))
  }

  /** Applies `f`-style edits to the subcategories of every category with id `categoryId`. */
  function UpdateSubCategory(cats: seq<MainCategory>, categoryId: string, subCategoryId: string, u: SubCategoryUpdate)
    : seq<MainCategory>
  {
    seq(|cats|, i requires 0 <= i < |cats| =>
      if cats[i].id != categoryId then cats[i]
      else cats[i].(subCategories := UpdateSubs(cats[i].subCategories, subCategoryId, u)))
  }

  function UpdateSubs(subs: seq<SubCategory>, subCategoryId: string, u: SubCategoryUpdate): seq<SubCategory> {
    seq(|subs|, j requires 0 <= j < |subs| =>
      if subs[j].id == subCategoryId then MergeSubCategory(subs[j], u) else subs[j])
  }

  function DeleteSubCategory(cats: seq<MainCategory>, categoryId: string, subCategoryId: string): seq<MainCategory> {
    seq(|cats|, i requires 0 <= i < |cats| =>
      if cats[i].id != categoryId then cats[i]
      else cats[i].(subCategories := WithoutId(cats[i].subCategories, SubCategoryId, subCategoryId)))
  }

  // ---------------------------------------------------------------------
  // Rules

  function NewRuleId(subCategoryId: string, s: SubCategory): string {
    subCategoryId + "." + NatToDecimal(|s.rules| + 1)
  }

  function NewRule(id: string, today: string): Rule {
    Rule(id, NewRuleTitle, NewRuleDescription, Some(today))
  }

  /** The subcategory `addRule` finds: the first match inside the first matching category. */
  function FindSubCategory(cats: seq<MainCategory>, categoryId: string, subCategoryId: string): Option<SubCategory> {
    match FindById(cats, CategoryId, categoryId)
    case None => None
    case Some(c) => FindById(c.subCategories, SubCategoryId, subCategoryId)
  }

  /**
   * `addRule`: no-op unless the category and the subcategory are found; the
   * found subcategory's rules plus the new rule are written to every matching
   * subcategory of every matching category (it goes through `updateSubCategory`).
   */
  function AddRule(cats: seq<MainCategory>, categoryId: string, subCategoryId: string, today: string)
    : seq<MainCategory>
  {
    match FindSubCategory(cats, categoryId, subCategoryId)
    case None => cats
    case Some(s) =>
      var added := s.rules + [NewRule(NewRuleId(subCategoryId, s), today)];
      UpdateSubCategory(cats, categoryId, subCategoryId, SubCategoryUpdate(None, None, None, Some(added)))
  }

  function UpdateRule(cats: seq<MainCategory>, categoryId: string, subCategoryId: string, ruleId: string,
                      u: RuleUpdate, today: string): seq<MainCategory>
  {
    seq(|cats|, i requires 0 <= i < |cats| =>
      if cats[i].id != categoryId then cats[i]
      else cats[i].(subCategories := UpdateRulesIn(cats[i].subCategories, subCategoryId, ruleId, u, today)))
  }

  function UpdateRulesIn(subs: seq<SubCategory>, subCategoryId: string, ruleId: string, u: RuleUpdate, today: string)
    : seq<SubCategory>
  {
    seq(|subs|, j requires 0 <= j < |subs| =>
      if subs[j].id != subCategoryId then subs[j]
      else subs[j].(rules := seq(|subs[j].rules|, k requires 0 <= k < |subs[j].rules| =>
                     if subs[j].rules[k].id == ruleId then MergeRule(subs[j].rules[k], u, today) else subs[j].rules[k])))
  }

  function DeleteRule(cats: seq<MainCategory>, categoryId: string, subCategoryId: string, ruleId: string)
    : seq<MainCategory>
  {
    seq(|cats|, i requires 0 <= i < |cats| =>
      if cats[i].id != categoryId then cats[i]
      else cats[i].(subCategories := DeleteRulesIn(cats[i].subCategories, subCategoryId, ruleId)))
  }

  function DeleteRulesIn(subs: seq<SubCategory>, subCategoryId: string, ruleId: string): seq<SubCategory> {
    seq(|subs|, j requires 0 <= j < |subs| =>
      if subs[j].id != subCategoryId then subs[j]
      else subs[j].(rules := WithoutId(subs[j].rules, RuleId, ruleId)))
  }

  // ---------------------------------------------------------------------
  // Expand/collapse

  /** Copy the set, then delete `id` if present, else add it. */
  function Toggle(expanded: set<string>, id: string): (r: set<string>)
    ensures id in r <==> id !in expanded
    ensures forall x :: x != id ==> (x in r <==> x in expanded)
  {
    if id in expanded then expanded - {id} else expanded + {id}
  }

  lemma ToggleTwice(expanded: set<string>, id: string)
    ensures Toggle(Toggle(expanded, id), id) == expanded
  {
  }

  // ---------------------------------------------------------------------
  // Deleting from the confirmation dialog

  datatype ItemKind = CategoryItem | SubCategoryItem | RuleItem

  datatype DeleteTarget = DeleteTarget(kind: ItemKind, id: string, parentId: Option<string>, subParentId: Option<string>)

  /**
   * The dialog's confirm handler: the new tree, or `None` when no branch
   * applies (a subcategory without a parent id, a rule without both parent ids).
   */
  function ConfirmedDelete(cats: seq<MainCategory>, t: DeleteTarget): (r: Option<seq<MainCategory>>)
    ensures r.None? <==> (t.kind == SubCategoryItem && !Present(t.parentId))
                         || (t.kind == RuleItem && !(Present(t.parentId) && Present(t.subParentId)))
    ensures t.kind == CategoryItem ==> r == Some(DeleteCategory(cats, t.id))
    ensures t.kind == SubCategoryItem && r.Some? ==> r == Some(DeleteSubCategory(cats, t.parentId.value, t.id))
    ensures t.kind == RuleItem && r.Some? ==> r == Some(DeleteRule(cats, t.parentId.value, t.subParentId.value, t.id))
  {
    match t.kind
    case CategoryItem => Some(DeleteCategory(cats, t.id))
    case SubCategoryItem =>
      if Present(t.parentId) then Some(DeleteSubCategory(cats, t.parentId.value, t.id)) else None
    case RuleItem =>
      if Present(t.parentId) && Present(t.subParentId)
      then Some(DeleteRule(cats, t.parentId.value, t.subParentId.value, t.id))
      else None
  }

  // ---------------------------------------------------------------------
  // Counting rules

  function SubRuleCount(subs: seq<SubCategory>): nat {
    if |subs| == 0 then 0 else |subs[0].rules| + SubRuleCount(subs[1..])
  }

  function CategoryRuleCount(c: MainCategory): nat {
    SubRuleCount(c.subCategories)
  }

  /** `totalRules`: the nested `reduce` over categories and their subcategories. */
  function TotalRules(cats: seq<MainCategory>): nat {
    if |cats| == 0 then 0 else CategoryRuleCount(cats[0]) + TotalRules(cats[1..])
  }

  /** Every rule of the tree, category by category and subcategory by subcategory. */
  function AllRules(cats: seq<MainCategory>): seq<Rule> {
    if |cats| == 0 then [] else SubRules(cats[0].subCategories) + AllRules(cats[1..])
  }

  function SubRules(subs: seq<SubCategory>): seq<Rule> {
    if |subs| == 0 then [] else subs[0].rules + SubRules(subs[1..])
  }

  /** The count is the number of rules in the tree. */
  lemma {:induction false} TotalRulesCountsAllRules(cats: seq<MainCategory>)
    ensures TotalRules(cats) == |AllRules(cats)|
  {
    if |cats| > 0 {
      SubRuleCountIsLength(cats[0].subCategories);
      TotalRulesCountsAllRules(cats[1..]);
    }
  }

  lemma {:induction false} SubRuleCountIsLength(subs: seq<SubCategory>)
    ensures SubRuleCount(subs) == |SubRules(subs)|
  {
    if |subs| > 0 {
      SubRuleCountIsLength(subs[1..]);
    }
  }

  lemma {:induction false} TotalRulesConcat(a: seq<MainCategory>, b: seq<MainCategory>)
    ensures TotalRules(a + b) == TotalRules(a) + TotalRules(b)
  {
    if |a| == 0 {
      assert a + b == b;
    } else {
      assert (a + b)[1..] == a[1..] + b;
      TotalRulesConcat(a[1..], b);
    }
  }

  lemma {:induction false} SubRuleCountConcat(a: seq<SubCategory>, b: seq<SubCategory>)
    ensures SubRuleCount(a + b) == SubRuleCount(a) + SubRuleCount(b)
  {
    if |a| == 0 {
      assert a + b == b;
    } else {
      assert (a + b)[1..] == a[1..] + b;
      SubRuleCountConcat(a[1..], b);
    }
  }

  /** Replacing one category changes the total by the difference of the two counts. */
  lemma TotalRulesReplace(cats: seq<MainCategory>, k: nat, c: MainCategory)
    requires k < |cats|
    ensures TotalRules(cats[k := c]) == TotalRules(cats) - CategoryRuleCount(cats[k]) + CategoryRuleCount(c)
  {
    assert cats == cats[..k] + [cats[k]] + cats[k + 1..];
    assert cats[k := c] == cats[..k] + [c] + cats[k + 1..];
    TotalRulesConcat(cats[..k] + [cats[k]], cats[k + 1..]);
    TotalRulesConcat(cats[..k], [cats[k]]);
    TotalRulesConcat(cats[..k] + [c], cats[k + 1..]);
    TotalRulesConcat(cats[..k], [c]);
  }

  lemma SubRuleCountReplace(subs: seq<SubCategory>, k: nat, s: SubCategory)
    requires k < |subs|
    ensures SubRuleCount(subs[k := s]) == SubRuleCount(subs) - |subs[k].rules| + |s.rules|
  {
    assert subs == subs[..k] + [subs[k]] + subs[k + 1..];
    assert subs[k := s] == subs[..k] + [s] + subs[k + 1..];
    SubRuleCountConcat(subs[..k] + [subs[k]], subs[k + 1..]);
    SubRuleCountConcat(subs[..k], [subs[k]]);
    SubRuleCountConcat(subs[..k] + [s], subs[k + 1..]);
    SubRuleCountConcat(subs[..k], [s]);
  }

  /** Id `id` occurs at index `k` of `s` and nowhere else. */
  predicate OnlyAt<T>(s: seq<T>, idOf: T -> string, id: string, k: int) {
    0 <= k < |s| && idOf(s[k]) == id && forall j :: 0 <= j < |s| && j != k ==> idOf(s[j]) != id
  }

  /**
   * When the category id and, inside it, the subcategory id are each carried
   * by exactly one entry, `addRule` appends the new rule to that subcategory
   * and to nothing else, so the count of rules goes up by exactly one.
   */
  lemma AddRuleAddsOne(cats: seq<MainCategory>, categoryId: string, subCategoryId: string, today: string,
                       k: nat, m: nat)
    requires OnlyAt(cats, CategoryId, categoryId, k)
    requires OnlyAt(cats[k].subCategories, SubCategoryId, subCategoryId, m)
    ensures var subs := cats[k].subCategories;
            var s := subs[m];
            AddRule(cats, categoryId, subCategoryId, today)
            == cats[k := cats[k].(subCategories := subs[m := s.(rules := s.rules + [NewRule(NewRuleId(subCategoryId, s), today)])])]
    ensures TotalRules(AddRule(cats, categoryId, subCategoryId, today)) == TotalRules(cats) + 1
  {
    var subs := cats[k].subCategories;
    var s := subs[m];
    assert FirstIndexWithId(cats, CategoryId, categoryId) == k;
    assert FirstIndexWithId(subs, SubCategoryId, subCategoryId) == m;
    var s' := s.(rules := s.rules + [NewRule(NewRuleId(subCategoryId, s), today)]);
    var u := SubCategoryUpdate(None, None, None, Some(s'.rules));
    assert UpdateSubs(subs, subCategoryId, u) == subs[m := s'];
    var c' := cats[k].(subCategories := subs[m := s']);
    assert AddRule(cats, categoryId, subCategoryId, today) == cats[k := c'];
    SubRuleCountReplace(subs, m, s');
    TotalRulesReplace(cats, k, c');
  }

  /** `addRule` leaves the tree as it is when the category or the subcategory is missing. */
  lemma AddRuleMissing(cats: seq<MainCategory>, categoryId: string, subCategoryId: string, today: string)
    requires FindSubCategory(cats, categoryId, subCategoryId).None?
    ensures AddRule(cats, categoryId, subCategoryId, today) == cats
  {
  }

  /** Two equally long trees whose categories count no more rules pointwise count no more in total. */
  lemma {:induction false} TotalRulesPointwise(a: seq<MainCategory>, b: seq<MainCategory>)
    requires |a| == |b|
    requires forall i :: 0 <= i < |a| ==> CategoryRuleCount(a[i]) <= CategoryRuleCount(b[i])
    ensures TotalRules(a) <= TotalRules(b)
  {
    if |a| > 0 {
      TotalRulesPointwise(a[1..], b[1..]);
    }
  }

  lemma {:induction false} SubRuleCountPointwise(a: seq<SubCategory>, b: seq<SubCategory>)
    requires |a| == |b|
    requires forall i :: 0 <= i < |a| ==> |a[i].rules| <= |b[i].rules|
    ensures SubRuleCount(a) <= SubRuleCount(b)
  {
    if |a| > 0 {
      SubRuleCountPointwise(a[1..], b[1..]);
    }
  }

  /**
   * `deleteRule` touches only the rule lists of the addressed subcategories,
   * which lose exactly the rules with that id, so the count never grows.
   */
  lemma DeleteRuleEffect(cats: seq<MainCategory>, categoryId: string, subCategoryId: string, ruleId: string)
    ensures var r := DeleteRule(cats, categoryId, subCategoryId, ruleId);
            && |r| == |cats|
            && (forall i :: 0 <= i < |cats| && cats[i].id != categoryId ==> r[i] == cats[i])
            && (forall i :: 0 <= i < |cats| && cats[i].id == categoryId ==>
                  && r[i].id == cats[i].id && r[i].title == cats[i].title
                  && |r[i].subCategories| == |cats[i].subCategories|
                  && (forall j :: 0 <= j < |cats[i].subCategories| ==>
                        var s := cats[i].subCategories[j];
                        r[i].subCategories[j] == if s.id == subCategoryId then s.(rules := WithoutId(s.rules, RuleId, ruleId)) else s))
    ensures TotalRules(DeleteRule(cats, categoryId, subCategoryId, ruleId)) <= TotalRules(cats)
  {
    var r := DeleteRule(cats, categoryId, subCategoryId, ruleId);
    forall i | 0 <= i < |cats|
      ensures CategoryRuleCount(r[i]) <= CategoryRuleCount(cats[i])
    {
      if cats[i].id == categoryId {
        var subs := cats[i].subCategories;
        forall j | 0 <= j < |subs|
          ensures |r[i].subCategories[j].rules| <= |subs[j].rules|
        {
          WithoutIdMembers(subs[j].rules, RuleId, ruleId);
        }
        SubRuleCountPointwise(r[i].subCategories, subs);
      }
    }
    TotalRulesPointwise(r, cats);
  }

  // ---------------------------------------------------------------------
  // What the category operations promise

  /** `addCategory` appends one empty category numbered after the old length and keeps the others. */
  lemma AddCategoryAppends(cats: seq<MainCategory>)
    ensures var r := AddCategory(cats);
            && |r| == |cats| + 1 && r[..|cats|] == cats
            && r[|cats|] == MainCategory(NatToDecimal(|cats| + 1), NewCategoryTitle, [])
    ensures TotalRules(AddCategory(cats)) == TotalRules(cats)
  {
    TotalRulesConcat(cats, [MainCategory(NatToDecimal(|cats| + 1), NewCategoryTitle, [])]);
  }

  /** `deleteCategory` keeps exactly the categories with another id, in order. */
  lemma DeleteCategoryKeepsOthers(cats: seq<MainCategory>, id: string)
    ensures forall c :: c in DeleteCategory(cats, id) <==> c in cats && c.id != id
    ensures |DeleteCategory(cats, id)| == |cats| - CountId(cats, CategoryId, id)
    ensures forall a, b :: cats == a + b ==> DeleteCategory(cats, id) == DeleteCategory(a, id) + DeleteCategory(b, id)
  {
    WithoutIdMembers(cats, CategoryId, id);
    forall a, b | cats == a + b
      ensures DeleteCategory(cats, id) == DeleteCategory(a, id) + DeleteCategory(b, id)
    {
      WithoutIdConcat(a, b, CategoryId, id);
    }
  }

  /**
   * Ids are not unique: after deleting category "1" of a two-category tree,
   * adding a category numbers it "2" again, next to the existing "2".
   */
  lemma AddAfterDeleteRepeatsId(c1: MainCategory, c2: MainCategory)
    requires c1.id == "1" && c2.id == "2"
    ensures var r := AddCategory(DeleteCategory([c1, c2], "1"));
            |r| == 2 && r[0].id == "2" && r[1].id == "2"
  {
    assert [c1, c2][1..] == [c2] && [c2][1..] == [];
    assert WithoutId([c2], CategoryId, "1") == [c2];
    assert DeleteCategory([c1, c2], "1") == [c2];
  }

  /**
   * `addSubCategory`: a no-op for a missing category; otherwise the first
   * matching category gets its list plus the new subcategory, every other
   * category with that id gets that same list, and the rest are untouched.
   */
  lemma AddSubCategoryEffect(cats: seq<MainCategory>, categoryId: string, k: nat)
    requires FirstWithId(cats, CategoryId, categoryId, k)
    ensures var r := AddSubCategory(cats, categoryId);
            var added := cats[k].subCategories + [NewSubCategory(NewSubCategoryId(categoryId, cats[k]))];
            && |r| == |cats|
            && r[k] == cats[k].(subCategories := added)
            && (forall i :: 0 <= i < |cats| && cats[i].id != categoryId ==> r[i] == cats[i])
            && (forall i :: 0 <= i < |cats| && cats[i].id == categoryId ==> r[i] == cats[i].(subCategories := added))
  {
    assert FirstIndexWithId(cats, CategoryId, categoryId) == k;
  }

  lemma AddSubCategoryMissing(cats: seq<MainCategory>, categoryId: string)
    requires forall i :: 0 <= i < |cats| ==> cats[i].id != categoryId
    ensures AddSubCategory(cats, categoryId) == cats
  {
  }

  /**
   * `updateCategory` overrides, in every category with that id, the fields the
   * update gives and keeps the others; other categories are untouched. Without
   * new children the rule count stays, and an empty update changes nothing.
   */
  lemma UpdateCategoryEffect(cats: seq<MainCategory>, id: string, u: CategoryUpdate)
    ensures var r := UpdateCategory(cats, id, u);
            && |r| == |cats|
            && (forall i :: 0 <= i < |cats| && cats[i].id != id ==> r[i] == cats[i])
            && (forall i :: 0 <= i < |cats| && cats[i].id == id ==>
                  && (u.id.Some? ==> r[i].id == u.id.value) && (u.id.None? ==> r[i].id == cats[i].id)
                  && (u.title.Some? ==> r[i].title == u.title.value) && (u.title.None? ==> r[i].title == cats[i].title)
                  && (u.subCategories.Some? ==> r[i].subCategories == u.subCategories.value)
                  && (u.subCategories.None? ==> r[i].subCategories == cats[i].subCategories))
    ensures u.subCategories.None? ==> TotalRules(UpdateCategory(cats, id, u)) == TotalRules(cats)
    ensures u == CategoryUpdate(None, None, None) ==> UpdateCategory(cats, id, u) == cats
  {
    var r := UpdateCategory(cats, id, u);
    if u.subCategories.None? {
      TotalRulesPointwise(r, cats);
      TotalRulesPointwise(cats, r);
    }
  }

  /**
   * `updateSubCategory` edits only the subcategory lists of the categories with
   * that id: their matching subcategories take the update's fields, every
   * category keeps its id and title, and without new rules the count stays.
   */
  lemma UpdateSubCategoryEffect(cats: seq<MainCategory>, categoryId: string, subCategoryId: string, u: SubCategoryUpdate)
    ensures var r := UpdateSubCategory(cats, categoryId, subCategoryId, u);
            && |r| == |cats|
            && (forall i :: 0 <= i < |cats| && cats[i].id != categoryId ==> r[i] == cats[i])
            && (forall i :: 0 <= i < |cats| ==> r[i].id == cats[i].id && r[i].title == cats[i].title
                                                  && |r[i].subCategories| == |cats[i].subCategories|)
            && (forall i, j :: 0 <= i < |cats| && cats[i].id == categoryId && 0 <= j < |cats[i].subCategories| ==>
                  var s := cats[i].subCategories[j];
                  && (s.id != subCategoryId ==> r[i].subCategories[j] == s)
                  && (s.id == subCategoryId ==>
                        && r[i].subCategories[j].id == u.id.GetOr(s.id)
                        && r[i].subCategories[j].title == u.title.GetOr(s.title)
                        && r[i].subCategories[j].description == (if u.description.Some? then u.description else s.description)
                        && r[i].subCategories[j].rules == u.rules.GetOr(s.rules)))
    ensures u.rules.None? ==> TotalRules(UpdateSubCategory(cats, categoryId, subCategoryId, u)) == TotalRules(cats)
  {
    var r := UpdateSubCategory(cats, categoryId, subCategoryId, u);
    if u.rules.None? {
      forall x | 0 <= x < |cats|
        ensures CategoryRuleCount(r[x]) == CategoryRuleCount(cats[x])
      {
        SubRuleCountPointwise(r[x].subCategories, cats[x].subCategories);
        SubRuleCountPointwise(cats[x].subCategories, r[x].subCategories);
      }
      TotalRulesPointwise(r, cats);
      TotalRulesPointwise(cats, r);
    }
  }

  /**
   * `deleteSubCategory` keeps every category with its id and title; the
   * categories with that id keep exactly their subcategories with another id,
   * in their order, and the count of rules never grows.
   */
  lemma DeleteSubCategoryEffect(cats: seq<MainCategory>, categoryId: string, subCategoryId: string)
    ensures var r := DeleteSubCategory(cats, categoryId, subCategoryId);
            && |r| == |cats|
            && (forall i :: 0 <= i < |cats| && cats[i].id != categoryId ==> r[i] == cats[i])
            && (forall i :: 0 <= i < |cats| ==> r[i].id == cats[i].id && r[i].title == cats[i].title)
            && (forall i :: 0 <= i < |cats| && cats[i].id == categoryId ==>
                  && r[i].subCategories == WithoutId(cats[i].subCategories, SubCategoryId, subCategoryId)
                  && |r[i].subCategories| == |cats[i].subCategories| - CountId(cats[i].subCategories, SubCategoryId, subCategoryId))
            && (forall i, s :: 0 <= i < |cats| && cats[i].id == categoryId ==>
                  (s in r[i].subCategories <==> s in cats[i].subCategories && s.id != subCategoryId))
    ensures TotalRules(DeleteSubCategory(cats, categoryId, subCategoryId)) <= TotalRules(cats)
  {
    var r := DeleteSubCategory(cats, categoryId, subCategoryId);
    forall i | 0 <= i < |cats|
      ensures CategoryRuleCount(r[i]) <= CategoryRuleCount(cats[i])
      ensures cats[i].id == categoryId ==>
                forall s :: s in r[i].subCategories <==> s in cats[i].subCategories && s.id != subCategoryId
      ensures cats[i].id == categoryId ==>
                |r[i].subCategories| == |cats[i].subCategories| - CountId(cats[i].subCategories, SubCategoryId, subCategoryId)
    {
      if cats[i].id == categoryId {
        WithoutIdMembers(cats[i].subCategories, SubCategoryId, subCategoryId);
        SubRulesFilterBound(cats[i].subCategories, subCategoryId);
      }
    }
    TotalRulesPointwise(r, cats);
  }

  /** Dropping subcategories never adds rules. */
  lemma {:induction false} SubRulesFilterBound(subs: seq<SubCategory>, subCategoryId: string)
    ensures SubRuleCount(WithoutId(subs, SubCategoryId, subCategoryId)) <= SubRuleCount(subs)
  {
    if |subs| > 0 {
      SubRulesFilterBound(subs[1..], subCategoryId);
      var head := if subs[0].id == subCategoryId then [] else [subs[0]];
      SubRuleCountConcat(head, WithoutId(subs[1..], SubCategoryId, subCategoryId));
    }
  }

  /**
   * `updateRule` stamps every matched rule with `today` whatever the update
   * says, and leaves every other rule, subcategory and category as it was.
   */
  lemma UpdateRuleStamps(cats: seq<MainCategory>, categoryId: string, subCategoryId: string, ruleId: string,
                         u: RuleUpdate, today: string)
    ensures var r := UpdateRule(cats, categoryId, subCategoryId, ruleId, u, today);
            && |r| == |cats|
            && (forall i :: 0 <= i < |cats| && cats[i].id != categoryId ==> r[i] == cats[i])
            && (forall i :: 0 <= i < |cats| && cats[i].id == categoryId ==>
                  && r[i].id == cats[i].id && r[i].title == cats[i].title
                  && |r[i].subCategories| == |cats[i].subCategories|
                  && (forall j :: 0 <= j < |cats[i].subCategories| ==>
                        var s := cats[i].subCategories[j];
                        && (s.id != subCategoryId ==> r[i].subCategories[j] == s)
                        && r[i].subCategories[j].id == s.id && r[i].subCategories[j].title == s.title
                        && r[i].subCategories[j].description == s.description
                        && |r[i].subCategories[j].rules| == |s.rules|
                        && (forall k :: 0 <= k < |s.rules| ==>
                              r[i].subCategories[j].rules[k] ==
                                if s.id == subCategoryId && s.rules[k].id == ruleId
                                then Rule(u.id.GetOr(s.rules[k].id), u.title.GetOr(s.rules[k].title),
                                          u.description.GetOr(s.rules[k].description), Some(today))
                                else s.rules[k])))
  {
  }

  /** `updateRule` never adds or removes a rule. */
  lemma UpdateRuleKeepsCount(cats: seq<MainCategory>, categoryId: string, subCategoryId: string, ruleId: string,
                             u: RuleUpdate, today: string)
    ensures TotalRules(UpdateRule(cats, categoryId, subCategoryId, ruleId, u, today)) == TotalRules(cats)
  {
    var r := UpdateRule(cats, categoryId, subCategoryId, ruleId, u, today);
    forall x | 0 <= x < |cats|
      ensures CategoryRuleCount(r[x]) <= CategoryRuleCount(cats[x]) && CategoryRuleCount(cats[x]) <= CategoryRuleCount(r[x])
    {
      SubRuleCountPointwise(r[x].subCategories, cats[x].subCategories);
      SubRuleCountPointwise(cats[x].subCategories, r[x].subCategories);
    }
    TotalRulesPointwise(r, cats);
    TotalRulesPointwise(cats, r);
  }
}
