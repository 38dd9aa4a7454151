/**
  The menu catalog as the chat flow reads it: the `menus` collection (one
  document per dish, carrying its category and either a flat price or a
  size-to-price map) and the `deals` collection. Reads return documents in
  the collection's natural order, cut at the `to_list` length.
 */
module Menu {
  import opened Wrappers
  import opened PyText

  /** A size-to-price dict in insertion order: (label, price) pairs with distinct labels. */
  type SizeMap = seq<(string, int)>

  /**
    One `menus` document. `sizes` is `None` when the document has no size
    dict (the key missing or holding something else) and `Some(m)` for a
    dict `m`, possibly empty.
   */
  datatype MenuDoc = MenuDoc(
    id: string,
    name: Option<string>,
    category: Option<string>,
    price: Option<int>,
    sizes: Option<SizeMap>)

  /** One `deals` document: a bundle of item names at one price. */
  datatype DealDoc = DealDoc(code: Option<string>, price: Option<int>, items: seq<string>)

  /** The two collections at the moment of one read. */
  datatype Snapshot = Snapshot(menus: seq<MenuDoc>, deals: seq<DealDoc>)

  /** `to_list(length=1000)` on every chat-side read. */
  const FetchLimit: nat := 1000

  function Take<T>(s: seq<T>, n: nat): (r: seq<T>)
    ensures |r| == if |s| < n then |s| else n
    ensures r == s[..|r|]
  {
    if |s| <= n then s else s[..n]
  }

  /** A category as the chat lists it: a key and the display name. */
  datatype Category = Category(key: string, name: string)

  /** A name lower-cased with its spaces turned into `_`: the key of a category, the id of a size. */
  function Slug(name: string): string {
    ReplaceChar(Lower(name), ' ', '_')
  }

  function Names(cats: seq<Category>): (r: seq<string>)
    ensures |r| == |cats|
    ensures forall i :: 0 <= i < |cats| ==> r[i] == cats[i].name
  {
    if cats == [] then [] else Names(cats[..|cats| - 1]) + [cats[|cats| - 1].name]
  }

  /** Some document of `docs` is filed under the non-empty category `c`. */
  ghost predicate HasCategory(docs: seq<MenuDoc>, c: string) {
    c != "" && exists i :: 0 <= i < |docs| && docs[i].category == Some(c)
  }

  /** The position of the first document filed under `c`. */
  ghost function FirstIndex(docs: seq<MenuDoc>, c: string): (k: nat)
    requires HasCategory(docs, c)
    ensures k < |docs| && docs[k].category == Some(c)
    ensures forall j :: 0 <= j < k ==> docs[j].category != Some(c)
  {
    if docs[0].category == Some(c) then 0
    else
      assert HasCategory(docs[1..], c) by {
        var i :| 0 <= i < |docs| && docs[i].category == Some(c);
        assert docs[1..][i - 1].category == Some(c);
      }
      1 + FirstIndex(docs[1..], c)
  }

  ghost predicate NoDuplicateNames(cats: seq<Category>) {
    forall i, j :: 0 <= i < j < |cats| ==> cats[i].name != cats[j].name
  }

  lemma NamesOfAppend(cats: seq<Category>, c: Category)
    ensures Names(cats + [c]) == Names(cats) + [c.name]
  {
    assert (cats + [c])[..|cats|] == cats;
  }

  lemma NoDuplicateNamesAppend(cats: seq<Category>, c: Category)
    requires NoDuplicateNames(cats) && c.name !in Names(cats)
    ensures NoDuplicateNames(cats + [c])
  {
    forall i | 0 <= i < |cats| ensures cats[i].name != c.name {
      assert Names(cats)[i] == cats[i].name;
    }
  }

  /** A category of `docs` is one of all but the last document, or the last document's. */
  lemma HasCategoryOfPrefix(docs: seq<MenuDoc>)
    requires docs != []
    ensures forall x :: HasCategory(docs, x) <==>
      HasCategory(docs[..|docs| - 1], x) || (x != "" && docs[|docs| - 1].category == Some(x))
  {
    var prefix := docs[..|docs| - 1];
    var c := docs[|docs| - 1].category;
    forall x | HasCategory(docs, x) && !(x != "" && c == Some(x)) ensures HasCategory(prefix, x) {
      var i :| 0 <= i < |docs| && docs[i].category == Some(x);
      assert prefix[i].category == Some(x);
    }
    forall x | HasCategory(prefix, x) ensures HasCategory(docs, x) {
      var i :| 0 <= i < |prefix| && prefix[i].category == Some(x);
      assert docs[i].category == Some(x);
    }
  }

  /**
    The categories `get_all_categories` collects from `docs`: every non-empty
    category exactly once, keyed by `Slug`.
   */
  function Categories(docs: seq<MenuDoc>): (r: seq<Category>)
    ensures forall i :: 0 <= i < |r| ==> r[i].name != "" && r[i].key == Slug(r[i].name)
    ensures NoDuplicateNames(r)
    ensures forall c :: c in Names(r) <==> HasCategory(docs, c)
  {
    if docs == [] then []
    else
      var prefix := docs[..|docs| - 1];
      var prev := Categories(prefix);
      var c := docs[|docs| - 1].category;
      HasCategoryOfPrefix(docs);
      if c.Some? && c.value != "" && c.value !in Names(prev) then
        var r := prev + [Category(Slug(c.value), c.value)];
        NamesOfAppend(prev, Category(Slug(c.value), c.value));
        NoDuplicateNamesAppend(prev, Category(Slug(c.value), c.value));
        r
      else
        prev
  }

  /**
    The categories come in the order in which their first documents come:
    the first-seen order of the loop over the collection.
   */
  lemma {:induction false} CategoriesInFirstSeenOrder(docs: seq<MenuDoc>, i: nat, j: nat)
    requires i < j < |Categories(docs)|
    ensures HasCategory(docs, Categories(docs)[i].name) && HasCategory(docs, Categories(docs)[j].name)
    ensures FirstIndex(docs, Categories(docs)[i].name) < FirstIndex(docs, Categories(docs)[j].name)
  {
    var r := Categories(docs);
    var prefix := docs[..|docs| - 1];
    var prev := Categories(prefix);
    CategoriesGrowth(docs);
    var a, b := r[i].name, r[j].name;
    assert r[i] == prev[i] && Names(prev)[i] == a;
    FirstIndexOfPrefix(docs, a);
    if j < |prev| {
      assert r[j] == prev[j] && Names(prev)[j] == b;
      CategoriesInFirstSeenOrder(prefix, i, j);
      FirstIndexOfPrefix(docs, b);
    } else {
      assert Names(r)[j] == b;
      FirstIndexOfLast(docs, b);
    }
  }

  /** The categories of `docs` are those of all but its last document, plus at most the last document's, new. */
  lemma CategoriesGrowth(docs: seq<MenuDoc>)
    requires docs != []
    ensures var prev := Categories(docs[..|docs| - 1]);
      && Categories(docs)[..|prev|] == prev
      && (|Categories(docs)| == |prev| || |Categories(docs)| == |prev| + 1)
      && (|Categories(docs)| == |prev| + 1 ==> !HasCategory(docs[..|docs| - 1], Categories(docs)[|prev|].name))
  {
    var prev := Categories(docs[..|docs| - 1]);
    var r := Categories(docs);
    if |r| == |prev| + 1 {
      assert Names(r)[|prev|] == r[|prev|].name;
      assert r[|prev|].name !in Names(prev);
    }
  }

  /** A category that only the last document carries is first seen there. */
  lemma FirstIndexOfLast(docs: seq<MenuDoc>, c: string)
    requires docs != [] && HasCategory(docs, c) && !HasCategory(docs[..|docs| - 1], c)
    ensures FirstIndex(docs, c) == |docs| - 1
  {
  }

  /** Extending the documents does not move the first document of a category already present. */
  lemma FirstIndexOfPrefix(docs: seq<MenuDoc>, c: string)
    requires docs != [] && HasCategory(docs[..|docs| - 1], c)
    ensures HasCategory(docs, c)
    ensures FirstIndex(docs, c) == FirstIndex(docs[..|docs| - 1], c)
  {
    var prefix := docs[..|docs| - 1];
    var k := FirstIndex(prefix, c);
    assert docs[k].category == Some(c);
    assert forall j :: 0 <= j < k ==> docs[j] == prefix[j];
  }

  /** One more document adds its category at the end when it is non-empty and new. */
  lemma CategoriesSnoc(docs: seq<MenuDoc>, d: MenuDoc)
    ensures var c := d.category;
      Categories(docs + [d]) ==
        if c.Some? && c.value != "" && c.value !in Names(Categories(docs))
        then Categories(docs) + [Category(Slug(c.value), c.value)]
        else Categories(docs)
  {
    assert (docs + [d])[..|docs|] == docs;
  }

  /**
    `get_all_categories`: scan the menu documents, keep each non-empty
    category the first time it is seen.
   */
  method GetAllCategories(menus: seq<MenuDoc>) returns (categories: seq<Category>)
    ensures categories == Categories(Take(menus, FetchLimit))
  {
    var items := Take(menus, FetchLimit);
    var seen: set<string> := {};
    categories := [];
    var i := 0;
    assert items[..0] == [];
    while i < |items|
      invariant 0 <= i <= |items|
      invariant categories == Categories(items[..i])
      invariant forall c :: c in seen <==> c in Names(categories)
    {
      var cat := items[i].category;
      assert items[..i + 1] == items[..i] + [items[i]];
      CategoriesSnoc(items[..i], items[i]);
      if cat.Some? && cat.value != "" && cat.value !in seen {
        var added := Category(Slug(cat.value), cat.value);
        NamesOfAppend(categories, added);
        seen := seen + {cat.value};
        categories := categories + [added];
      }
      i := i + 1;
    }
    assert items[..|items|] == items;
  }

  /** The documents filed under `category`, in collection order (`find({"category": …})`). */
  function InCategory(menus: seq<MenuDoc>, category: Option<string>): (r: seq<MenuDoc>)
    ensures |r| <= |menus|
    ensures forall i :: 0 <= i < |r| ==> r[i].category == category && r[i] in menus
    ensures forall m :: m in menus && m.category == category ==> m in r
  {
    if menus == [] then []
    else
      var rest := InCategory(menus[1..], category);
      if menus[0].category == category then [menus[0]] + rest else rest
  }

  /** Positions in strictly increasing order. */
  ghost predicate Increasing(idx: seq<nat>) {
    forall i, j :: 0 <= i < j < |idx| ==> idx[i] < idx[j]
  }

  /** The positions `idx` moved one place along, past a new first element. */
  ghost function Shift(idx: seq<nat>): (r: seq<nat>)
    ensures |r| == |idx| && forall i :: 0 <= i < |idx| ==> r[i] == idx[i] + 1
  {
    seq(|idx|, i requires 0 <= i < |idx| => idx[i] + 1)
  }

  /** Shifting increasing positions keeps them increasing, with or without a new 0 in front. */
  lemma ShiftIncreasing(idx: seq<nat>)
    requires Increasing(idx)
    ensures Increasing(Shift(idx)) && Increasing([0] + Shift(idx))
  {
  }

  lemma ShiftContains(idx: seq<nat>, k: nat)
    requires k in idx
    ensures k + 1 in Shift(idx)
  {
    var j :| 0 <= j < |idx| && idx[j] == k;
    assert Shift(idx)[j] == k + 1;
  }

  /**
    `r` lists the elements of `s` whose flag in `keep` is set, each once and
    in their order in `s`: `idx` holds their positions, increasing.
   */
  ghost predicate FilteredAt<T>(r: seq<T>, s: seq<T>, keep: seq<bool>, idx: seq<nat>) {
    && |keep| == |s| && |idx| == |r| && Increasing(idx)
    && (forall i :: 0 <= i < |idx| ==> idx[i] < |s| && keep[idx[i]] && r[i] == s[idx[i]])
    && (forall k :: 0 <= k < |s| && keep[k] ==> k in idx)
  }

  /** The positions of a filter of all but the first element, carried over to the whole sequence. */
  lemma FilteredCons<T>(s: seq<T>, keep: seq<bool>, r: seq<T>, rest: seq<nat>) returns (idx: seq<nat>)
    requires |keep| == |s| > 0 && FilteredAt(r, s[1..], keep[1..], rest)
    ensures FilteredAt(if keep[0] then [s[0]] + r else r, s, keep, idx)
  {
    var shifted := Shift(rest);
    forall i | 0 <= i < |shifted|
      ensures 1 <= shifted[i] < |s| && keep[shifted[i]] && r[i] == s[shifted[i]]
    {
      assert s[shifted[i]] == s[1..][rest[i]] && keep[shifted[i]] == keep[1..][rest[i]];
    }
    forall k | 1 <= k < |s| && keep[k]
      ensures k in shifted
    {
      assert keep[1..][k - 1] == keep[k];
      ShiftContains(rest, k - 1);
    }
    ShiftIncreasing(rest);
    FilteredConsFinish(s, keep, r, shifted);
    idx := if keep[0] then [0] + shifted else shifted;
  }

  lemma FilteredConsFinish<T>(s: seq<T>, keep: seq<bool>, r: seq<T>, shifted: seq<nat>)
    requires |keep| == |s| > 0 && |shifted| == |r| && Increasing([0] + shifted)
    requires forall i :: 0 <= i < |shifted| ==> 1 <= shifted[i] < |s| && keep[shifted[i]] && r[i] == s[shifted[i]]
    requires forall k :: 1 <= k < |s| && keep[k] ==> k in shifted
    ensures keep[0] ==> FilteredAt([s[0]] + r, s, keep, [0] + shifted)
    ensures !keep[0] ==> FilteredAt(r, s, keep, shifted)
  {
    var idx := [0] + shifted;
    assert Increasing(shifted) by {
      assert forall i :: 0 <= i < |shifted| ==> shifted[i] == idx[i + 1];
    }
    assert forall i :: 1 <= i < |idx| ==> idx[i] == shifted[i - 1];
  }

  /** Which documents are filed under `category`. */
  ghost function CategoryMask(menus: seq<MenuDoc>, category: Option<string>): (keep: seq<bool>)
    ensures |keep| == |menus| && forall k :: 0 <= k < |menus| ==> keep[k] == (menus[k].category == category)
  {
    seq(|menus|, k requires 0 <= k < |menus| => menus[k].category == category)
  }

  /** The positions `InCategory` picks its documents from. */
  lemma {:induction false} InCategoryPositions(menus: seq<MenuDoc>, category: Option<string>) returns (idx: seq<nat>)
    ensures FilteredAt(InCategory(menus, category), menus, CategoryMask(menus, category), idx)
  {
    if menus == [] {
      return [];
    }
    var rest := InCategoryPositions(menus[1..], category);
    assert CategoryMask(menus, category)[1..] == CategoryMask(menus[1..], category);
    idx := FilteredCons(menus, CategoryMask(menus, category), InCategory(menus[1..], category), rest);
  }

  /** `InCategory` keeps exactly the documents filed under the category, each once, in collection order. */
  lemma InCategoryInOrder(menus: seq<MenuDoc>, category: Option<string>)
    ensures exists idx :: FilteredAt(InCategory(menus, category), menus, CategoryMask(menus, category), idx)
  {
    var idx := InCategoryPositions(menus, category);
  }

  /** `get_items_by_category`. */
  function ItemsOf(snap: Snapshot, category: Option<string>): seq<MenuDoc> {
    Take(InCategory(snap.menus, category), FetchLimit)
  }

  /** `get_all_deals`. */
  function DealsOf(snap: Snapshot): seq<DealDoc> {
    Take(snap.deals, FetchLimit)
  }
}
