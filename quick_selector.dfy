/** The "quick wrapped" picker: a set of selected subcategory ids, capped at
    ten, started from the first five popular ids, and turned into the list
    of catalog subcategories to fill in. */
module QuickSelector {
  import opened Shared
  import opened Catalog

  const MaxSelections: nat := 10

  /** The popular ids as listed in the picker: the fifth names
      'highlights-2025', an id no subcategory has. */
  const PopularSubcategoryIdsAsWritten: seq<string> := [
    "friend-of-year", "favorite-song", "favorite-movie", "food-ate-most",
    "highlights-2025", "top-5-friends", "best-purchase", "personal-award"]

  /** The popular ids with the fifth naming the catalog's 'highlights-2026'
      subcategory ("Highlights of 2026"), which the rest of the model uses. */
  const PopularSubcategoryIds: seq<string> := [
    "friend-of-year", "favorite-song", "favorite-movie", "food-ate-most",
    "highlights-2026", "top-5-friends", "best-purchase", "personal-award"]

  /** The catalog subcategories whose ids are chosen, in catalog order (the
      filter behind both `popularSubcategories` and `handleStart`). */
  function ChosenSubcategories(chosen: set<string>): (r: seq<Subcategory>)
    ensures forall s :: s in r <==> s in Categories && s.id in chosen
  {
    Filter(Categories, (s: Subcategory) => s.id in chosen)
  }

  /** `popularSubcategories` */
  function PopularSubcategories(popular: seq<string>): seq<Subcategory> {
    ChosenSubcategories(SetOf(popular))
  }

  /** The initial selection: the first five popular ids. */
  function InitialSelection(popular: seq<string>): set<string>
    requires |popular| >= 5
  {
    SetOf(popular[..5])
  }

  /** With distinct ids, the filter yields one subcategory per chosen id
      that the list contains. */
  lemma {:induction false} ChosenCount(subs: seq<Subcategory>, chosen: set<string>)
    requires DistinctStrings(Ids(subs))
    ensures |Filter(subs, (s: Subcategory) => s.id in chosen)| == |SetOf(Ids(subs)) * chosen|
  {
    if subs != [] {
      var p := (s: Subcategory) => s.id in chosen;
      var rest := subs[1..];
      var x := subs[0].id;
      IdsCons(subs);
      ChosenCount(rest, chosen);
      var a := SetOf(Ids(rest)) * chosen;
      assert Filter(subs, p) == (if p(subs[0]) then [subs[0]] else []) + Filter(rest, p);
      if x in chosen {
        assert SetOf(Ids(subs)) * chosen == {x} + a;
        assert x !in a;
      } else {
        assert SetOf(Ids(subs)) * chosen == a;
      }
    }
  }

  /** The ids of a non-empty list with distinct ids: the head's id, not
      repeated in the tail. */
  lemma IdsCons(subs: seq<Subcategory>)
    requires subs != [] && DistinctStrings(Ids(subs))
    ensures DistinctStrings(Ids(subs[1..]))
    ensures SetOf(Ids(subs)) == {subs[0].id} + SetOf(Ids(subs[1..]))
    ensures subs[0].id !in SetOf(Ids(subs[1..]))
  {
    var rest := subs[1..];
    assert Ids(subs) == [subs[0].id] + Ids(rest);
    forall i, j | 0 <= i < j < |rest| ensures Ids(rest)[i] != Ids(rest)[j] {
      assert Ids(subs)[i + 1] != Ids(subs)[j + 1];
    }
  }

  /** 'highlights-2025' is not in the catalog's id list, while the other
      seven popular ids and 'highlights-2026' are. */
  lemma PopularIdsInIdList()
    ensures "highlights-2025" !in AllIds
    ensures forall id :: id in PopularSubcategoryIds ==> id in AllIds
  {
  }

  /** 'highlights-2025' is not a catalog id, while the other seven popular
      ids and 'highlights-2026' are. */
  lemma PopularIdsInCatalog()
    ensures "highlights-2025" !in Ids(Categories)
    ensures forall id :: id in PopularSubcategoryIds ==> id in Ids(Categories)
  {
    CategoryIdList();
    PopularIdsInIdList();
  }

  /** `handleStart` and `popularSubcategories` yield one subcategory per
      chosen id that the catalog has. */
  lemma ChosenCountCatalog(chosen: set<string>)
    ensures |ChosenSubcategories(chosen)| == |SetOf(AllIds) * chosen|
  {
    CatalogWellFormed();
    CategoryIdList();
    ChosenCount(Categories, chosen);
  }

  /** The two initial selections, written out. */
  lemma InitialSelections()
    ensures InitialSelection(PopularSubcategoryIdsAsWritten) ==
      {"friend-of-year", "favorite-song", "favorite-movie", "food-ate-most", "highlights-2025"}
    ensures InitialSelection(PopularSubcategoryIds) ==
      {"friend-of-year", "favorite-song", "favorite-movie", "food-ate-most", "highlights-2026"}
  {
    assert PopularSubcategoryIdsAsWritten[..5] ==
      ["friend-of-year", "favorite-song", "favorite-movie", "food-ate-most", "highlights-2025"];
    assert PopularSubcategoryIds[..5] ==
      ["friend-of-year", "favorite-song", "favorite-movie", "food-ate-most", "highlights-2026"];
  }

  /** Among the popular ids as written, only 'highlights-2025' is missing
      from the catalog's id list. */
  lemma AsWrittenMissesOne()
    ensures SetOf(AllIds) * SetOf(PopularSubcategoryIdsAsWritten) == SetOf(PopularSubcategoryIdsAsWritten) - {"highlights-2025"}
  {
    PopularIdsInIdList();
    forall x | x in SetOf(PopularSubcategoryIdsAsWritten)
      ensures x in SetOf(AllIds) <==> x != "highlights-2025"
    {
      assert x in PopularSubcategoryIds || x == "highlights-2025";
    }
  }

  /** The catalog ids among the popular ids as written: all but
      'highlights-2025'. */
  lemma PopularAsWrittenInCatalog()
    ensures SetOf(AllIds) * SetOf(PopularSubcategoryIdsAsWritten) ==
      {"friend-of-year", "favorite-song", "favorite-movie", "food-ate-most", "top-5-friends", "best-purchase", "personal-award"}
    ensures SetOf(AllIds) * InitialSelection(PopularSubcategoryIdsAsWritten) ==
      {"friend-of-year", "favorite-song", "favorite-movie", "food-ate-most"}
  {
    AsWrittenMissesOne();
    InitialSelections();
    assert InitialSelection(PopularSubcategoryIdsAsWritten) <= SetOf(PopularSubcategoryIdsAsWritten);
  }

  /** Every corrected popular id is a catalog id. */
  lemma PopularCorrectedInCatalog()
    ensures SetOf(AllIds) * SetOf(PopularSubcategoryIds) == SetOf(PopularSubcategoryIds)
    ensures SetOf(AllIds) * InitialSelection(PopularSubcategoryIds) == InitialSelection(PopularSubcategoryIds)
  {
    PopularIdsInIdList();
    assert InitialSelection(PopularSubcategoryIds) <= SetOf(PopularSubcategoryIds);
  }

  lemma LiteralSizes()
    ensures |{"friend-of-year", "favorite-song", "favorite-movie", "food-ate-most", "top-5-friends", "best-purchase", "personal-award"}| == 7
    ensures |{"friend-of-year", "favorite-song", "favorite-movie", "food-ate-most"}| == 4
    ensures |{"friend-of-year", "favorite-song", "favorite-movie", "food-ate-most", "highlights-2025"}| == 5
    ensures |{"friend-of-year", "favorite-song", "favorite-movie", "food-ate-most", "highlights-2026"}| == 5
  {
  }

  lemma CorrectedSize()
    ensures |SetOf(PopularSubcategoryIds)| == 8
  {
    CorrectedSet();
    EightSize();
  }

  lemma CorrectedSet()
    ensures SetOf(PopularSubcategoryIds) == {"friend-of-year", "favorite-song", "favorite-movie", "food-ate-most",
      "highlights-2026", "top-5-friends", "best-purchase", "personal-award"}
  {
  }

  lemma EightSize()
    ensures |{"friend-of-year", "favorite-song", "favorite-movie", "food-ate-most",
      "highlights-2026", "top-5-friends", "best-purchase", "personal-award"}| == 8
  {
  }

  /** As written, the popular list shows seven subcategories for eight ids,
      and starting from the initial selection opens four subcategories for
      five selected ids. */
  lemma PopularAsWrittenDropsOne()
    ensures |PopularSubcategoryIdsAsWritten| == 8 && |PopularSubcategories(PopularSubcategoryIdsAsWritten)| == 7
    ensures |InitialSelection(PopularSubcategoryIdsAsWritten)| == 5
    ensures |ChosenSubcategories(InitialSelection(PopularSubcategoryIdsAsWritten))| == 4
  {
    PopularAsWrittenInCatalog();
    InitialSelections();
    LiteralSizes();
    ChosenCountCatalog(SetOf(PopularSubcategoryIdsAsWritten));
    ChosenCountCatalog(InitialSelection(PopularSubcategoryIdsAsWritten));
  }

  /** With the corrected list every popular id shows, and starting from the
      initial selection opens all five. */
  lemma PopularCorrected()
    ensures |PopularSubcategories(PopularSubcategoryIds)| == 8
    ensures |InitialSelection(PopularSubcategoryIds)| == 5
    ensures |ChosenSubcategories(InitialSelection(PopularSubcategoryIds))| == 5
  {
    PopularCorrectedInCatalog();
    InitialSelections();
    LiteralSizes();
    CorrectedSize();
    ChosenCountCatalog(SetOf(PopularSubcategoryIds));
    ChosenCountCatalog(InitialSelection(PopularSubcategoryIds));
  }

  class Selector {
    var selected: set<string>

    /** The picker opens with the first five popular ids selected. */
    constructor ()
      ensures selected == InitialSelection(PopularSubcategoryIds)
      ensures |selected| == 5
    {
      InitialSelections();
      LiteralSizes();
      selected := SetOf(PopularSubcategoryIds[..5]);
    }

    /** `toggleSelection`: a selected id is removed; an unselected one is
        added unless ten are already selected. */
    method ToggleSelection(id: string)
      modifies this
      ensures id in old(selected) ==> selected == old(selected) - {id}
      ensures id !in old(selected) && |old(selected)| < MaxSelections ==> selected == old(selected) + {id}
      ensures id !in old(selected) && |old(selected)| >= MaxSelections ==> selected == old(selected)
      ensures |old(selected)| <= MaxSelections ==> |selected| <= MaxSelections
    {
      var next := selected;
      if id in next {
        next := next - {id};
      } else {
        if |next| >= MaxSelections {
          return;
        }
        next := next + {id};
      }
      selected := next;
    }

    /** `handleStart`: the selected catalog subcategories, in catalog order;
        selected ids the catalog lacks are dropped. */
    method HandleStart() returns (categories: seq<Subcategory>)
      ensures categories == ChosenSubcategories(selected)
      ensures |categories| == |SetOf(AllIds) * selected|
    {
      ChosenCountCatalog(selected);
      categories := ChosenSubcategories(selected);
    }
  }
}
