/** The achievement engine: criteria evaluation over the saved cards, the
    progress list shown to the user, detection of newly met achievements,
    the time-of-day and "perfectionist" special cases, and completion stats.

    Saved cards enter only through their `categoryId`s: every function here
    takes the category id of each saved card, in list order. The achievement
    catalog is a parameter (`catalog`); the category catalog is the static
    one of module Catalog. */
module Achievements {
  import opened Shared
  import opened Catalog
  import opened Validation

  datatype AchievementCategory = Milestone | Category | Combo | Special

  datatype Rarity = Common | Rare | Epic | Legendary

  /** How an achievement is earned. */
  datatype Criteria =
    | CardCount(count: nat)
    | CategoryComplete(mainCategoryId: string)
    | SubcategoriesComplete(subcategoryIds: seq<string>)
    | AllCategoriesComplete
    | Custom(checkId: string)

  datatype Achievement = Achievement(
    id: string,
    title: string,
    description: string,
    icon: string,
    gradient: Gradient,
    category: AchievementCategory,
    rarity: Rarity,
    criteria: Criteria,
    points: int,
    hidden: Option<bool>)

  datatype UnlockedAchievement = UnlockedAchievement(
    achievementId: string,
    unlockedAt: int,
    cardCount: Option<nat>)

  datatype AchievementState = AchievementState(
    unlocked: seq<UnlockedAchievement>,
    seenAchievements: seq<string>,
    totalPoints: int)

  /** A percentage as the exact fraction `done / total * 100`. For a zero
      `total` the application computes a non-number (NaN); no percentage is
      taken here. */
  datatype Progress = Ratio(done: nat, total: nat)

  datatype CriteriaResult = CriteriaResult(met: bool, progress: Progress, progressText: string)

  datatype AchievementProgress = AchievementProgress(
    achievement: Achievement,
    isUnlocked: bool,
    unlockedAt: Option<int>,
    progress: Progress,
    progressText: string)

  datatype CompletionStats = CompletionStats(completedCards: nat, totalCards: nat, percentage: nat)

  const NightOwl: string := "night-owl"
  const EarlyBird: string := "early-bird"
  const Perfectionist: string := "perfectionist"

  /** The fixed result for criteria the generic checker does not evaluate. */
  const SpecialResult: CriteriaResult := CriteriaResult(false, Ratio(0, 1), "Special")

  predicate IsHidden(a: Achievement) {
    a.hidden == Some(true)
  }

  /** `new Set(savedWrappeds.map(w => w.categoryId))` */
  function CompletedIds(saved: seq<string>): set<string> {
    SetOf(saved)
  }

  /** The ids recorded in `state.unlocked`. */
  function UnlockedIds(state: AchievementState): set<string> {
    set u | u in state.unlocked :: u.achievementId
  }

  /** `getAchievementById`: the first catalog entry with that id. */
  function GetAchievementById(catalog: seq<Achievement>, id: string): (r: Option<Achievement>)
    ensures r.Some? ==> r.value in catalog && r.value.id == id
    ensures r.None? <==> forall a :: a in catalog ==> a.id != id
  {
    if catalog == [] then None
    else if catalog[0].id == id then Some(catalog[0])
    else GetAchievementById(catalog[1..], id)
  }

  /** The first unlocked entry recorded for an id. */
  function FindUnlocked(unlocked: seq<UnlockedAchievement>, id: string): (r: Option<UnlockedAchievement>)
    ensures r.Some? ==> r.value in unlocked && r.value.achievementId == id
    ensures r.None? <==> forall u :: u in unlocked ==> u.achievementId != id
  {
    if unlocked == [] then None
    else if unlocked[0].achievementId == id then Some(unlocked[0])
    else FindUnlocked(unlocked[1..], id)
  }

  /** The entry found is the FIRST one recorded for the id. */
  lemma {:induction false} FindUnlockedFirst(unlocked: seq<UnlockedAchievement>, id: string, k: nat)
    requires k < |unlocked| && unlocked[k].achievementId == id
    requires forall j :: 0 <= j < k ==> unlocked[j].achievementId != id
    ensures FindUnlocked(unlocked, id) == Some(unlocked[k])
  {
    if k > 0 {
      assert unlocked[0].achievementId != id;
      FindUnlockedFirst(unlocked[1..], id, k - 1);
    }
  }

  /** Progress text of the form `<done>/<total><suffix>`. */
  function FractionText(done: nat, total: nat, suffix: string): string {
    NatToString(done) + "/" + NatToString(total) + suffix
  }

  /** How many entries of a list (duplicates included) are in a set. */
  function CountIn(ids: seq<string>, done: set<string>): (n: nat)
    ensures n <= |ids|
  {
    if ids == [] then 0
    else CountIn(ids[..|ids| - 1], done) + (if ids[|ids| - 1] in done then 1 else 0)
  }

  function Min(a: nat, b: nat): nat {
    if a <= b then a else b
  }

  /** `checkAchievementCriteria`. The third argument is unused, as in the
      application. */
  function CheckAchievementCriteria(mains: seq<MainCategory>, a: Achievement, saved: seq<string>, state: AchievementState): (r: CriteriaResult)
    ensures r.met ==> !a.criteria.Custom?
  {
    match a.criteria
    case CardCount(target) =>
      var count := |CompletedIds(saved)|;
      CriteriaResult(count >= target, Ratio(Min(count, target), target), FractionText(count, target, " cards"))
    case CategoryComplete(mainId) =>
      var found := FindMainById(mains, mainId);
      if found.None? then CriteriaResult(false, Ratio(0, 1), "0/0")
      else
        var main := found.value;
        var required := SetOf(Ids(main.subcategories));
        var completed := |required * CompletedIds(saved)|;
        var total := |required|;
        CriteriaResult(completed >= total, Ratio(completed, total), FractionText(completed, total, " " + main.title))
    case SubcategoriesComplete(ids) =>
      var required := SetOf(ids);
      var completed := |required * CompletedIds(saved)|;
      var total := |required|;
      CriteriaResult(completed >= total, Ratio(completed, total), FractionText(completed, total, " complete"))
    case AllCategoriesComplete =>
      var all := Ids(Flatten(mains));
      var completed := CountIn(all, CompletedIds(saved));
      var total := |all|;
      CriteriaResult(completed >= total, Ratio(completed, total), FractionText(completed, total, " total"))
    case Custom(_) => SpecialResult
  }

  lemma {:induction false} SubsetCardinality<T>(a: set<T>, b: set<T>)
    requires a <= b
    ensures |a| <= |b|
    ensures |a| == |b| ==> a == b
    decreases |b|
  {
    if b != {} {
      var x :| x in b;
      SubsetCardinality(a - {x}, b - {x});
      if x in a {
        assert a == (a - {x}) + {x};
        assert b == (b - {x}) + {x};
      } else {
        assert a - {x} == a;
      }
    }
  }

  /** `|required * done| >= |required|` says exactly that every required id
      is done. */
  lemma IntersectionFull(required: set<string>, done: set<string>)
    ensures |required * done| >= |required| <==> required <= done
  {
    SubsetCardinality(required * done, required);
  }

  lemma {:induction false} CountInFull(ids: seq<string>, done: set<string>)
    ensures CountIn(ids, done) >= |ids| <==> forall id :: id in ids ==> id in done
  {
    if ids != [] {
      var init := ids[..|ids| - 1];
      CountInFull(init, done);
      assert forall id :: id in ids <==> id in init || id == ids[|ids| - 1];
    }
  }

  /** `card_count` is met exactly when the number of DISTINCT saved category
      ids reaches the target; its progress is that number capped at the
      target, out of the target, and its text shows the uncapped number. */
  lemma CardCountMet(mains: seq<MainCategory>, a: Achievement, saved: seq<string>, state: AchievementState)
    requires a.criteria.CardCount?
    ensures CheckAchievementCriteria(mains, a, saved, state).met <==> |CompletedIds(saved)| >= a.criteria.count
    ensures CheckAchievementCriteria(mains, a, saved, state).progress.done <= a.criteria.count
    ensures CheckAchievementCriteria(mains, a, saved, state).progress ==
      Ratio(Min(|CompletedIds(saved)|, a.criteria.count), a.criteria.count)
    ensures CheckAchievementCriteria(mains, a, saved, state).progressText ==
      NatToString(|CompletedIds(saved)|) + "/" + NatToString(a.criteria.count) + " cards"
  {
  }

  /** Saving another card for a category already saved never changes any
      criterion's result: only the set of saved ids matters. */
  lemma {:induction false} DuplicateCardsIgnored(mains: seq<MainCategory>, a: Achievement, saved: seq<string>, state: AchievementState, id: string)
    requires id in saved
    ensures CheckAchievementCriteria(mains, a, saved + [id], state) == CheckAchievementCriteria(mains, a, saved, state)
  {
    assert CompletedIds(saved + [id]) == CompletedIds(saved);
  }

  /** `subcategories_complete` is met exactly when every listed id has a
      saved card. */
  lemma SubcategoriesCompleteMet(mains: seq<MainCategory>, a: Achievement, saved: seq<string>, state: AchievementState)
    requires a.criteria.SubcategoriesComplete?
    ensures CheckAchievementCriteria(mains, a, saved, state).met <==>
      forall id :: id in a.criteria.subcategoryIds ==> id in saved
  {
    var required := SetOf(a.criteria.subcategoryIds);
    IntersectionFull(required, CompletedIds(saved));
  }

  /** `category_complete` is met exactly when every subcategory of the named
      main category has a saved card. An unknown main category gives not
      met, progress 0 and the text "0/0". */
  lemma CategoryCompleteMet(mains: seq<MainCategory>, a: Achievement, saved: seq<string>, state: AchievementState)
    requires a.criteria.CategoryComplete?
    ensures FindMainById(mains, a.criteria.mainCategoryId).Some? ==>
      (CheckAchievementCriteria(mains, a, saved, state).met <==>
        forall id :: id in Ids(FindMainById(mains, a.criteria.mainCategoryId).value.subcategories) ==> id in saved)
    ensures FindMainById(mains, a.criteria.mainCategoryId).None? ==>
      CheckAchievementCriteria(mains, a, saved, state) == CriteriaResult(false, Ratio(0, 1), "0/0")
  {
    var found := FindMainById(mains, a.criteria.mainCategoryId);
    if found.Some? {
      var required := SetOf(Ids(found.value.subcategories));
      IntersectionFull(required, CompletedIds(saved));
    }
  }

  /** `all_categories_complete` is met exactly when every catalog
      subcategory has a saved card. */
  lemma AllCategoriesCompleteMet(mains: seq<MainCategory>, a: Achievement, saved: seq<string>, state: AchievementState)
    requires a.criteria.AllCategoriesComplete?
    ensures CheckAchievementCriteria(mains, a, saved, state).met <==> forall s :: s in Flatten(mains) ==> s.id in saved
  {
    var all := Ids(Flatten(mains));
    CountInFull(all, CompletedIds(saved));
    assert forall s :: s in Flatten(mains) ==> s.id in all by {
      forall s | s in Flatten(mains) ensures s.id in all {
        var i :| 0 <= i < |Flatten(mains)| && Flatten(mains)[i] == s;
        assert all[i] == s.id;
      }
    }
    assert forall id :: id in all ==> exists s :: s in Flatten(mains) && s.id == id by {
      forall id | id in all ensures exists s :: s in Flatten(mains) && s.id == id {
        var i :| 0 <= i < |all| && all[i] == id;
        assert Flatten(mains)[i] in Flatten(mains);
      }
    }
  }

  /** An empty `subcategories_complete` list counts as met: 0 >= 0, with no
      guard against a zero total. */
  lemma EmptyRequirementMet(mains: seq<MainCategory>, a: Achievement, saved: seq<string>, state: AchievementState)
    requires a.criteria == SubcategoriesComplete([])
    ensures CheckAchievementCriteria(mains, a, saved, state).met
    ensures CheckAchievementCriteria(mains, a, saved, state).progress == Ratio(0, 0)
  {
    assert SetOf([]) == {};
  }

  /** `custom` criteria are never met by the generic checker. */
  lemma CustomNeverMet(mains: seq<MainCategory>, a: Achievement, saved: seq<string>, state: AchievementState)
    requires a.criteria.Custom?
    ensures CheckAchievementCriteria(mains, a, saved, state) == CriteriaResult(false, Ratio(0, 1), "Special")
  {
  }

  /** One entry of the progress list. */
  function ProgressOf(mains: seq<MainCategory>, a: Achievement, saved: seq<string>, state: AchievementState): AchievementProgress {
    var unlocked := FindUnlocked(state.unlocked, a.id);
    var check := CheckAchievementCriteria(mains, a, saved, state);
    AchievementProgress(
      a,
      unlocked.Some? || check.met,
      if unlocked.Some? then Some(unlocked.value.unlockedAt) else None,
      check.progress,
      check.progressText)
  }

  /** `getAllAchievementProgress`: one entry per catalog achievement, in
      catalog order; an entry is unlocked when it is recorded as unlocked or
      its criteria are met now. */
  function GetAllAchievementProgress(mains: seq<MainCategory>, catalog: seq<Achievement>, saved: seq<string>, state: AchievementState)
    : (r: seq<AchievementProgress>)
    ensures |r| == |catalog|
    ensures forall i :: 0 <= i < |catalog| ==>
      && r[i].achievement == catalog[i]
      && (r[i].isUnlocked <==> catalog[i].id in UnlockedIds(state) || CheckAchievementCriteria(mains, catalog[i], saved, state).met)
      && (r[i].unlockedAt.Some? <==> catalog[i].id in UnlockedIds(state))
      && r[i].progress == CheckAchievementCriteria(mains, catalog[i], saved, state).progress
      && r[i].progressText == CheckAchievementCriteria(mains, catalog[i], saved, state).progressText
  {
    seq(|catalog|, i requires 0 <= i < |catalog| => ProgressOf(mains, catalog[i], saved, state))
  }

  /** An entry's unlock time is the time of the FIRST recorded unlock of its
      achievement. */
  lemma UnlockedAtFirstEntry(mains: seq<MainCategory>, catalog: seq<Achievement>, saved: seq<string>,
                             state: AchievementState, i: nat, k: nat)
    requires i < |catalog| && k < |state.unlocked|
    requires state.unlocked[k].achievementId == catalog[i].id
    requires forall j :: 0 <= j < k ==> state.unlocked[j].achievementId != catalog[i].id
    ensures GetAllAchievementProgress(mains, catalog, saved, state)[i].unlockedAt == Some(state.unlocked[k].unlockedAt)
  {
    FindUnlockedFirst(state.unlocked, catalog[i].id, k);
  }

  /** Whether `checkForNewAchievements` reports an achievement: not yet
      unlocked, not custom, and its criteria met. */
  predicate Qualifies(mains: seq<MainCategory>, a: Achievement, saved: seq<string>, state: AchievementState) {
    a.id !in UnlockedIds(state) && !a.criteria.Custom? && CheckAchievementCriteria(mains, a, saved, state).met
  }

  function NewEntry(a: Achievement, saved: seq<string>, now: int): UnlockedAchievement {
    UnlockedAchievement(a.id, now, Some(|saved|))
  }

  /** What `checkForNewAchievements` returns, in catalog order. */
  function NewlyMet(mains: seq<MainCategory>, catalog: seq<Achievement>, saved: seq<string>, state: AchievementState, now: int)
    : seq<UnlockedAchievement>
  {
    if catalog == [] then []
    else
      var last := catalog[|catalog| - 1];
      NewlyMet(mains, catalog[..|catalog| - 1], saved, state, now)
        + (if Qualifies(mains, last, saved, state) then [NewEntry(last, saved, now)] else [])
  }

  /** `checkForNewAchievements`: the loop over the catalog that pushes an
      entry for each qualifying achievement. `now` is the clock reading. */
  method CheckForNewAchievements(mains: seq<MainCategory>, catalog: seq<Achievement>, saved: seq<string>, state: AchievementState, now: int)
    returns (newlyUnlocked: seq<UnlockedAchievement>)
    ensures newlyUnlocked == NewlyMet(mains, catalog, saved, state, now)
  {
    newlyUnlocked := [];
    var alreadyUnlockedIds := set u | u in state.unlocked :: u.achievementId;
    for i := 0 to |catalog|
      invariant newlyUnlocked == NewlyMet(mains, catalog[..i], saved, state, now)
    {
      assert catalog[..i + 1][..i] == catalog[..i];
      var achievement := catalog[i];
      if achievement.id in alreadyUnlockedIds {
        continue;
      }
      if achievement.criteria.Custom? {
        continue;
      }
      var check := CheckAchievementCriteria(mains, achievement, saved, state);
      if check.met {
        newlyUnlocked := newlyUnlocked + [UnlockedAchievement(achievement.id, now, Some(|saved|))];
      }
    }
    assert catalog[..|catalog|] == catalog;
  }

  /** An entry is reported exactly for each qualifying catalog achievement,
      stamped with the clock reading and the number of saved cards. */
  lemma {:induction false} NewlyMetMembers(mains: seq<MainCategory>, catalog: seq<Achievement>, saved: seq<string>, state: AchievementState, now: int)
    ensures forall u :: u in NewlyMet(mains, catalog, saved, state, now) <==>
      exists a :: a in catalog && Qualifies(mains, a, saved, state) && u == NewEntry(a, saved, now)
  {
    if catalog != [] {
      var init := catalog[..|catalog| - 1];
      NewlyMetMembers(mains, init, saved, state, now);
      assert forall a :: a in catalog <==> a in init || a == catalog[|catalog| - 1];
    }
  }

  /** Reporting follows catalog order: the report for a catalog made of two
      parts is the report for the first part followed by that for the
      second. */
  lemma {:induction false} NewlyMetInOrder(mains: seq<MainCategory>, c1: seq<Achievement>, c2: seq<Achievement>, saved: seq<string>, state: AchievementState, now: int)
    ensures NewlyMet(mains, c1 + c2, saved, state, now) == NewlyMet(mains, c1, saved, state, now) + NewlyMet(mains, c2, saved, state, now)
    decreases |c2|
  {
    if c2 == [] {
      assert c1 + c2 == c1;
    } else {
      var init := c2[..|c2| - 1];
      NewlyMetInOrder(mains, c1, init, saved, state, now);
      assert (c1 + c2)[..|c1 + c2| - 1] == c1 + init;
      assert (c1 + c2)[|c1 + c2| - 1] == c2[|c2| - 1];
    }
  }

  function EntryIds(us: seq<UnlockedAchievement>): seq<string> {
    seq(|us|, i requires 0 <= i < |us| => us[i].achievementId)
  }

  /** With a catalog of distinct ids, no id is reported twice, and no id
      already unlocked is reported. */
  lemma {:induction false} NewlyMetDistinct(mains: seq<MainCategory>, catalog: seq<Achievement>, saved: seq<string>, state: AchievementState, now: int)
    requires forall i, j :: 0 <= i < j < |catalog| ==> catalog[i].id != catalog[j].id
    ensures DistinctStrings(EntryIds(NewlyMet(mains, catalog, saved, state, now)))
    ensures forall u :: u in NewlyMet(mains, catalog, saved, state, now) ==> u.achievementId !in UnlockedIds(state)
  {
    NewlyMetMembers(mains, catalog, saved, state, now);
    if catalog != [] {
      var init := catalog[..|catalog| - 1];
      var last := catalog[|catalog| - 1];
      NewlyMetDistinct(mains, init, saved, state, now);
      NewlyMetMembers(mains, init, saved, state, now);
      var prefix := NewlyMet(mains, init, saved, state, now);
      forall u | u in prefix ensures u.achievementId != last.id {
        var a :| a in init && Qualifies(mains, a, saved, state) && u == NewEntry(a, saved, now);
        var k :| 0 <= k < |init| && init[k] == a;
        assert catalog[k] == a;
      }
      var r := NewlyMet(mains, catalog, saved, state, now);
      forall i, j | 0 <= i < j < |r| ensures EntryIds(r)[i] != EntryIds(r)[j] {
        if j >= |prefix| {
          assert r[i] in prefix;
        } else {
          assert r[i] == prefix[i] && r[j] == prefix[j];
          assert EntryIds(prefix)[i] != EntryIds(prefix)[j];
        }
      }
    }
  }

  /** `checkSpecialAchievements`, with the local hour and the clock reading
      passed in. */
  method CheckSpecialAchievements(state: AchievementState, hour: int, now: int)
    returns (newlyUnlocked: seq<UnlockedAchievement>)
    ensures |newlyUnlocked| <= 1
    ensures newlyUnlocked == [UnlockedAchievement(NightOwl, now, None)] <==>
      0 <= hour < 4 && NightOwl !in UnlockedIds(state)
    ensures newlyUnlocked == [UnlockedAchievement(EarlyBird, now, None)] <==>
      4 <= hour < 6 && EarlyBird !in UnlockedIds(state)
    ensures newlyUnlocked == [] <==>
      !(0 <= hour < 4 && NightOwl !in UnlockedIds(state)) && !(4 <= hour < 6 && EarlyBird !in UnlockedIds(state))
  {
    assert NightOwl[0] != EarlyBird[0];
    newlyUnlocked := [];
    var alreadyUnlockedIds := set u | u in state.unlocked :: u.achievementId;
    if NightOwl !in alreadyUnlockedIds && hour >= 0 && hour < 4 {
      newlyUnlocked := newlyUnlocked + [UnlockedAchievement(NightOwl, now, None)];
    }
    if EarlyBird !in alreadyUnlockedIds && hour >= 4 && hour < 6 {
      newlyUnlocked := newlyUnlocked + [UnlockedAchievement(EarlyBird, now, None)];
    }
    assert [UnlockedAchievement(NightOwl, now, None)][0] != [UnlockedAchievement(EarlyBird, now, None)][0];
  }

  /** Values that count as filled: anything but the empty string. */
  function FilledCount(formData: FormData): nat {
    |set k | k in formData && formData[k] != Str("")|
  }

  /** `checkPerfectionistAchievement`. */
  function CheckPerfectionistAchievement(formData: FormData, fieldCount: int, state: AchievementState, now: int)
    : (r: Option<UnlockedAchievement>)
    ensures Perfectionist in UnlockedIds(state) ==> r.None?
    ensures Perfectionist !in UnlockedIds(state) ==> (r.Some? <==> FilledCount(formData) >= fieldCount)
    ensures r.Some? ==> r.value == UnlockedAchievement(Perfectionist, now, None)
  {
    var alreadyUnlockedIds := set u | u in state.unlocked :: u.achievementId;
    if Perfectionist in alreadyUnlockedIds then None
    else if FilledCount(formData) >= fieldCount then Some(UnlockedAchievement(Perfectionist, now, None))
    else None
  }

  /** Once the perfectionist entry has been recorded, it is never reported
      again, whatever the form. */
  lemma PerfectionistOnce(formData: FormData, fieldCount: int, state: AchievementState, now: int, later: FormData, t: int)
    requires CheckPerfectionistAchievement(formData, fieldCount, state, now).Some?
    ensures CheckPerfectionistAchievement(later, fieldCount,
      state.(unlocked := state.unlocked + [CheckPerfectionistAchievement(formData, fieldCount, state, now).value]), t).None?
  {
    var u := CheckPerfectionistAchievement(formData, fieldCount, state, now).value;
    assert u in state.unlocked + [u];
  }

  /** `MAIN_CATEGORIES.reduce((sum, cat) => sum + cat.subcategories.length, 0)` */
  function SubcategoryTotal(mains: seq<MainCategory>): nat {
    if mains == [] then 0
    else SubcategoryTotal(mains[..|mains| - 1]) + |mains[|mains| - 1].subcategories|
  }

  lemma {:induction false} SubcategoryTotalIsFlatten(mains: seq<MainCategory>)
    ensures SubcategoryTotal(mains) == |Flatten(mains)|
    decreases |mains|
  {
    if mains != [] {
      FlattenStep(mains);
      SubcategoryTotalIsFlatten(mains[1..]);
      if |mains| > 1 {
        SubcategoryTotalIsFlatten(mains[..|mains| - 1]);
        SubcategoryTotalFront(mains);
      } else {
        assert mains[..0] == [];
      }
    }
  }

  lemma {:induction false} SubcategoryTotalFront(mains: seq<MainCategory>)
    requires mains != []
    ensures SubcategoryTotal(mains) == |mains[0].subcategories| + SubcategoryTotal(mains[1..])
    decreases |mains|
  {
    if |mains| == 1 {
      assert mains[..0] == [] && mains[1..] == [];
    } else {
      var init := mains[..|mains| - 1];
      SubcategoryTotalFront(init);
      assert init[1..] == mains[1..][..|mains[1..]| - 1];
    }
  }

  /** `Math.round(x)`, for x = n / d with d > 0: the nearest integer, halves
      rounded up. */
  function RoundRatio(n: nat, d: nat): (r: nat)
    requires d > 0
    ensures 2 * r * d <= 2 * n + d < 2 * (r + 1) * d
  {
    (2 * n + d) / (2 * d)
  }

  /** `getCompletionStats`: distinct saved ids (catalog or not), the number
      of catalog subcategories, and the rounded percentage. */
  function GetCompletionStats(saved: seq<string>): (r: CompletionStats)
    ensures r.completedCards == |CompletedIds(saved)|
    ensures r.totalCards == 45
    ensures 2 * r.percentage * 45 <= 200 * r.completedCards + 45 < 2 * (r.percentage + 1) * 45
  {
    var completed := |CompletedIds(saved)|;
    var total := SubcategoryTotal(MainCategories);
    SubcategoryTotalIsFlatten(MainCategories);
    CategoriesSize();
    CompletionStats(completed, total, RoundRatio(100 * completed, total))
  }

}
