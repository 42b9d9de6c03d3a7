/** The achievements page: the tab filter over the progress list and the
    two counters shown in its header. */
module AchievementsPage {
  import opened Shared
  import opened Achievements

  /** The active tab: every category, or one of them. */
  datatype Tab = All | OnlyCategory(category: AchievementCategory)

  /** An entry is visible when its achievement is not hidden or is unlocked. */
  predicate Visible(p: AchievementProgress) {
    !IsHidden(p.achievement) || p.isUnlocked
  }

  predicate Shown(tab: Tab, p: AchievementProgress) {
    match tab
    case All => Visible(p)
    case OnlyCategory(c) => p.achievement.category == c && Visible(p)
  }

  /** `filteredProgress` */
  function FilteredProgress(tab: Tab, allProgress: seq<AchievementProgress>): seq<AchievementProgress> {
    Filter(allProgress, (p: AchievementProgress) => Shown(tab, p))
  }

  /** The 'all' tab keeps exactly the visible entries, a category tab
      exactly the visible entries of that category, and either way the
      result is the progress list with entries left out, in order. */
  lemma FilteredProgressCorrect(tab: Tab, allProgress: seq<AchievementProgress>)
    ensures forall p :: p in FilteredProgress(tab, allProgress) <==>
      p in allProgress && (!IsHidden(p.achievement) || p.isUnlocked)
        && (tab.OnlyCategory? ==> p.achievement.category == tab.category)
    ensures Subsequence(FilteredProgress(tab, allProgress), allProgress)
  {
    FilterSubsequence(allProgress, (p: AchievementProgress) => Shown(tab, p));
  }

  predicate IsUnlockedEntry(p: AchievementProgress) {
    p.isUnlocked
  }

  predicate NotHidden(a: Achievement) {
    !IsHidden(a)
  }

  /** `unlockedCount`: every unlocked entry, hidden ones included. */
  function UnlockedCount(allProgress: seq<AchievementProgress>): (n: nat)
    ensures n <= |allProgress|
  {
    |Filter(allProgress, IsUnlockedEntry)|
  }

  /** `visibleTotal`: the catalog achievements that are not hidden. */
  function VisibleTotal(catalog: seq<Achievement>): (n: nat)
    ensures n <= |catalog|
  {
    |Filter(catalog, NotHidden)|
  }

  /** `unlockedCount` counts each unlocked entry once and nothing else: it
      adds up over a split list, and a single entry counts one exactly when
      it is unlocked. */
  lemma UnlockedCountAdds(a: seq<AchievementProgress>, b: seq<AchievementProgress>, p: AchievementProgress)
    ensures UnlockedCount(a + b) == UnlockedCount(a) + UnlockedCount(b)
    ensures UnlockedCount([]) == 0
    ensures UnlockedCount([p]) == if p.isUnlocked then 1 else 0
    ensures UnlockedCount(a) == |a| <==> forall q :: q in a ==> q.isUnlocked
  {
    FilterAppend(a, b, IsUnlockedEntry);
    FilterKeepsAll(a, IsUnlockedEntry);
    assert [p][1..] == [];
  }

  /** `visibleTotal` counts each achievement that is not hidden once and
      nothing else. */
  lemma VisibleTotalAdds(a: seq<Achievement>, b: seq<Achievement>, x: Achievement)
    ensures VisibleTotal(a + b) == VisibleTotal(a) + VisibleTotal(b)
    ensures VisibleTotal([]) == 0
    ensures VisibleTotal([x]) == if IsHidden(x) then 0 else 1
    ensures VisibleTotal(a) == |a| <==> forall y :: y in a ==> !IsHidden(y)
  {
    FilterAppend(a, b, NotHidden);
    FilterKeepsAll(a, NotHidden);
    assert [x][1..] == [];
  }

  /** Unlocking a hidden achievement counts towards `unlockedCount` but not
      towards `visibleTotal`, so the first can exceed the second: one hidden
      achievement, unlocked, gives 1 of 0. */
  lemma UnlockedCanExceedVisible(a: Achievement)
    requires IsHidden(a)
    ensures var progress := [AchievementProgress(a, true, None, Ratio(0, 1), "Special")];
      UnlockedCount(progress) == 1 && VisibleTotal([a]) == 0
  {
    var progress := [AchievementProgress(a, true, None, Ratio(0, 1), "Special")];
    assert progress[1..] == [] && [a][1..] == [];
    assert Filter(progress, IsUnlockedEntry) == [progress[0]];
    assert Filter([a], NotHidden) == [];
  }
}
