/** The page-level navigation of the index page: which view is shown, which
    category the editor has open, and the queue of categories still to fill
    in during a "quick wrapped" run. */
module Navigation {
  import opened Shared
  import opened Catalog

  datatype View = Landing | Categories | Editor | Custom | QuickWrapped | Saved | AchievementsView

  /** The three navigation fields together. */
  datatype NavState = NavState(view: View, selected: Option<Subcategory>, queue: seq<Subcategory>)

  /** `handleSelectCategory` and `handleCustomSave`: open the editor on a
      category. */
  function SelectCategory(s: NavState, c: Subcategory): (r: NavState)
    ensures r.view == Editor && r.selected == Some(c) && r.queue == s.queue
  {
    s.(selected := Some(c), view := Editor)
  }

  /** `handleBackToCategories`: clear the selection and the queue. */
  function BackToCategories(s: NavState): (r: NavState)
    ensures r == NavState(Categories, None, [])
  {
    s.(selected := None, queue := [], view := Categories)
  }

  /** The view-only handlers (`setAppState`). */
  function ShowView(s: NavState, v: View): (r: NavState)
    ensures r.view == v && r.selected == s.selected && r.queue == s.queue
  {
    s.(view := v)
  }

  /** `handleQuickWrappedStart`: open the first category and queue the
      rest; an empty list changes nothing. */
  function QuickWrappedStart(s: NavState, cats: seq<Subcategory>): (r: NavState)
    ensures cats == [] ==> r == s
    ensures cats != [] ==> r == NavState(Editor, Some(cats[0]), cats[1..])
  {
    if |cats| > 0 then s.(queue := cats[1..], selected := Some(cats[0]), view := Editor) else s
  }

  /** `handleNextInQueue`: open the next queued category, or go back to the
      category list once the queue is empty. */
  function NextInQueue(s: NavState): (r: NavState)
    ensures s.queue != [] ==> r == NavState(s.view, Some(s.queue[0]), s.queue[1..])
    ensures s.queue == [] ==> r == BackToCategories(s)
  {
    if |s.queue| > 0 then s.(selected := Some(s.queue[0]), queue := s.queue[1..]) else BackToCategories(s)
  }

  /** `k` presses of "next". */
  function NextTimes(s: NavState, k: nat): NavState
    decreases k
  {
    if k == 0 then s else NextTimes(NextInQueue(s), k - 1)
  }

  /** The editor is never open without a category. */
  predicate EditorHasSelection(s: NavState) {
    s.view == Editor ==> s.selected.Some?
  }

  /** Every handler keeps the editor supplied with a category. */
  lemma HandlersKeepSelection(s: NavState, c: Subcategory, cats: seq<Subcategory>, v: View)
    requires EditorHasSelection(s)
    requires v != Editor
    ensures EditorHasSelection(SelectCategory(s, c))
    ensures EditorHasSelection(BackToCategories(s))
    ensures EditorHasSelection(ShowView(s, v))
    ensures EditorHasSelection(QuickWrappedStart(s, cats))
    ensures EditorHasSelection(NextInQueue(s))
  {
  }

  /** After `k` presses of "next" in a run started on `cats`, the editor
      shows `cats[k]` with the later ones still queued. */
  lemma {:induction false} QueueVisitsInOrder(s: NavState, cats: seq<Subcategory>, k: nat)
    requires k < |cats|
    ensures NextTimes(QuickWrappedStart(s, cats), k) == NavState(Editor, Some(cats[k]), cats[k + 1..])
  {
    if k > 0 {
      QueueVisitsInOrder(s, cats, k - 1);
      QueueStep(QuickWrappedStart(s, cats), k - 1);
      assert cats[k..][0] == cats[k] && cats[k..][1..] == cats[k + 1..];
    }
  }

  /** `k + 1` presses are `k` presses and then one more. */
  lemma {:induction false} QueueStep(s: NavState, k: nat)
    ensures NextTimes(s, k + 1) == NextInQueue(NextTimes(s, k))
    decreases k
  {
    if k > 0 {
      QueueStep(NextInQueue(s), k - 1);
    }
  }

  /** The press after the last queued category returns to the category
      list: each category of the run is shown once, in order, and then the
      run ends. */
  lemma QueueRunEnds(s: NavState, cats: seq<Subcategory>)
    requires cats != []
    ensures NextTimes(QuickWrappedStart(s, cats), |cats|) == NavState(Categories, None, [])
  {
    QueueVisitsInOrder(s, cats, |cats| - 1);
    QueueStep(QuickWrappedStart(s, cats), |cats| - 1);
  }

  /** The index page's navigation state, held in the application context. */
  class Navigator {
    var view: View
    var selectedCategory: Option<Subcategory>
    var quickWrappedQueue: seq<Subcategory>

    function State(): NavState
      reads this
    {
      NavState(view, selectedCategory, quickWrappedQueue)
    }

    constructor ()
      ensures State() == NavState(Landing, None, [])
    {
      view := Landing;
      selectedCategory := None;
      quickWrappedQueue := [];
    }

    /** `setAppState`, used alone by `handleGetStarted`, `handleBackToLanding`,
        `handleCreateCustom`, `handleQuickWrapped`, `handleViewSaved` and
        `handleViewAchievements`. */
    method SetAppState(v: View)
      modifies this
      ensures State() == ShowView(old(State()), v)
    {
      view := v;
    }

    /** `handleSelectCategory` (also `handleCustomSave`). */
    method HandleSelectCategory(category: Subcategory)
      modifies this
      ensures State() == SelectCategory(old(State()), category)
    {
      selectedCategory := Some(category);
      view := Editor;
    }

    method HandleBackToCategories()
      modifies this
      ensures State() == BackToCategories(old(State()))
    {
      selectedCategory := None;
      quickWrappedQueue := [];
      view := Categories;
    }

    method HandleQuickWrappedStart(categories: seq<Subcategory>)
      modifies this
      ensures State() == QuickWrappedStart(old(State()), categories)
    {
      if |categories| > 0 {
        quickWrappedQueue := categories[1..];
        selectedCategory := Some(categories[0]);
        view := Editor;
      }
    }

    method HandleNextInQueue()
      modifies this
      ensures State() == NextInQueue(old(State()))
    {
      if |quickWrappedQueue| > 0 {
        selectedCategory := Some(quickWrappedQueue[0]);
        quickWrappedQueue := quickWrappedQueue[1..];
      } else {
        HandleBackToCategories();
      }
    }
  }
}
