/** The category browser's accordion: the set of expanded main-category ids. */
module CategoryBrowser {

  /** Adding an absent id or removing a present one. */
  function Toggled(expanded: set<string>, id: string): (r: set<string>)
    ensures id in expanded ==> id !in r
    ensures id !in expanded ==> id in r
    ensures forall other :: other != id ==> (other in r <==> other in expanded)
  {
    if id in expanded then expanded - {id} else expanded + {id}
  }

  /** Toggling the same id twice restores the set. */
  lemma ToggleTwice(expanded: set<string>, id: string)
    ensures Toggled(Toggled(expanded, id), id) == expanded
  {
  }

  class Browser {
    var expandedCategories: set<string>

    /** The browser opens with the 'people' section expanded. */
    constructor ()
      ensures expandedCategories == {"people"}
    {
      expandedCategories := {"people"};
    }

    /** `toggleCategory`: copies the set, then deletes or adds the id. */
    method ToggleCategory(categoryId: string)
      modifies this
      ensures expandedCategories == Toggled(old(expandedCategories), categoryId)
    {
      var next := expandedCategories;
      if categoryId in next {
        next := next - {categoryId};
      } else {
        next := next + {categoryId};
      }
      expandedCategories := next;
    }
  }
}
