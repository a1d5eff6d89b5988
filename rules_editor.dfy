/**
 * The rules editor page's state: the tree being edited, the expanded
 * categories and subcategories, the item whose fields are open for editing
 * and the pending delete confirmation. Each handler rebuilds the tree with
 * the pure functions of `Rules` and overwrites the fields it owns.
 */
module RulesEditor {
  import opened Wrappers
  import opened Text
  import Rules

  datatype EditingItem = EditingItem(kind: Rules.ItemKind, id: string)

  class RulesEditorPage {
    var categories: seq<Rules.MainCategory>
    var expandedCategories: set<string>
    var expandedSubCategories: set<string>
    var editingItem: Option<EditingItem>
    var deleteConfirm: Option<Rules.DeleteTarget>

    /** The page after `loadRules` has put the stored tree (or nothing) into state. */
    constructor (loaded: seq<Rules.MainCategory>)
      ensures categories == loaded
      ensures expandedCategories == {} && expandedSubCategories == {}
      ensures editingItem.None? && deleteConfirm.None?
    {
      categories := loaded;
      expandedCategories, expandedSubCategories := {}, {};
      editingItem, deleteConfirm := None, None;
    }

    /** The number shown in the header: the rules of every subcategory. */
    function TotalRules(): nat
      reads this
    {
      Rules.TotalRules(categories)
    }

    method AddCategory()
      modifies this
      ensures categories == Rules.AddCategory(old(categories))
      ensures TotalRules() == old(TotalRules())
      ensures expandedCategories == old(expandedCategories) + {Rules.NewCategoryId(old(categories))}
      ensures editingItem == Some(EditingItem(Rules.CategoryItem, Rules.NewCategoryId(old(categories))))
      ensures expandedSubCategories == old(expandedSubCategories) && deleteConfirm == old(deleteConfirm)
    {
      var newId := Rules.NewCategoryId(categories);
      Rules.AddCategoryAppends(categories);
      categories := Rules.AddCategory(categories);
      expandedCategories := expandedCategories + {newId};
      editingItem := Some(EditingItem(Rules.CategoryItem, newId));
    }

    method UpdateCategory(id: string, updates: Rules.CategoryUpdate)
      modifies this`categories
      ensures categories == Rules.UpdateCategory(old(categories), id, updates)
    {
      categories := Rules.UpdateCategory(categories, id, updates);
    }

    method DeleteCategory(id: string)
      modifies this`categories, this`deleteConfirm
      ensures categories == Rules.DeleteCategory(old(categories), id)
      ensures forall c :: c in categories <==> c in old(categories) && c.id != id
      ensures deleteConfirm.None?
    {
      Rules.DeleteCategoryKeepsOthers(categories, id);
      categories := Rules.DeleteCategory(categories, id);
      deleteConfirm := None;
    }

    /** A missing category leaves everything as it was. */
    method AddSubCategory(categoryId: string)
      modifies this
      ensures var found := Rules.FindById(old(categories), Rules.CategoryId, categoryId);
              if found.None? then
                && categories == old(categories) && expandedSubCategories == old(expandedSubCategories)
                && editingItem == old(editingItem)
              else
                var newId := Rules.NewSubCategoryId(categoryId, found.value);
                && categories == Rules.AddSubCategory(old(categories), categoryId)
                && expandedSubCategories == old(expandedSubCategories) + {newId}
                && editingItem == Some(EditingItem(Rules.SubCategoryItem, newId))
      ensures expandedCategories == old(expandedCategories) && deleteConfirm == old(deleteConfirm)
    {
      var category := Rules.FindById(categories, Rules.CategoryId, categoryId);
      if category.None? {
        return;
      }
      var newId := Rules.NewSubCategoryId(categoryId, category.value);
      var newSubCategory := Rules.NewSubCategory(newId);
      UpdateCategory(categoryId, Rules.CategoryUpdate(None, None, Some(category.value.subCategories + [newSubCategory])));
      expandedSubCategories := expandedSubCategories + {newId};
      editingItem := Some(EditingItem(Rules.SubCategoryItem, newId));
    }

    method UpdateSubCategory(categoryId: string, subCategoryId: string, updates: Rules.SubCategoryUpdate)
      modifies this`categories
      ensures categories == Rules.UpdateSubCategory(old(categories), categoryId, subCategoryId, updates)
    {
      categories := Rules.UpdateSubCategory(categories, categoryId, subCategoryId, updates);
    }

    method DeleteSubCategory(categoryId: string, subCategoryId: string)
      modifies this`categories, this`deleteConfirm
      ensures categories == Rules.DeleteSubCategory(old(categories), categoryId, subCategoryId)
      ensures deleteConfirm.None?
    {
      categories := Rules.DeleteSubCategory(categories, categoryId, subCategoryId);
      deleteConfirm := None;
    }

    /** `today` is the page's locale-formatted date, an input here. */
    method AddRule(categoryId: string, subCategoryId: string, today: string)
      modifies this`categories, this`editingItem
      ensures var found := Rules.FindSubCategory(old(categories), categoryId, subCategoryId);
              if found.None? then categories == old(categories) && editingItem == old(editingItem)
              else && categories == Rules.AddRule(old(categories), categoryId, subCategoryId, today)
                   && editingItem == Some(EditingItem(Rules.RuleItem, Rules.NewRuleId(subCategoryId, found.value)))
    {
      var subCategory := Rules.FindSubCategory(categories, categoryId, subCategoryId);
      if subCategory.None? {
        return;
      }
      var newId := Rules.NewRuleId(subCategoryId, subCategory.value);
      var newRule := Rules.NewRule(newId, today);
      UpdateSubCategory(categoryId, subCategoryId,
                        Rules.SubCategoryUpdate(None, None, None, Some(subCategory.value.rules + [newRule])));
      editingItem := Some(EditingItem(Rules.RuleItem, newId));
    }

    method UpdateRule(categoryId: string, subCategoryId: string, ruleId: string, updates: Rules.RuleUpdate, today: string)
      modifies this`categories
      ensures categories == Rules.UpdateRule(old(categories), categoryId, subCategoryId, ruleId, updates, today)
      ensures TotalRules() == old(TotalRules())
    {
      Rules.UpdateRuleKeepsCount(categories, categoryId, subCategoryId, ruleId, updates, today);
      categories := Rules.UpdateRule(categories, categoryId, subCategoryId, ruleId, updates, today);
    }

    method DeleteRule(categoryId: string, subCategoryId: string, ruleId: string)
      modifies this`categories, this`deleteConfirm
      ensures categories == Rules.DeleteRule(old(categories), categoryId, subCategoryId, ruleId)
      ensures TotalRules() <= old(TotalRules())
      ensures deleteConfirm.None?
    {
      Rules.DeleteRuleEffect(categories, categoryId, subCategoryId, ruleId);
      categories := Rules.DeleteRule(categories, categoryId, subCategoryId, ruleId);
      deleteConfirm := None;
    }

    method ToggleCategory(id: string)
      modifies this`expandedCategories
      ensures expandedCategories == Rules.Toggle(old(expandedCategories), id)
    {
      var newSet := expandedCategories;
      if id in newSet {
        newSet := newSet - {id};
      } else {
        newSet := newSet + {id};
      }
      expandedCategories := newSet;
    }

    method ToggleSubCategory(id: string)
      modifies this`expandedSubCategories
      ensures expandedSubCategories == Rules.Toggle(old(expandedSubCategories), id)
    {
      var newSet := expandedSubCategories;
      if id in newSet {
        newSet := newSet - {id};
      } else {
        newSet := newSet + {id};
      }
      expandedSubCategories := newSet;
    }

    /** A pencil button opens `id`'s fields for editing. */
    method StartEditing(kind: Rules.ItemKind, id: string)
      modifies this`editingItem
      ensures editingItem == Some(EditingItem(kind, id))
    {
      editingItem := Some(EditingItem(kind, id));
    }

    /** Leaving a field (blur, Enter or the done button) closes the editor. */
    method StopEditing()
      modifies this`editingItem
      ensures editingItem.None?
    {
      editingItem := None;
    }

    /** A trash button opens the confirmation dialog for `target`. */
    method AskDelete(target: Rules.DeleteTarget)
      modifies this`deleteConfirm
      ensures deleteConfirm == Some(target)
    {
      deleteConfirm := Some(target);
    }

    /** The dialog is dismissed. */
    method CancelDelete()
      modifies this`deleteConfirm
      ensures deleteConfirm.None?
    {
      deleteConfirm := None;
    }

    /**
     * The dialog's confirm button: nothing happens without a pending target,
     * or when the target lacks the parent ids its kind needs (the handler then
     * leaves `deleteConfirm` as it was); otherwise the addressed delete runs
     * and clears `deleteConfirm`.
     */
    method ConfirmDelete()
      modifies this`categories, this`deleteConfirm
      ensures old(deleteConfirm).None? ==> categories == old(categories) && deleteConfirm.None?
      ensures old(deleteConfirm).Some? ==>
                match Rules.ConfirmedDelete(old(categories), old(deleteConfirm).value)
                case None => categories == old(categories) && deleteConfirm == old(deleteConfirm)
                case Some(after) => categories == after && deleteConfirm.None?
    {
      if deleteConfirm.None? {
        return;
      }
      var t := deleteConfirm.value;
      if t.kind == Rules.CategoryItem {
        DeleteCategory(t.id);
      } else if t.kind == Rules.SubCategoryItem && Present(t.parentId) {
        DeleteSubCategory(t.parentId.value, t.id);
      } else if t.kind == Rules.RuleItem && Present(t.parentId) && Present(t.subParentId) {
        DeleteRule(t.parentId.value, t.subParentId.value, t.id);
      }
    }
  }
}
