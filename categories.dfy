/**
 * The category list screen: delete with a confirmation dialog, and in-place
 * renaming of one category at a time.
 */
module CategoriesClient {
  import opened Wrappers
  import opened Text
  import opened Lists
  import opened Actions

  datatype Category = Category(id: string, name: string, description: string, icon: string)

  predicate UniqueIds(cats: seq<Category>) {
    forall i, j :: 0 <= i < j < |cats| ==> cats[i].id != cats[j].id
  }

  /** `categories.map(c => c.id === id ? { ...c, name } : c)` */
  function Renamed(cats: seq<Category>, id: string, name: string): (r: seq<Category>)
    ensures |r| == |cats|
    ensures forall i :: 0 <= i < |cats| && cats[i].id != id ==> r[i] == cats[i]
    ensures forall i :: 0 <= i < |cats| && cats[i].id == id ==>
      r[i].name == name && r[i].id == cats[i].id && r[i].description == cats[i].description && r[i].icon == cats[i].icon
  {
    seq(|cats|, i requires 0 <= i < |cats| => if cats[i].id == id then cats[i].(name := name) else cats[i])
  }

  /** Renaming keeps every id in place, so it keeps the ids unique. */
  lemma RenameKeepsIds(cats: seq<Category>, id: string, name: string)
    ensures forall i :: 0 <= i < |cats| ==> Renamed(cats, id, name)[i].id == cats[i].id
    ensures UniqueIds(cats) ==> UniqueIds(Renamed(cats, id, name))
  {
  }

  /** With unique ids, renaming a category back to its old name restores the list. */
  lemma RenameRoundTrip(cats: seq<Category>, k: int, name: string)
    requires UniqueIds(cats) && 0 <= k < |cats|
    ensures Renamed(Renamed(cats, cats[k].id, name), cats[k].id, cats[k].name) == cats
  {
  }

  /** `categories.filter(c => c.id !== id)` */
  function WithoutCategory(cats: seq<Category>, id: string): (r: seq<Category>)
    ensures forall i :: 0 <= i < |r| ==> r[i].id != id
  {
    Filter(cats, (c: Category) => c.id != id)
  }

  /** Deleting removes exactly the category with that id and keeps the others, in order. */
  lemma WithoutCategoryKeepsTheRest(cats: seq<Category>, id: string, c: Category)
    ensures c in WithoutCategory(cats, id) <==> c in cats && c.id != id
    ensures IsSubsequence(WithoutCategory(cats, id), cats)
    ensures c.id != id ==> multiset(WithoutCategory(cats, id))[c] == multiset(cats)[c]
  {
    FilterMembership(cats, (c: Category) => c.id != id, c);
    FilterIsSubsequence(cats, (c: Category) => c.id != id);
    FilterMultiset(cats, (c: Category) => c.id != id, c);
  }

  /** The client state of the categories screen. */
  class CategoriesState {
    var categories: seq<Category>
    var showDeleteConfirm: Option<string>
    var editingId: Option<string>
    var editingName: string

    constructor (initialCategories: seq<Category>)
      ensures categories == initialCategories
      ensures showDeleteConfirm.None? && editingId.None? && editingName == ""
    {
      categories := initialCategories;
      showDeleteConfirm, editingId, editingName := None, None, "";
    }

    /** The trash button: ask for confirmation before deleting `id`. */
    method RequestDelete(id: string)
      modifies this`showDeleteConfirm
      ensures showDeleteConfirm == Some(id)
    {
      showDeleteConfirm := Some(id);
    }

    /** Cancel or close the confirmation dialog. */
    method DismissDelete()
      modifies this`showDeleteConfirm
      ensures showDeleteConfirm.None?
    {
      showDeleteConfirm := None;
    }

    /** handleDeleteCategory; `reply` is what deleteCategory answers. */
    method HandleDeleteCategory(id: string, reply: ActionResult)
      modifies this`categories, this`showDeleteConfirm
      ensures categories == if reply == Success then WithoutCategory(old(categories), id) else old(categories)
      ensures showDeleteConfirm.None?
    {
      if reply == Success {
        categories := WithoutCategory(categories, id);
      }
      showDeleteConfirm := None;
    }

    /** The dialog's Delete button: deletes the pending id, if there is one. */
    method ConfirmDelete(reply: ActionResult) returns (deleted: Option<string>)
      modifies this`categories, this`showDeleteConfirm
      ensures deleted == if IsTruthy(old(showDeleteConfirm)) then old(showDeleteConfirm) else None
      ensures deleted.Some? ==>
        showDeleteConfirm.None? &&
        categories == if reply == Success then WithoutCategory(old(categories), deleted.value) else old(categories)
      ensures deleted.None? ==> categories == old(categories) && showDeleteConfirm == old(showDeleteConfirm)
    {
      deleted := None;
      if showDeleteConfirm.Some? && showDeleteConfirm.value != "" {
        deleted := showDeleteConfirm;
        HandleDeleteCategory(showDeleteConfirm.value, reply);
      }
    }

    method StartEditing(category: Category)
      modifies this`editingId, this`editingName
      ensures editingId == Some(category.id) && editingName == category.name
    {
      editingId := Some(category.id);
      editingName := category.name;
    }

    /** Typing in the rename box: the draft name becomes the box's text. */
    method EditName(value: string)
      modifies this`editingName
      ensures editingName == value
    {
      editingName := value;
    }

    method CancelEditing()
      modifies this`editingId, this`editingName
      ensures editingId.None? && editingName == ""
    {
      editingId := None;
      editingName := "";
    }

    /** saveEditing; `reply` is what updateCategoryName answers. The result is the
        name sent to updateCategoryName, None when it is not called. */
    method SaveEditing(id: string, reply: ActionResult) returns (sent: Option<string>)
      modifies this`categories, this`editingId, this`editingName
      ensures sent == if IsBlank(old(editingName)) then None else Some(Trim(old(editingName)))
      ensures sent.Some? && reply == Success ==>
        categories == Renamed(old(categories), id, sent.value) && editingId.None? && editingName == ""
      ensures sent.None? || reply != Success ==>
        categories == old(categories) && editingId == old(editingId) && editingName == old(editingName)
    {
      if IsBlank(editingName) {
        return None;
      }
      var name := Trim(editingName);
      sent := Some(name);
      if reply == Success {
        categories := Renamed(categories, id, name);
        editingId := None;
        editingName := "";
      }
    }
  }

  /** The name a successful rename stores is trimmed and not empty. */
  lemma RenamedNameIsTrimmed(editingName: string)
    requires !IsBlank(editingName)
    ensures Trim(editingName) != [] && Trim(Trim(editingName)) == Trim(editingName)
  {
  }
}
