/** The category manager: the initial load, adding a category (appended only once the
    server has answered), and editing a budget (replaced by id only after success). */
module Categories {
  import opened Wrappers
  import opened Domain
  import opened Session

  const LoadFailedMessage := "Erro ao carregar categorias"
  const AddFailedMessage := "Erro ao adicionar categoria"
  const UpdateFailedMessage := "Erro ao atualizar orçamento"

  /** `categories.map(c => c._id === id ? { ...c, budget } : c)`. */
  function WithBudget(cs: seq<Category>, id: string, budget: int): (r: seq<Category>)
    ensures |r| == |cs|
    ensures forall i :: 0 <= i < |cs| && cs[i].id == id ==>
              r[i].budget == budget && r[i].id == cs[i].id && r[i].name == cs[i].name
    ensures forall i :: 0 <= i < |cs| && cs[i].id != id ==> r[i] == cs[i]
    decreases |cs|
  {
    if cs == [] then []
    else [if cs[0].id == id then cs[0].(budget := budget) else cs[0]] + WithBudget(cs[1..], id, budget)
  }

  /** An id that no entry carries leaves the list as it was. */
  lemma WithBudgetUnknownId(cs: seq<Category>, id: string, budget: int)
    requires forall i :: 0 <= i < |cs| ==> cs[i].id != id
    ensures WithBudget(cs, id, budget) == cs
  {
  }

  /** Setting the same budget twice is setting it once; a later budget overrides an
      earlier one. */
  lemma WithBudgetOverrides(cs: seq<Category>, id: string, b1: int, b2: int)
    ensures WithBudget(WithBudget(cs, id, b1), id, b2) == WithBudget(cs, id, b2)
  {
  }

  /** The request body of a new category; the budget text is sent through `parseFloat`. */
  datatype NewCategoryRequest = NewCategoryRequest(name: string, budget: string, userId: string)

  /** The request body of a budget update, sent to the category's own URL. */
  datatype BudgetRequest = BudgetRequest(categoryId: string, budget: int, userId: string)

  class CategoriesPage {
    var categories: seq<Category>
    var newName: string
    var newBudget: string
    var error: Option<string>
    var isLoading: bool
    var isSubmitting: bool

    constructor ()
      ensures categories == [] && newName == "" && newBudget == ""
      ensures error == None && isLoading && !isSubmitting
    {
      categories, newName, newBudget := [], "", "";
      error, isLoading, isSubmitting := None, true, false;
    }

    /** The form inputs. */
    method EditForm(name: string, budget: string)
      modifies this`newName, this`newBudget
      ensures newName == name && newBudget == budget
    {
      newName, newBudget := name, budget;
    }

    /** `fetchCategories`, the effect that runs on mount. */
    method Load(store: SessionStore, reply: Reply<seq<Category>>) returns (requested: bool)
      modifies this`categories, this`error, this`isLoading, store`lastNavigation
      ensures !isLoading
      ensures requested <==> SignedIn(store.Stored())
      ensures !requested ==>
        store.lastNavigation == Some(LoginRoute) && categories == old(categories) && error == old(error)
      ensures requested ==> store.lastNavigation == old(store.lastNavigation)
      ensures requested && reply.Answered? && reply.ok && reply.body.Some? ==>
        categories == reply.body.value && error == old(error)
      ensures requested && !(reply.Answered? && reply.ok && reply.body.Some?) ==>
        categories == old(categories) && error == Some(LoadFailedMessage)
    {
      requested := false;
      if !Present(store.token) || !Present(store.userId) {
        store.Navigate(LoginRoute);
        isLoading := false;
        return;
      }
      requested := true;
      if reply.NetworkError? {
        error := Some(LoadFailedMessage);
      } else if !reply.ok {
        error := Some(LoadFailedMessage);  // thrown 'Failed to fetch categories'
      } else if reply.body.None? {
        error := Some(LoadFailedMessage);  // response.json() throws
      } else {
        categories := reply.body.value;
      }
      isLoading := false;
    }

    /** The first half of `handleAddCategory`, up to the request: the in-flight flag is
        raised, and lowered again at once when there is no session. */
    method BeginAdd(store: SessionStore) returns (request: Option<NewCategoryRequest>)
      modifies this`isSubmitting, store`lastNavigation
      ensures request.Some? <==> SignedIn(store.Stored())
      ensures request.Some? ==>
        && request.value == NewCategoryRequest(newName, newBudget, store.userId.value)
        && isSubmitting && store.lastNavigation == old(store.lastNavigation)
      ensures request.None? ==> !isSubmitting && store.lastNavigation == Some(LoginRoute)
    {
      isSubmitting := true;
      if !Present(store.token) || !Present(store.userId) {
        store.Navigate(LoginRoute);
        isSubmitting := false;  // the `finally` after the early return
        return None;
      }
      request := Some(NewCategoryRequest(newName, newBudget, store.userId.value));
    }

    /** The second half of `handleAddCategory`, once the POST has settled. */
    method FinishAdd(reply: Reply<Category>)
      modifies this`categories, this`newName, this`newBudget, this`error, this`isSubmitting
      ensures !isSubmitting
      ensures reply.Answered? && reply.ok && reply.body.Some? ==>
        && categories == old(categories) + [reply.body.value]
        && newName == "" && newBudget == "" && error == old(error)
      ensures !(reply.Answered? && reply.ok && reply.body.Some?) ==>
        && categories == old(categories) && error == Some(AddFailedMessage)
        && newName == old(newName) && newBudget == old(newBudget)
    {
      if reply.Answered? && reply.ok && reply.body.Some? {
        categories := categories + [reply.body.value];
        newName, newBudget := "", "";
      } else {
        error := Some(AddFailedMessage);
      }
      isSubmitting := false;
    }

    /** `handleUpdateBudget`, run when a budget field loses focus. */
    method UpdateBudget(store: SessionStore, categoryId: string, budget: int, reply: Reply<ErrorBody>)
      returns (request: Option<BudgetRequest>)
      modifies this`categories, this`error, store`lastNavigation
      ensures request.Some? <==> SignedIn(store.Stored())
      ensures request.None? ==>
        store.lastNavigation == Some(LoginRoute) && categories == old(categories) && error == old(error)
      ensures request.Some? ==>
        && request.value == BudgetRequest(categoryId, budget, store.userId.value)
        && store.lastNavigation == old(store.lastNavigation)
      ensures request.Some? && reply.Answered? && reply.ok ==>
        categories == WithBudget(old(categories), categoryId, budget) && error == old(error)
      ensures request.Some? && !(reply.Answered? && reply.ok) ==>
        categories == old(categories) && error == Some(UpdateFailedMessage)
    {
      if !Present(store.token) || !Present(store.userId) {
        store.Navigate(LoginRoute);
        return None;
      }
      request := Some(BudgetRequest(categoryId, budget, store.userId.value));
      if reply.Answered? && reply.ok {
        categories := WithBudget(categories, categoryId, budget);
      } else {
        error := Some(UpdateFailedMessage);
      }
    }
  }

  /** A client: a successful add followed by a successful edit of the new entry's budget
      leaves the old entries as they were and the new one last, with the new budget. */
  method AddThenEdit(page: CategoriesPage, store: SessionStore, c: Category, budget: int)
    requires SignedIn(store.Stored())
    requires forall i :: 0 <= i < |page.categories| ==> page.categories[i].id != c.id
    modifies page, store
    ensures page.categories == old(page.categories) + [c.(budget := budget)]
  {
    var req := page.BeginAdd(store);
    page.FinishAdd(Answered(true, Some(c)));
    ghost var added := page.categories;
    var upd := page.UpdateBudget(store, c.id, budget, Answered(true, None));
    assert page.categories[..|added| - 1] == old(page.categories);
  }
}
