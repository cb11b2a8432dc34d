/** The new-transaction form: the category list it offers (first entry preselected),
    the type selector that clears the category for revenue, and the submit handler
    with its one validation rule and its request body. */
module Transactions {
  import opened Wrappers
  import opened Domain
  import opened Session
  import Aggregation

  const CategoryRequiredMessage := "Category is required for expenses"
  const CreateFailedMessage := "Failed to create transaction"
  const CreateErrorMessage := "Erro ao criar transação"

  /** The form only reads a category's id and name. */
  datatype CategoryOption = CategoryOption(id: string, name: string)

  /** The JSON body of `POST /api/transactions`. `category` is None where the source
      sends `undefined` (it is then dropped from the JSON); `user` is the raw
      localStorage value. `month` is 1-based. */
  datatype TransactionRequest = TransactionRequest(
    amount: string,
    kind: Kind,
    category: Option<string>,
    description: string,
    date: Date,
    user: Option<string>,
    month: int,
    year: int)

  /** The body `handleSubmit` sends. */
  function BuildRequest(amount: string, kind: Kind, category: string, description: string,
                        date: Date, user: Option<string>): (r: TransactionRequest)
    ensures r.category.Some? <==> kind == Expense
    ensures r.category.Some? ==> r.category.value == category
    ensures 1 <= r.month <= 12 && r.month - 1 == date.month && r.year == date.year
    ensures r.amount == amount && r.kind == kind && r.description == description
    ensures r.date == date && r.user == user
  {
    TransactionRequest(amount, kind, if kind == Expense then Some(category) else None,
                       description, date, user, date.month + 1, date.year)
  }

  /** The request's 1-based month and the dashboard's 0-based filter agree: a transaction
      dated as the request shows in exactly one dashboard period, month `r.month - 1` of
      year `r.year`. */
  lemma RequestMonthMatchesDashboardFilter(amount: string, kind: Kind, category: string, description: string,
                                           date: Date, user: Option<string>, t: Transaction, month: int, year: int)
    requires t.date == date
    ensures var r := BuildRequest(amount, kind, category, description, date, user);
            Aggregation.InPeriod(t, month, year) <==> month == r.month - 1 && year == r.year
  {
  }

  class TransactionsPage {
    var categories: seq<CategoryOption>
    var amount: string
    var kind: Kind
    var category: string
    var description: string
    var date: Date
    var error: string
    var isLoading: bool

    /** The first render: an expense dated `today`, no category, still loading. */
    constructor (today: Date)
      ensures categories == [] && amount == "" && kind == Expense && category == ""
      ensures description == "" && date == today && error == "" && isLoading
    {
      categories, amount, kind, category := [], "", Expense, "";
      description, date, error, isLoading := "", today, "", true;
    }

    /** The category fetch on mount. The source checks neither the session nor the
        status: whatever JSON list comes back is taken. */
    method Load(reply: Reply<seq<CategoryOption>>)
      modifies this`categories, this`category, this`isLoading
      ensures !isLoading
      ensures reply.Answered? && reply.body.Some? ==>
        && categories == reply.body.value
        && category == (if |reply.body.value| > 0 then reply.body.value[0].name else old(category))
      ensures !(reply.Answered? && reply.body.Some?) ==>
        categories == old(categories) && category == old(category)
    {
      if reply.Answered? && reply.body.Some? {
        var data := reply.body.value;
        categories := data;
        if |data| > 0 {
          category := data[0].name;
        }
      }
      isLoading := false;
    }

    /** The type selector's `onChange`. */
    method ChangeType(k: Kind)
      modifies this`kind, this`category
      ensures kind == k
      ensures k == Revenue ==> category == ""
      ensures k == Expense ==> category == old(category)
    {
      kind := k;
      if k == Revenue {
        category := "";
      }
    }

    /** The category selector's `onChange`. */
    method SelectCategory(name: string)
      modifies this`category
      ensures category == name
    {
      category := name;
    }

    /** The amount, description and date inputs. */
    method EditForm(amount: string, description: string, date: Date)
      modifies this`amount, this`description, this`date
      ensures this.amount == amount && this.description == description && this.date == date
    {
      this.amount, this.description, this.date := amount, description, date;
    }

    /** `handleSubmit`. `request` is the body posted, None when validation stopped it. */
    method Submit(store: SessionStore, reply: Reply<ErrorBody>) returns (request: Option<TransactionRequest>)
      modifies this`error, store`lastNavigation
      ensures request.None? <==> kind == Expense && category == ""
      ensures request.None? ==>
        error == CategoryRequiredMessage && store.lastNavigation == old(store.lastNavigation)
      ensures request.Some? ==>
        request.value == BuildRequest(amount, kind, category, description, date, store.userId)
      ensures request.Some? && reply.Answered? && reply.ok ==>
        store.lastNavigation == Some(DashboardRoute) && error == old(error)
      ensures request.Some? && reply.Answered? && !reply.ok && reply.body.Some? ==>
        && error == ServerErrorOr(reply.body.value.error, CreateFailedMessage)
        && store.lastNavigation == old(store.lastNavigation)
      ensures request.Some? && (reply.NetworkError? || (!reply.ok && reply.body.None?)) ==>
        error == CreateErrorMessage && store.lastNavigation == old(store.lastNavigation)
    {
      if kind == Expense && category == "" {
        error := CategoryRequiredMessage;
        return None;
      }
      request := Some(BuildRequest(amount, kind, category, description, date, store.userId));
      if reply.NetworkError? {
        error := CreateErrorMessage;
      } else if reply.ok {
        store.Navigate(DashboardRoute);
      } else if reply.body.None? {
        error := CreateErrorMessage;  // response.json() throws
      } else {
        error := ServerErrorOr(reply.body.value.error, CreateFailedMessage);
      }
    }
  }

  /** A client: after a successful category load, an expense can be submitted without
      touching the category selector, and it carries the first category's name. */
  method SubmitWithDefaultCategory(page: TransactionsPage, store: SessionStore, list: seq<CategoryOption>)
    returns (request: Option<TransactionRequest>)
    requires page.kind == Expense && |list| > 0 && list[0].name != ""
    modifies page, store
    ensures request.Some? && request.value.category == Some(list[0].name)
  {
    page.Load(Answered(true, Some(list)));
    request := page.Submit(store, Answered(true, None));
  }
}
