/** The dashboard page: its data fetch (credential check, userId format check, the
    three reads accepted all-or-nothing), the month/year selectors and logout. The
    figures it renders are in module Aggregation. */
module Dashboard {
  import opened Wrappers
  import opened Domain
  import opened Session
  import Aggregation

  const InvalidUserIdMessage := "Invalid user ID format. Please log in again."
  const LoadFailedMessage := "Failed to load dashboard data. Please try again later."

  // ---------------------------------------------------------------- userId format

  predicate IsHexDigit(c: char) {
    '0' <= c <= '9' || 'a' <= c <= 'f' || 'A' <= c <= 'F'
  }

  /** The whole of `s` is a run of exactly `n` hex digits: the regular expression
      `^[0-9a-fA-F]{n}$`, matched one character class at a time. */
  function MatchesHexRun(s: string, n: nat): bool
    decreases n
  {
    if n == 0 then s == []
    else s != [] && IsHexDigit(s[0]) && MatchesHexRun(s[1..], n - 1)
  }

  const ObjectIdLength := 24

  /** The dashboard's userId test `/^[0-9a-fA-F]{24}$/`: it accepts exactly the strings of
      24 hex digits. */
  predicate ValidUserId(s: string)
    ensures ValidUserId(s) <==> |s| == 24 && forall i :: 0 <= i < |s| ==> IsHexDigit(s[i])
  {
    HexRunIff(s, ObjectIdLength);
    MatchesHexRun(s, ObjectIdLength)
  }

  /** The pattern accepts exactly the strings of length `n` made of hex digits. */
  lemma {:induction false} HexRunIff(s: string, n: nat)
    ensures MatchesHexRun(s, n) <==> |s| == n && forall i :: 0 <= i < |s| ==> IsHexDigit(s[i])
    decreases n
  {
    if n > 0 && s != [] {
      HexRunIff(s[1..], n - 1);
      if forall i :: 0 <= i < |s[1..]| ==> IsHexDigit(s[1..][i]) {
        if IsHexDigit(s[0]) {
          assert forall i :: 0 <= i < |s| ==> IsHexDigit(s[i]) by {
            forall i | 0 <= i < |s| ensures IsHexDigit(s[i]) {
              if i > 0 { assert s[i] == s[1..][i - 1]; }
            }
          }
        }
      }
    }
  }

  /** A MongoDB ObjectId passes, in either case. */
  lemma ObjectIdAccepted()
    ensures ValidUserId("507f1f77bcf86cd799439011")
  {
    var s := "507f1f77bcf86cd799439011";
    assert forall i :: 0 <= i < |s| ==> IsHexDigit(s[i]);
  }

  /** One character too many, or a letter outside a-f, is rejected. */
  lemma MalformedUserIdsRejected()
    ensures !ValidUserId("507f1f77bcf86cd7994390110")
    ensures !ValidUserId("507f1f77bcf86cd79943901g")
  {
    var s := "507f1f77bcf86cd79943901g";
    assert !IsHexDigit(s[23]);
  }

  // ---------------------------------------------------------------- the three reads

  /** The user projection; `balance` is None when it is not a JSON number. */
  datatype UserData = UserData(balance: Option<int>)

  /** What the dashboard takes from the three replies when it accepts them. */
  datatype Loaded = Loaded(transactions: seq<Transaction>, categories: seq<Category>, balance: int)

  /** The all-or-nothing join: every reply answered with `ok`, both lists well-formed
      arrays and the balance a number. */
  function Accept(tr: Reply<seq<Transaction>>, cr: Reply<seq<Category>>, ur: Reply<UserData>): (r: Option<Loaded>)
    ensures r.Some? <==>
      && tr.Answered? && tr.ok && tr.body.Some?
      && cr.Answered? && cr.ok && cr.body.Some?
      && ur.Answered? && ur.ok && ur.body.Some? && ur.body.value.balance.Some?
    ensures r.Some? ==>
      r.value == Loaded(tr.body.value, cr.body.value, ur.body.value.balance.value)
  {
    match (tr, cr, ur)
    case (Answered(true, Some(ts)), Answered(true, Some(cs)), Answered(true, Some(UserData(Some(b))))) =>
      Some(Loaded(ts, cs, b))
    case _ => None
  }

  /** A single failing reply is enough to reject the whole load. */
  lemma AnyFailureRejects(tr: Reply<seq<Transaction>>, cr: Reply<seq<Category>>, ur: Reply<UserData>)
    requires tr.NetworkError? || !tr.ok || cr.NetworkError? || !cr.ok || ur.NetworkError? || !ur.ok
    ensures Accept(tr, cr, ur).None?
  {
  }

  class DashboardPage {
    var transactions: seq<Transaction>
    var categories: seq<Category>
    var balance: int
    var isLoading: bool
    var error: Option<string>
    var selectedMonth: int
    var selectedYear: int

    /** The first render: empty data, loading, the current month selected. */
    constructor (today: Date)
      ensures transactions == [] && categories == [] && balance == 0
      ensures isLoading && error == None
      ensures selectedMonth == today.month && selectedYear == today.year
    {
      transactions, categories, balance := [], [], 0;
      isLoading, error := true, None;
      selectedMonth, selectedYear := today.month, today.year;
    }

    /** `fetchData`. The replies are what the three reads would answer; `requested`
        says whether they were issued at all. */
    method FetchData(store: SessionStore, tr: Reply<seq<Transaction>>, cr: Reply<seq<Category>>, ur: Reply<UserData>)
      returns (requested: bool)
      modifies this`transactions, this`categories, this`balance, this`error, this`isLoading, store`lastNavigation
      ensures !isLoading
      ensures requested <==> SignedIn(store.Stored()) && ValidUserId(store.userId.value)
      // missing credentials: off to the login page, nothing else changes
      ensures !SignedIn(store.Stored()) ==>
        && store.lastNavigation == Some(LoginRoute)
        && error == old(error)
        && transactions == old(transactions) && categories == old(categories) && balance == old(balance)
      ensures SignedIn(store.Stored()) ==> store.lastNavigation == old(store.lastNavigation)
      // malformed userId: the format error, no request
      ensures SignedIn(store.Stored()) && !ValidUserId(store.userId.value) ==>
        && error == Some(InvalidUserIdMessage)
        && transactions == old(transactions) && categories == old(categories) && balance == old(balance)
      // issued: all three accepted, or one combined error and the old data kept
      ensures requested ==>
        match Accept(tr, cr, ur)
        case Some(loaded) =>
          && transactions == loaded.transactions && categories == loaded.categories
          && balance == loaded.balance && error == None
        case None =>
          && error == Some(LoadFailedMessage)
          && transactions == old(transactions) && categories == old(categories) && balance == old(balance)
    {
      requested := false;
      var token, userId := store.token, store.userId;
      if !Present(token) || !Present(userId) {
        store.Navigate(LoginRoute);
        isLoading := false;
        return;
      }
      if !ValidUserId(userId.value) {
        error := Some(InvalidUserIdMessage);
        isLoading := false;
        return;
      }
      requested := true;
      var failed := false;
      // the status checks, in the source's order
      if !tr.Answered? || !cr.Answered? || !ur.Answered? {
        failed := true;  // Promise.all rejects
      } else if !tr.ok {
        failed := true;
      } else if !cr.ok {
        failed := true;
      } else if !ur.ok {
        failed := true;
      } else if tr.body.None? || cr.body.None? || ur.body.None? {
        failed := true;  // a body that is not JSON, or a list that is not an array
      } else if ur.body.value.balance.None? {
        failed := true;  // typeof balance !== 'number'
      }
      if failed {
        error := Some(LoadFailedMessage);
      } else {
        transactions := tr.body.value;
        categories := cr.body.value;
        balance := ur.body.value.balance.value;
        error := None;
      }
      isLoading := false;
    }

    /** The month selector (0 for January). */
    method SelectMonth(month: Month0)
      modifies this`selectedMonth
      ensures selectedMonth == month
    {
      selectedMonth := month;
    }

    method SelectYear(year: int)
      modifies this`selectedYear
      ensures selectedYear == year
    {
      selectedYear := year;
    }

    /** `filteredTransactions` of the current state. */
    function Visible(): (r: seq<Transaction>)
      reads this
      ensures forall t :: t in r <==> t in transactions && Aggregation.InPeriod(t, selectedMonth, selectedYear)
    {
      Aggregation.FilteredTransactions(transactions, selectedMonth, selectedYear)
    }

    /** `monthlyExpenses` and `monthlyRevenue` of the current state. */
    function MonthlyExpenses(): (r: int)
      reads this
      ensures r == Aggregation.SumWhere(transactions, Expense, selectedMonth, selectedYear)
    {
      Aggregation.MonthlyTotal(transactions, Expense, selectedMonth, selectedYear)
    }

    function MonthlyRevenue(): (r: int)
      reads this
      ensures r == Aggregation.SumWhere(transactions, Revenue, selectedMonth, selectedYear)
    {
      Aggregation.MonthlyTotal(transactions, Revenue, selectedMonth, selectedYear)
    }

    /** The pie chart of the current state: one slice per loaded category, each the spend
        over all loaded transactions, not only those of the selected month. */
    function CategoryChart(): (chart: Aggregation.Chart)
      reads this
      ensures |chart.labels| == |categories| && |chart.data| == |categories|
      ensures forall i :: 0 <= i < |categories| ==>
                && chart.labels[i] == categories[i].name
                && chart.data[i] == Aggregation.ExpenseSum(transactions, categories[i].name)
    {
      Aggregation.ExpenseDataByCategory(transactions, categories)
    }

    /** The category grid of the current state, again over all loaded transactions. */
    function Cards(): (cards: seq<Aggregation.Card>)
      reads this
      ensures |cards| == |categories|
      ensures forall i :: 0 <= i < |categories| ==>
                && cards[i].category == categories[i]
                && cards[i].spend == Aggregation.ExpenseSum(transactions, categories[i].name)
                && cards[i].meter ==
                   Aggregation.BudgetMeter(Aggregation.ExpenseSum(transactions, categories[i].name), categories[i].budget)
    {
      Aggregation.CategoryCards(transactions, categories)
    }

    /** `handleLogout`. */
    method Logout(store: SessionStore)
      modifies store
      ensures store.Stored() == Cleared && store.lastNavigation == Some(LoginRoute)
    {
      store.Clear();
      store.Navigate(LoginRoute);
    }
  }
}
