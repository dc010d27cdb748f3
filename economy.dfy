/**
 * EconomyManager: fixed per-call income and expense rates and the running
 * totals they accumulate into.
 */
module Economy {

  class EconomyManager {
    const income: int := 100
    const expenses: int := 50
    var totalIncome: int
    var totalExpenses: int
    /** How many times `calculate_income` and `calculate_expenses` have run. */
    ghost var incomeCalls: nat
    ghost var expenseCalls: nat

    /** Each total is its rate times the number of calls that added to it. */
    ghost predicate Valid()
      reads this
    {
      totalIncome == income * incomeCalls && totalExpenses == expenses * expenseCalls
    }

    constructor ()
      ensures Valid() && incomeCalls == 0 && expenseCalls == 0
      ensures totalIncome == 0 && totalExpenses == 0
    {
      totalIncome, totalExpenses := 0, 0;
      incomeCalls, expenseCalls := 0, 0;
    }

    method CalculateIncome()
      requires Valid()
      modifies this
      ensures Valid()
      ensures totalIncome == old(totalIncome) + income && totalExpenses == old(totalExpenses)
      ensures incomeCalls == old(incomeCalls) + 1 && expenseCalls == old(expenseCalls)
    {
      totalIncome := totalIncome + income;
      incomeCalls := incomeCalls + 1;
    }

    method CalculateExpenses()
      requires Valid()
      modifies this
      ensures Valid()
      ensures totalExpenses == old(totalExpenses) + expenses && totalIncome == old(totalIncome)
      ensures expenseCalls == old(expenseCalls) + 1 && incomeCalls == old(incomeCalls)
    {
      totalExpenses := totalExpenses + expenses;
      expenseCalls := expenseCalls + 1;
    }

    /**
     * After N income and M expense calls from a fresh manager the balance
     * is 100 * N - 50 * M; nothing is changed.
     */
    method BalanceBudget() returns (balance: int)
      requires Valid()
      ensures balance == 100 * incomeCalls - 50 * expenseCalls
    {
      balance := totalIncome - totalExpenses;
    }
  }
}
