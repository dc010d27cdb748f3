/** HappinessManager: one unbounded happiness value and its low-value warning. */
module Happiness {

  const InitialHappiness: int := 100
  const LowHappiness: int := 50

  class HappinessManager {
    var happiness: int

    constructor ()
      ensures happiness == InitialHappiness
    {
      happiness := InitialHappiness;
    }

    /** No ceiling: the amount is added as it is, negative amounts included. */
    method IncreaseHappiness(amount: int)
      modifies this
      ensures happiness == old(happiness) + amount
    {
      happiness := happiness + amount;
    }

    /** No floor: the amount is subtracted as it is. */
    method DecreaseHappiness(amount: int)
      modifies this
      ensures happiness == old(happiness) - amount
    {
      happiness := happiness - amount;
    }

    /** Whether the low-happiness warning is printed. */
    method CheckHappiness() returns (warning: bool)
      ensures warning <==> happiness < LowHappiness
    {
      warning := happiness < LowHappiness;
    }
  }

  /** Raising and then lowering by the same amount gives back the starting value. */
  method IncreaseThenDecrease(manager: HappinessManager, amount: int)
    modifies manager
    ensures manager.happiness == old(manager.happiness)
  {
    manager.IncreaseHappiness(amount);
    manager.DecreaseHappiness(amount);
  }
}
