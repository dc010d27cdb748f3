/**
 * AdvancedResourceManager: four named amounts (money, power, water, food),
 * a capacity per resource that nothing reads, a random collection step and
 * a "running low" check.
 */
module Resources {

  const InitialMoney: int := 1000
  const InitialPower: int := 100
  const InitialWater: int := 100
  const InitialFood: int := 100

  /** The resource names in the dictionary's insertion (iteration) order. */
  const ResourceNames: seq<string> := ["money", "power", "water", "food"]

  const InitialResources: map<string, int> :=
    map["money" := InitialMoney, "power" := InitialPower, "water" := InitialWater, "food" := InitialFood]

  const InitialCapacity: map<string, int> :=
    map["money" := 5000, "power" := 500, "water" := 500, "food" := 500]

  /** Every name of `names` has an amount. */
  predicate Covers(names: seq<string>, amounts: map<string, int>) {
    forall k :: 0 <= k < |names| ==> names[k] in amounts
  }

  /** The names a warning is printed for, in the order they are visited. */
  function Warnings(names: seq<string>, amounts: map<string, int>): (low: seq<string>)
    requires Covers(names, amounts)
    ensures |low| <= |names|
    ensures forall k :: 0 <= k < |low| ==> low[k] in amounts && amounts[low[k]] < 0
  {
    if |names| == 0 then []
    else
      var last := names[|names| - 1];
      Warnings(names[..|names| - 1], amounts) + (if amounts[last] < 0 then [last] else [])
  }

  /** A warning is printed for a name exactly when it is visited and its amount is negative. */
  lemma {:induction false} WarningsExactlyNegative(names: seq<string>, amounts: map<string, int>, r: string)
    requires Covers(names, amounts)
    ensures r in Warnings(names, amounts) <==> r in names && amounts[r] < 0
  {
    if |names| > 0 {
      var init := names[..|names| - 1];
      WarningsExactlyNegative(init, amounts, r);
      assert names == init + [names[|names| - 1]];
    }
  }

  /** With no negative amount there is nothing to warn about. */
  lemma {:induction false} NoWarningsWhenNonNegative(names: seq<string>, amounts: map<string, int>)
    requires Covers(names, amounts)
    requires forall k :: 0 <= k < |names| ==> amounts[names[k]] >= 0
    ensures Warnings(names, amounts) == []
  {
    if |names| > 0 {
      NoWarningsWhenNonNegative(names[..|names| - 1], amounts);
    }
  }

  class AdvancedResourceManager {
    var resources: map<string, int>
    var resourceCapacity: map<string, int>

    ghost predicate Valid()
      reads this
    {
      resources.Keys == {"money", "power", "water", "food"}
    }

    /** No amount is negative. */
    ghost predicate NonNegative()
      reads this
      requires Valid()
    {
      forall r :: r in resources ==> resources[r] >= 0
    }

    constructor ()
      ensures Valid() && NonNegative()
      ensures resources == InitialResources
      ensures resourceCapacity == InitialCapacity
    {
      resources := InitialResources;
      resourceCapacity := InitialCapacity;
    }

    /**
     * Adds one `random.randint` draw to each amount; each draw lies in its
     * inclusive range. The capacities are not consulted.
     */
    method CollectResources(moneyDraw: int, powerDraw: int, waterDraw: int, foodDraw: int)
      requires Valid()
      requires 50 <= moneyDraw <= 150 && 5 <= powerDraw <= 15
      requires 10 <= waterDraw <= 30 && 15 <= foodDraw <= 25
      modifies this
      ensures Valid()
      ensures resources == old(resources)
        ["money" := old(resources["money"]) + moneyDraw]
        ["power" := old(resources["power"]) + powerDraw]
        ["water" := old(resources["water"]) + waterDraw]
        ["food" := old(resources["food"]) + foodDraw]
      ensures old(resources["money"]) + 50 <= resources["money"] <= old(resources["money"]) + 150
      ensures old(resources["power"]) + 5 <= resources["power"] <= old(resources["power"]) + 15
      ensures old(resources["water"]) + 10 <= resources["water"] <= old(resources["water"]) + 30
      ensures old(resources["food"]) + 15 <= resources["food"] <= old(resources["food"]) + 25
      ensures old(NonNegative()) ==> NonNegative()
      ensures resourceCapacity == old(resourceCapacity)
    {
      resources := resources["money" := resources["money"] + moneyDraw];
      resources := resources["power" := resources["power"] + powerDraw];
      resources := resources["water" := resources["water"] + waterDraw];
      resources := resources["food" := resources["food"] + foodDraw];
    }

    /** Visits the resources in order and returns the names a warning is printed for. */
    method CheckResources() returns (low: seq<string>)
      requires Valid()
      ensures low == Warnings(ResourceNames, resources)
      ensures forall r :: r in low <==> r in resources && resources[r] < 0
    {
      low := [];
      var i := 0;
      while i < |ResourceNames|
        invariant 0 <= i <= |ResourceNames|
        invariant low == Warnings(ResourceNames[..i], resources)
      {
        var name := ResourceNames[i];
        assert ResourceNames[..i + 1][..i] == ResourceNames[..i];
        if resources[name] < 0 {
          low := low + [name];
        }
        i := i + 1;
      }
      assert ResourceNames[..i] == ResourceNames;
      forall r
        ensures r in low <==> r in resources && resources[r] < 0
      {
        WarningsExactlyNegative(ResourceNames, resources, r);
      }
    }
  }

  /**
   * A ledger that was only constructed and collected into never warns: the
   * check's `amount < 0` cannot hold.
   */
  method NoWarningAfterCollection(moneyDraw: int, powerDraw: int, waterDraw: int, foodDraw: int)
    returns (low: seq<string>)
    requires 50 <= moneyDraw <= 150 && 5 <= powerDraw <= 15
    requires 10 <= waterDraw <= 30 && 15 <= foodDraw <= 25
    ensures low == []
  {
    var manager := new AdvancedResourceManager();
    manager.CollectResources(moneyDraw, powerDraw, waterDraw, foodDraw);
    low := manager.CheckResources();
    NoWarningsWhenNonNegative(ResourceNames, manager.resources);
  }
}
