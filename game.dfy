/**
 * CityGame: owns one of each component. A new game builds every component
 * afresh; loading replaces them all, or changes nothing when no save exists.
 */
module Game {
  import opened Options
  import opened City
  import opened Resources
  import opened Economy
  import opened Happiness
  import opened Crisis
  import opened Customization
  import opened Transportation

  const CityWidth: nat := 10
  const CityHeight: nat := 10

  /**
   * The components a saved game holds, as `pickle.load` hands them back;
   * each is null when the game was saved before one was started.
   */
  datatype SavedGame = SavedGame(
    city: ProceduralCity?,
    resources: AdvancedResourceManager?,
    economy: EconomyManager?,
    happiness: HappinessManager?,
    crisisEvent: CrisisEvent?,
    customization: CityCustomization?,
    transportationManager: TransportationManager?)

  /** `ProceduralCity(CITY_WIDTH, CITY_HEIGHT)` followed by `generate_random_city()`. */
  method NewRandomCity(draws: seq<seq<int>>) returns (c: ProceduralCity)
    requires |draws| == CityHeight
    requires forall i :: 0 <= i < CityHeight ==> |draws[i]| == CityWidth
    requires forall i, j :: 0 <= i < CityHeight && 0 <= j < CityWidth ==> IsZone(draws[i][j])
    ensures fresh(c) && fresh(c.cityLayout) && c.Valid()
    ensures c.width == CityWidth && c.height == CityHeight && c.buildings == []
    ensures forall i, j :: 0 <= i < CityHeight && 0 <= j < CityWidth ==> c.cityLayout[i, j] == draws[i][j]
  {
    c := new ProceduralCity(CityWidth, CityHeight);
    c.GenerateRandomCity(draws);
  }

  class CityGame {
    var city: ProceduralCity?
    var resources: AdvancedResourceManager?
    var economy: EconomyManager?
    var happiness: HappinessManager?
    var crisisEvent: CrisisEvent?
    var customization: CityCustomization?
    var transportationManager: TransportationManager?
    const gameDataFile: string := "game_data.pkl"

    /** Before a game is started or loaded there are no components. */
    constructor ()
      ensures city == null && resources == null && economy == null && happiness == null
      ensures crisisEvent == null && customization == null && transportationManager == null
    {
      city, resources, economy, happiness := null, null, null, null;
      crisisEvent, customization, transportationManager := null, null, null;
    }

    /**
     * Builds a 10 x 10 city filled with the drawn zone codes and every other
     * component at its initial values.
     */
    method StartNewGame(draws: seq<seq<int>>)
      requires |draws| == CityHeight
      requires forall i :: 0 <= i < CityHeight ==> |draws[i]| == CityWidth
      requires forall i, j :: 0 <= i < CityHeight && 0 <= j < CityWidth ==> IsZone(draws[i][j])
      modifies this
      ensures city != null && fresh(city) && fresh(city.cityLayout) && city.Valid()
      ensures city.width == CityWidth && city.height == CityHeight && city.buildings == []
      ensures forall i, j :: 0 <= i < CityHeight && 0 <= j < CityWidth ==> city.cityLayout[i, j] == draws[i][j]
      ensures resources != null && fresh(resources) && resources.Valid()
      ensures resources.resources == InitialResources && resources.resourceCapacity == InitialCapacity
      ensures economy != null && fresh(economy) && economy.Valid()
      ensures economy.totalIncome == 0 && economy.totalExpenses == 0
      ensures economy.incomeCalls == 0 && economy.expenseCalls == 0
      ensures happiness != null && fresh(happiness) && happiness.happiness == InitialHappiness
      ensures crisisEvent != null && fresh(crisisEvent) && crisisEvent.currentEvent == None
      ensures customization != null && fresh(customization) && customization.Valid()
      ensures customization.customizations == InitialCustomizations
      ensures transportationManager != null && fresh(transportationManager)
      ensures transportationManager.routes == []
    {
      city := NewRandomCity(draws);
      NewComponents();
    }

    /** The components `start_new_game` builds after the city, each at its initial values. */
    method NewComponents()
      modifies this
      ensures city == old(city)
      ensures resources != null && fresh(resources) && resources.Valid()
      ensures resources.resources == InitialResources && resources.resourceCapacity == InitialCapacity
      ensures economy != null && fresh(economy) && economy.Valid()
      ensures economy.totalIncome == 0 && economy.totalExpenses == 0
      ensures economy.incomeCalls == 0 && economy.expenseCalls == 0
      ensures happiness != null && fresh(happiness) && happiness.happiness == InitialHappiness
      ensures crisisEvent != null && fresh(crisisEvent) && crisisEvent.currentEvent == None
      ensures customization != null && fresh(customization) && customization.Valid()
      ensures customization.customizations == InitialCustomizations
      ensures transportationManager != null && fresh(transportationManager)
      ensures transportationManager.routes == []
    {
      happiness := new HappinessManager();
      crisisEvent := new CrisisEvent();
      transportationManager := new TransportationManager();
      economy := new EconomyManager();
      customization := new CityCustomization();
      resources := new AdvancedResourceManager();
    }

    /**
     * `saved` is None when the save file is missing or empty; then nothing
     * changes. Otherwise every component is replaced by the saved one.
     */
    method LoadGame(saved: Option<SavedGame>) returns (loaded: bool)
      modifies this
      ensures loaded <==> saved.Some?
      ensures saved.None? ==>
        && city == old(city) && resources == old(resources) && economy == old(economy)
        && happiness == old(happiness) && crisisEvent == old(crisisEvent)
        && customization == old(customization)
        && transportationManager == old(transportationManager)
      ensures saved.Some? ==>
        && city == saved.value.city && resources == saved.value.resources
        && economy == saved.value.economy && happiness == saved.value.happiness
        && crisisEvent == saved.value.crisisEvent && customization == saved.value.customization
        && transportationManager == saved.value.transportationManager
    {
      match saved
      case None =>
        loaded := false;
      case Some(g) =>
        city := g.city;
        resources := g.resources;
        economy := g.economy;
        happiness := g.happiness;
        crisisEvent := g.crisisEvent;
        customization := g.customization;
        transportationManager := g.transportationManager;
        loaded := true;
    }
  }
}
