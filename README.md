# City game: verified model of the game state

This project models the game-state classes of a small tkinter city-simulation
game (`main.py`) and proves what each of their operations does:

- **ProceduralCity**: a `height x width` grid of zone codes (0 empty,
  1 residential, 2 commercial, 3 industrial), indexed by row `y` and column
  `x`. It also keeps the list of `(x, y, building_type)` placement records.
  Modelled as a class over an `array2<int>` and a `seq` of records.
- **AdvancedResourceManager**: money, power, water and food amounts, a
  capacity table that nothing reads, random collection, and a check that
  warns about negative amounts.
- **EconomyManager**: fixed income (100) and expense (50) rates and their
  running totals. The balance is income total minus expense total.
- **HappinessManager**: one unbounded happiness value with a warning
  below 50.
- **CrisisEvent**: no active event, or one of "Natural Disaster",
  "Economic Downturn" and "Public Protest".
- **CityCustomization**: three counters (parks, public transport, education)
  that only go up by one.
- **TransportationManager**: an ordered list of route names. Removal deletes
  the first occurrence, as Python's `list.remove` does.
- **CityGame**: starts a new game with every component at its initial values.
  Loading either replaces every component (with `None` for any that did not
  exist when the game was saved) or, when no save exists, changes nothing.
- **process_action**: the free-text command box's pure map from a
  one-letter command, in either case, to a canned reply.

Each class whose fields Python updates in place is a Dafny `class`. Its
methods have `modifies` clauses and state the whole new state in terms of the
old one. Randomness enters as parameters whose `requires` give the drawn
range:
- `random.choice([0, 1, 2, 3])` per cell is `draws[i][j]`;
- `random.randint(a, b)` per resource is a draw in `a..b`;
- `random.choice(events)` is an index below 3.

Messages printed to tell outcomes apart are returned as values:
- `AddBuilding` returns `Added`, `Occupied` or `InvalidCoordinates`;
- `RemoveRoute` returns whether it removed a route;
- `ResolveEvent` returns the event it resolved;
- `CheckResources` returns the names it would warn about;
- `CheckHappiness` returns whether it would warn;
- `LoadGame` returns whether a save was found.

Behaviour of `main.py` a reader might not expect:
- `reset_city` clears the grid but keeps the placement records.
- `generate_random_city` also keeps the placement records.
- A record does not imply that its cell is non-empty. Reset leaves records
  over empty cells. `add_building(x, y, 0)` records a building but leaves the
  cell empty, so the same cell can be recorded twice. The invariant the model
  does keep is that every record's coordinates are inside the grid.
- Route names are not unique: `add_route` appends duplicates.
- Capacities are never enforced.

## Model

| member | source | states |
|---|---|---|
| City.ProceduralCity.constructor | main.py:16-20 | the grid has the given shape, every cell is empty, and there are no records |
| City.ProceduralCity.GenerateRandomCity | main.py:22-26 | every cell holds its drawn zone code, so every cell is in 0..3; the shape and the records are unchanged |
| City.ProceduralCity.ResetCity | main.py:34-35 | a fresh grid of the same shape with every cell empty; the records are unchanged |
| City.ProceduralCity.AddBuilding | main.py:38-48 | out-of-bounds coordinates, or a non-empty cell, reject the placement and leave grid and records unchanged; otherwise the cell gets the type and exactly one record `(x, y, type)` is appended; no other cell changes |
| Resources.AdvancedResourceManager.constructor | main.py:52-64 | amounts start at 1000/100/100/100 and capacities at 5000/500/500/500 |
| Resources.AdvancedResourceManager.CollectResources | main.py:66-71 | each amount rises by its draw: money 50..150, power 5..15, water 10..30, food 15..25; capacities are unchanged; non-negative amounts stay non-negative |
| Resources.AdvancedResourceManager.CheckResources | main.py:74-78 | returns, in dictionary order, exactly the resources whose amount is negative |
| Resources.Warnings | main.py:76-78 | the names warned about, in visiting order: at most one per visited name, each with a negative amount |
| Resources.WarningsExactlyNegative | main.py:76-78 | a name is warned about iff it is visited and its amount is below 0 |
| Resources.NoWarningsWhenNonNegative | main.py:74-78 | with no negative amount among the visited names the check warns about nothing |
| Resources.NoWarningAfterCollection | main.py:52-78 | a newly constructed manager that then collects once warns about nothing: the `amount < 0` test cannot fire |
| Economy.EconomyManager.constructor | main.py:87-91 | both totals start at 0, with no income or expense calls counted |
| Economy.EconomyManager.CalculateIncome | main.py:93-96 | the income total rises by 100; the expense total is unchanged |
| Economy.EconomyManager.CalculateExpenses | main.py:98-101 | the expense total rises by 50; the income total is unchanged |
| Economy.EconomyManager.BalanceBudget | main.py:103-106 | after N income and M expense calls from a fresh manager it returns 100·N − 50·M and changes nothing |
| Happiness.HappinessManager.constructor | main.py:110-111 | happiness starts at 100 |
| Happiness.HappinessManager.IncreaseHappiness | main.py:114-116 | happiness rises by the amount, with no ceiling |
| Happiness.HappinessManager.DecreaseHappiness | main.py:118-120 | happiness falls by the amount, with no floor |
| Happiness.HappinessManager.CheckHappiness | main.py:122-124 | the low-happiness warning fires iff happiness is below 50 |
| Happiness.IncreaseThenDecrease | main.py:114-120 | raising and then lowering by the same amount restores happiness |
| Crisis.CrisisEvent.constructor | main.py:131-133 | no event is active |
| Crisis.CrisisEvent.TriggerEvent | main.py:135-137 | the drawn catalogue entry becomes the active event, replacing any earlier one; the active event is in the catalogue |
| Crisis.CrisisEvent.ResolveEvent | main.py:139-141 | from any state, including no event, no event is active afterwards; the resolved event is returned |
| Customization.CityCustomization.constructor | main.py:145-150 | all three counters start at 0 |
| Customization.CityCustomization.AddPark | main.py:152-154 | the parks counter rises by one and nothing else changes |
| Customization.CityCustomization.ImproveTransport | main.py:156-158 | the public-transport counter rises by one and nothing else changes |
| Customization.CityCustomization.EnhanceEducation | main.py:160-162 | the education counter rises by one and nothing else changes |
| Transportation.RemoveFirst | main.py:175 | reference for `list.remove`: the list without the first occurrence of the name; at most one element goes |
| Transportation.FirstIndex | main.py:175 | the index `list.remove` deletes holds the name, and no earlier index does |
| Transportation.RemoveFirstSplices | main.py:175 | removing a present name splices out exactly its first occurrence |
| Transportation.RemoveFirstAbsent | main.py:173-175 | removing an absent name leaves the list as it was |
| Transportation.RemoveFirstOneCopy | main.py:175 | removing a present name takes away one copy of it, shortens the list by one and keeps every other element |
| Transportation.AddThenRemove | main.py:169-175 | add then remove restores the list iff the name was absent; otherwise the earlier copy goes and the new one stays at the end |
| Transportation.TransportationManager.constructor | main.py:166-167 | the route list starts empty |
| Transportation.TransportationManager.AddRoute | main.py:169-171 | the name is appended at the end, duplicates included |
| Transportation.TransportationManager.RemoveRoute | main.py:173-176 | the first occurrence of the name is deleted if present, otherwise nothing changes; reports whether it was present |
| Game.CityGame.constructor | main.py:185-193 | no component exists before a game is started or loaded |
| Game.NewRandomCity | main.py:197-198 | a fresh 10 x 10 city holding the drawn zone codes and no records |
| Game.CityGame.StartNewGame | main.py:195-204 | every component is fresh and at its initial value: the drawn 10 x 10 city with no records, initial resources and capacities, zero economy totals, happiness 100, no crisis, zero customizations, no routes |
| Game.CityGame.NewComponents | main.py:199-204 | the six components built after the city are fresh and at their initial values, and the city is untouched |
| Game.CityGame.LoadGame | main.py:207-220 | with no save found, every component is left as it was; otherwise every component is replaced by the saved one, `None` included |
| Actions.ProcessAction | main.py:321-330 | looks up the lower-cased action in the six-entry reply table, defaulting to "Invalid action. Try again."; the reply is always one of those seven strings, and only a one-character action is recognised |
| Actions.ProcessActionRecognises | main.py:319-330 | an action gets a reply other than "Invalid action. Try again." iff it is one of the letters p, z, s, r, c, q in either case |
| Actions.ProcessActionReply | main.py:321-330 | each command letter, in either case, gets its own canned reply |
| Actions.ProcessActionIgnoresCase | main.py:330 | the reply to an action equals the reply to its lower-cased form |

## Left out

- The tkinter interface (`CityGameUI` widgets, button handlers, `update_status`, `mainloop`). It is presentation only. Its handlers call only the modelled methods, `save_game`, and the console printers listed below.
- `save_game` and the pickle format. Python serialises the whole object graph by value to a file, and that format has no structure to state properties about.
- Game.CityGame.LoadGame: only the caught failures (missing or empty file) and a whole successful load are modelled. Other errors propagate out of `load_game`. A dictionary missing a key raises part-way through, after some components have already been replaced.
- Console output (`print`, `display_city`, `print_resources`, `print_happiness`, `print_routes`, `display_status`). Where a message tells outcomes apart, the method returns that outcome instead.
- The random-number generator. Only the ranges and catalogue membership of its draws are modelled, not their distribution.
- `happiness_events`. The list is never used.
- Capacity enforcement. `resource_capacity` is stored and never read, so the model keeps it unchanged and enforces nothing.
- City.ProceduralCity.constructor: width and height are natural numbers. The game only builds a 10 x 10 city. With negative Python sizes the grid would be empty and every placement rejected, which is also what a zero size gives here.
- City.ProceduralCity.AddBuilding: coordinates are integers. A non-integer coordinate that passes the bounds test makes Python raise an error on indexing, and that is not modelled.
- Actions.ProcessActionRecognises: letter case is folded for ASCII letters only. Python's `str.lower` also folds other Unicode letters.
