/**
 * ProceduralCity: a height x width grid of zone codes, indexed
 * `city_layout[y][x]`, and the list of placement records that
 * `add_building` appends to.
 */
module City {

  /** Zone codes: 0 empty, 1 residential, 2 commercial, 3 industrial. */
  const Empty: int := 0
  const Residential: int := 1
  const Commercial: int := 2
  const Industrial: int := 3

  /** The codes `random.choice([0, 1, 2, 3])` draws from. */
  predicate IsZone(code: int) {
    Empty <= code <= Industrial
  }

  /** One placement record `(x, y, building_type)`. */
  datatype Building = Building(x: int, y: int, buildingType: int)

  /** Which of the three messages `add_building` prints. */
  datatype Placement = Added | Occupied | InvalidCoordinates

  class ProceduralCity {
    const width: nat
    const height: nat
    /** Row y, column x is `cityLayout[y, x]`. */
    var cityLayout: array2<int>
    var buildings: seq<Building>

    /**
     * The grid has the declared shape, and every record names a cell
     * inside it (records are appended only after the bounds test).
     * Nothing ties a record to the current contents of its cell.
     */
    ghost predicate Valid()
      reads this
    {
      && cityLayout.Length0 == height
      && cityLayout.Length1 == width
      && forall b :: b in buildings ==> 0 <= b.x < width && 0 <= b.y < height
    }

    /** Every cell of the grid is Empty. */
    ghost predicate AllEmpty()
      reads this, cityLayout
    {
      forall i, j :: 0 <= i < cityLayout.Length0 && 0 <= j < cityLayout.Length1 ==>
        cityLayout[i, j] == Empty
    }

    constructor (width: nat, height: nat)
      ensures this.width == width && this.height == height
      ensures Valid() && fresh(cityLayout) && AllEmpty()
      ensures buildings == []
    {
      this.width := width;
      this.height := height;
      cityLayout := new int[height, width]((i, j) => Empty);
      buildings := [];
    }

    /**
     * Assigns every cell, row by row, the zone code drawn for it;
     * `draws[i][j]` stands for the `random.choice` made for row i, column j.
     */
    method GenerateRandomCity(draws: seq<seq<int>>)
      requires Valid()
      requires |draws| == height
      requires forall i :: 0 <= i < height ==> |draws[i]| == width
      requires forall i, j :: 0 <= i < height && 0 <= j < width ==> IsZone(draws[i][j])
      modifies cityLayout
      ensures Valid()
      ensures forall i, j :: 0 <= i < height && 0 <= j < width ==> cityLayout[i, j] == draws[i][j]
      ensures forall i, j :: 0 <= i < height && 0 <= j < width ==> IsZone(cityLayout[i, j])
    {
      var i := 0;
      while i < height
        invariant 0 <= i <= height
        invariant forall r, c :: 0 <= r < i && 0 <= c < width ==> cityLayout[r, c] == draws[r][c]
      {
        var j := 0;
        while j < width
          invariant 0 <= j <= width
          invariant forall r, c :: 0 <= r < i && 0 <= c < width ==> cityLayout[r, c] == draws[r][c]
          invariant forall c :: 0 <= c < j ==> cityLayout[i, c] == draws[i][c]
        {
          cityLayout[i, j] := draws[i][j];
          j := j + 1;
        }
        i := i + 1;
      }
    }

    /** Replaces the grid with a fresh all-Empty one of the same shape; the records stay. */
    method ResetCity()
      requires Valid()
      modifies this
      ensures Valid() && fresh(cityLayout) && AllEmpty()
      ensures buildings == old(buildings)
    {
      cityLayout := new int[height, width]((i, j) => Empty);
    }

    /**
     * Places `buildingType` (not validated) at column x, row y when the
     * coordinates are inside the grid and the cell is Empty, and records it.
     */
    method AddBuilding(x: int, y: int, buildingType: int) returns (outcome: Placement)
      requires Valid()
      modifies this, cityLayout
      ensures Valid() && cityLayout == old(cityLayout)
      ensures outcome == InvalidCoordinates <==> !(0 <= x < width && 0 <= y < height)
      ensures outcome == Occupied <==> 0 <= x < width && 0 <= y < height && old(cityLayout[y, x]) != Empty
      ensures outcome == Added ==>
        cityLayout[y, x] == buildingType &&
        buildings == old(buildings) + [Building(x, y, buildingType)]
      ensures outcome != Added ==> buildings == old(buildings)
      ensures forall i, j :: 0 <= i < height && 0 <= j < width && !(outcome == Added && i == y && j == x) ==>
        cityLayout[i, j] == old(cityLayout[i, j])
    {
      if 0 <= x < width && 0 <= y < height {
        if cityLayout[y, x] == Empty {
          cityLayout[y, x] := buildingType;
          buildings := buildings + [Building(x, y, buildingType)];
          outcome := Added;
        } else {
          outcome := Occupied;
        }
      } else {
        outcome := InvalidCoordinates;
      }
    }
  }
}
