/** CityCustomization: three improvement counters that only ever go up by one. */
module Customization {

  const Parks: string := "parks"
  const PublicTransport: string := "public_transport"
  const Education: string := "education"

  const InitialCustomizations: map<string, nat> := map[Parks := 0, PublicTransport := 0, Education := 0]

  class CityCustomization {
    var customizations: map<string, nat>

    ghost predicate Valid()
      reads this
    {
      customizations.Keys == {Parks, PublicTransport, Education}
    }

    constructor ()
      ensures Valid()
      ensures customizations == InitialCustomizations
    {
      customizations := InitialCustomizations;
    }

    method AddPark()
      requires Valid()
      modifies this
      ensures Valid()
      ensures customizations == old(customizations)[Parks := old(customizations[Parks]) + 1]
    {
      customizations := customizations[Parks := customizations[Parks] + 1];
    }

    method ImproveTransport()
      requires Valid()
      modifies this
      ensures Valid()
      ensures customizations == old(customizations)[PublicTransport := old(customizations[PublicTransport]) + 1]
    {
      customizations := customizations[PublicTransport := customizations[PublicTransport] + 1];
    }

    method EnhanceEducation()
      requires Valid()
      modifies this
      ensures Valid()
      ensures customizations == old(customizations)[Education := old(customizations[Education]) + 1]
    {
      customizations := customizations[Education := customizations[Education] + 1];
    }
  }
}
