/**
 * A stored hotel and the values of the hotel form after schema parsing.
 * The form's optional fields become `Option` values, and its optional amenity
 * checkboxes a map in which a missing key is a checkbox left undefined.
 */
module Hotels {
  import opened Wrappers

  /** The twelve amenity checkboxes of the hotel form (the source spells the pool key `awimmingPool`). */
  datatype Amenity = Gym | Spa | Bar | Laundry | Restaurant | Shopping
                   | FreeParking | BikeRental | FreeWifi | MovieNights | SwimmingPool | CoffeeShop

  const AllAmenities: set<Amenity> :=
    {Gym, Spa, Bar, Laundry, Restaurant, Shopping, FreeParking, BikeRental, FreeWifi, MovieNights, SwimmingPool, CoffeeShop}

  /** Every checkbox is among the twelve. */
  lemma EveryAmenityListed(a: Amenity)
    ensures a in AllAmenities
  {
    match a {
      case Gym => case Spa => case Bar => case Laundry => case Restaurant => case Shopping =>
      case FreeParking => case BikeRental => case FreeWifi => case MovieNights => case SwimmingPool => case CoffeeShop =>
    }
  }

  /** A hotel record; `amenities` holds the flags that are true. */
  datatype Hotel = Hotel(id: string, userId: string, title: string, description: string, image: string,
                         country: string, state: string, city: string, locationDescription: string,
                         amenities: set<Amenity>)

  /** What the hotel form submits: the fields of its schema. */
  datatype HotelValues = HotelValues(title: string, description: string, image: string, country: string,
                                     state: Option<string>, city: Option<string>,
                                     locationDescription: string, amenities: map<Amenity, bool>)
}
