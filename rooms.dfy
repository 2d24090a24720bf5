/**
 * A stored room and the values of the room form after schema parsing.
 * Numbers are already coerced; the optional breakfast price is an `Option`,
 * and the optional amenity checkboxes a map in which a missing key is a
 * checkbox left undefined.
 */
module Rooms {
  import opened Wrappers

  /** The ten amenity checkboxes of the room form. */
  datatype Amenity = RoomService | TV | Balcony | FreeWifi | CityView | OceanView
                   | ForestView | MountainView | AirCondition | SoundProofed

  const AllAmenities: set<Amenity> :=
    {RoomService, TV, Balcony, FreeWifi, CityView, OceanView, ForestView, MountainView, AirCondition, SoundProofed}

  /** Every checkbox is among the ten. */
  lemma EveryAmenityListed(a: Amenity)
    ensures a in AllAmenities
  {
    match a {
      case RoomService => case TV => case Balcony => case FreeWifi => case CityView =>
      case OceanView => case ForestView => case MountainView => case AirCondition => case SoundProofed =>
    }
  }

  /** A room record of a hotel; `amenities` holds the flags that are true. */
  datatype Room = Room(id: string, hotelId: string, title: string, description: string,
                       bedCount: int, guestCount: int, bathroomCount: int, kingBed: int, queenBed: int,
                       image: string, breakFastPrice: int, roomPrice: int, amenities: set<Amenity>)

  /** What the room form submits: the fields of its schema. */
  datatype RoomValues = RoomValues(title: string, description: string,
                                   bedCount: int, guestCount: int, bathroomCount: int, kingBed: int, queenBed: int,
                                   image: string, breakFastPrice: Option<int>, roomPrice: int,
                                   amenities: map<Amenity, bool>)
}
