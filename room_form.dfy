/**
 * The room create/update form of a hotel: its validation schema, its default
 * values, and the state it keeps while an image is removed and while the form
 * is submitted.  It is given the dialog-toggle callback of whoever opened it.
 */
module RoomForm {
  import opened Wrappers
  import opened Text
  import opened Rooms
  import opened Api
  import Hotels

  /** The schema fields that carry a rule; the breakfast price and the amenity flags are optional and unchecked. */
  datatype Field = Title | Description | BedCount | GuestCount | BathroomCount | KingBed | QueenBed | Image | RoomPrice

  const AllFields: set<Field> :=
    {Title, Description, BedCount, GuestCount, BathroomCount, KingBed, QueenBed, Image, RoomPrice}

  /** The schema's rule for one field fails on the values. */
  predicate Fails(f: Field, v: RoomValues)
  {
    match f
    case Title => |v.title| < 3
    case Description => |v.description| < 10
    case BedCount => v.bedCount < 1
    case GuestCount => v.guestCount < 1
    case BathroomCount => v.bathroomCount < 1
    case KingBed => v.kingBed < 0
    case QueenBed => v.queenBed < 0
    case Image => |v.image| < 1
    case RoomPrice => v.roomPrice < 1
  }

  /** The fields the schema rejects; every field is checked, so all failures are reported together. */
  function Issues(v: RoomValues): (bad: set<Field>)
    ensures Title in bad <==> |v.title| < 3
    ensures Description in bad <==> |v.description| < 10
    ensures BedCount in bad <==> v.bedCount < 1
    ensures GuestCount in bad <==> v.guestCount < 1
    ensures BathroomCount in bad <==> v.bathroomCount < 1
    ensures KingBed in bad <==> v.kingBed < 0
    ensures QueenBed in bad <==> v.queenBed < 0
    ensures Image in bad <==> |v.image| < 1
    ensures RoomPrice in bad <==> v.roomPrice < 1
  {
    set f | f in AllFields && Fails(f, v)
  }

  /** The schema accepts the values: no field is rejected. */
  function Accepts(v: RoomValues): (ok: bool)
    ensures ok <==> |v.title| >= 3 && |v.description| >= 10
                    && v.bedCount >= 1 && v.guestCount >= 1 && v.bathroomCount >= 1
                    && v.kingBed >= 0 && v.queenBed >= 0
                    && |v.image| >= 1 && v.roomPrice >= 1
  {
    var bad := Issues(v);
    assert bad != {} <== Title in bad || Description in bad || BedCount in bad || GuestCount in bad
                         || BathroomCount in bad || KingBed in bad || QueenBed in bad || Image in bad || RoomPrice in bad;
    bad == {}
  }

  /** The breakfast price and the amenity flags never change what the schema reports. */
  lemma OptionalFieldsIgnored(v: RoomValues, breakFastPrice: Option<int>, amenities: map<Amenity, bool>)
    ensures Issues(v.(breakFastPrice := breakFastPrice, amenities := amenities)) == Issues(v)
    ensures Accepts(v.(breakFastPrice := breakFastPrice, amenities := amenities)) == Accepts(v)
  {
  }

  /** The values of a new room: empty strings, zero counts and prices, every flag false. */
  const NewRoomValues: RoomValues :=
    RoomValues("", "", 0, 0, 0, 0, 0, "", Some(0), 0, map a | a in AllAmenities :: false)

  /** The values the form starts from for an existing room. */
  function ValuesOf(r: Room): (v: RoomValues)
    ensures v.image == r.image
  {
    RoomValues(r.title, r.description, r.bedCount, r.guestCount, r.bathroomCount, r.kingBed, r.queenBed,
               r.image, Some(r.breakFastPrice), r.roomPrice, map a | a in AllAmenities :: a in r.amenities)
  }

  /** `defaultValues: room || {...}`. */
  function Defaults(room: Option<Room>): RoomValues
  {
    match room
    case Some(r) => ValuesOf(r)
    case None => NewRoomValues
  }

  /** A new room's form is rejected on every field whose minimum is above zero, and only on those. */
  lemma NewDraftRejected()
    ensures Issues(Defaults(None)) == {Title, Description, BedCount, GuestCount, BathroomCount, Image, RoomPrice}
    ensures !Accepts(Defaults(None))
  {
  }

  /** The amenities whose checkbox is ticked. */
  function Ticked(m: map<Amenity, bool>): (s: set<Amenity>)
    ensures forall a :: a in s <==> a in m && m[a]
  {
    set a | a in m && m[a]
  }

  /** The ticked boxes of an existing room's form are exactly the room's amenities. */
  lemma TickedOfExistingRoom(r: Room)
    ensures Ticked(Defaults(Some(r)).amenities) == r.amenities
  {
    var m := Defaults(Some(r)).amenities;
    forall a | a in r.amenities
      ensures a in Ticked(m)
    {
      EveryAmenityListed(a);
    }
  }

  /**
   * An existing room's form loses none of its data: two rooms start the form
   * from the same values exactly when they agree on everything but their id
   * and their hotel.
   */
  lemma DefaultsDetermineRoom(r1: Room, r2: Room)
    ensures Defaults(Some(r1)) == Defaults(Some(r2)) <==> r1.(id := r2.id, hotelId := r2.hotelId) == r2
  {
    if Defaults(Some(r1)) == Defaults(Some(r2)) {
      TickedOfExistingRoom(r1);
      TickedOfExistingRoom(r2);
    }
  }

  /**
   * The request `onSubmit` sends: with a hotel and a room an update of the
   * room, with a hotel only a creation carrying the hotel's id, and without a
   * hotel none.
   */
  function SubmitRequest(hotel: Option<Hotels.Hotel>, room: Option<Room>, values: RoomValues): (r: Option<Request>)
    ensures r.Some? <==> hotel.Some?
    ensures r.Some? ==> r.value.body.RoomBody? && r.value.body.room == values
    ensures r.Some? && room.Some? ==>
              r.value.verb == Patch && r.value.path == "/api/room/" + room.value.id && r.value.body.hotelId == None
    ensures r.Some? && room.None? ==>
              r.value.verb == Post && r.value.path == "/api/room/" && r.value.body.hotelId == Some(hotel.value.id)
  {
    if hotel.Some? && room.Some? then Some(Request(Patch, "/api/room/" + room.value.id, RoomBody(values, None)))
    else if hotel.None? then None
    else Some(Request(Post, "/api/room/", RoomBody(values, Some(hotel.value.id))))
  }

  /** The effects of the submit request's completion. */
  function SettledEffects(hotel: Option<Hotels.Hotel>, room: Option<Room>, outcome: SaveOutcome): seq<Effect>
  {
    match outcome
    case Saved(_) =>
      [Toast(Notice(Success, if hotel.Some? && room.Some? then "Room updated successfully" else "Room created successfully")),
       Refresh, ToggleDialog]
    case Failed =>
      [Toast(Notice(Success, "Someting went wrong!"))]
  }

  /** Everything one submission causes; without a hotel, nothing. */
  function SubmitEffects(hotel: Option<Hotels.Hotel>, room: Option<Room>, values: RoomValues, outcome: SaveOutcome): seq<Effect>
  {
    match SubmitRequest(hotel, room, values)
    case Some(req) => [Send(req)] + SettledEffects(hotel, room, outcome)
    case None => []
  }

  /** A submission sends at most one request, and exactly one when there is a hotel. */
  lemma SubmitSendsOneRequest(hotel: Option<Hotels.Hotel>, room: Option<Room>, values: RoomValues, outcome: SaveOutcome)
    ensures Sends(SubmitEffects(hotel, room, values, outcome))
            == if hotel.Some? then [SubmitRequest(hotel, room, values).value] else []
  {
    var r := SubmitRequest(hotel, room, values);
    if r.Some? {
      var settled := SettledEffects(hotel, room, outcome);
      SendsAppend([Send(r.value)], settled);
      SendsNone(settled);
    }
  }

  /** The dialog toggle is called once after a successful submission and never otherwise. */
  lemma SubmitTogglesOnSuccess(hotel: Option<Hotels.Hotel>, room: Option<Room>, values: RoomValues, outcome: SaveOutcome)
    ensures multiset(SubmitEffects(hotel, room, values, outcome))[ToggleDialog]
            == if hotel.Some? && outcome.Saved? then 1 else 0
  {
  }

  /** The form component's state. */
  class AddRoomForm {
    const hotel: Option<Hotels.Hotel>
    const room: Option<Room>
    var image: Option<string>      // the displayed image; undefined until one is known
    var imageIsDeleting: bool
    var isLoading: bool
    var values: RoomValues         // the form's field values
    var log: seq<Effect>

    /** The image effect keeps the form's image field equal to the image whenever the image is a string. */
    ghost predicate Valid()
      reads this
    {
      image.Some? ==> values.image == image.value
    }

    constructor (hotel: Option<Hotels.Hotel>, room: Option<Room>)
      ensures Valid()
      ensures this.hotel == hotel && this.room == room && values == Defaults(room)
      ensures image == (if room.Some? then Some(room.value.image) else None)
      ensures !imageIsDeleting && !isLoading && log == []
    {
      this.hotel := hotel;
      this.room := room;
      image := if room.Some? then Some(room.value.image) else None;
      imageIsDeleting := false;
      isLoading := false;
      values := Defaults(room);
      log := [];
    }

    /** The user edits the inputs and checkboxes; the image field has no input of its own. */
    method Edit(v: RoomValues)
      requires Valid()
      modifies this
      ensures Valid()
      ensures values == v.(image := old(values.image))
      ensures image == old(image) && imageIsDeleting == old(imageIsDeleting)
      ensures isLoading == old(isLoading) && log == old(log)
    {
      values := v.(image := values.image);
    }

    /** The upload widget finished: the image becomes the uploaded URL, and the image effect copies it into the form. */
    method UploadComplete(url: string)
      requires Valid()
      modifies this
      ensures Valid()
      ensures image == Some(url) && values == old(values).(image := url)
      ensures log == old(log) + [Toast(Notice(Success, "Upload  Completed"))]
      ensures imageIsDeleting == old(imageIsDeleting) && isLoading == old(isLoading)
    {
      image := Some(url);
      values := values.(image := url);
      log := log + [Toast(Notice(Success, "Upload  Completed"))];
    }

    /** The upload widget reported an error. */
    method UploadError(message: string)
      modifies this
      ensures log == old(log) + [Toast(Notice(Destructive, "ERROR! " + message))]
      ensures image == old(image) && values == old(values)
      ensures imageIsDeleting == old(imageIsDeleting) && isLoading == old(isLoading)
    {
      log := log + [Toast(Notice(Destructive, "ERROR! " + message))];
    }

    /** `handleImageDelete` up to the request: the 'deleting' flag is raised and the image's key is sent. */
    method HandleImageDelete(img: string) returns (req: Request)
      modifies this
      ensures imageIsDeleting
      ensures req == ImageDeleteRequest(ImageKey(img))
      ensures log == old(log) + [Send(req)]
      ensures image == old(image) && values == old(values) && isLoading == old(isLoading)
    {
      imageIsDeleting := true;
      req := ImageDeleteRequest(ImageKey(img));
      log := log + [Send(req)];
    }

    /** The delete request's `then`, `catch` and `finally`: the image is cleared only on a confirmed success. */
    method ImageDeleteSettled(resp: DeleteResponse)
      requires Valid()
      modifies this
      ensures Valid()
      ensures !imageIsDeleting
      ensures image == (if resp == Resolved(true) then Some("") else old(image))
      ensures values == (if resp == Resolved(true) then old(values).(image := "") else old(values))
      ensures log == old(log) + ImageRemovalNotices(resp)
      ensures isLoading == old(isLoading)
    {
      if resp == Resolved(true) {
        image := Some("");
        values := values.(image := "");
      }
      log := log + ImageRemovalNotices(resp);
      imageIsDeleting := false;
    }

    /** The remove button, shown only over a displayed image, runs the whole removal. */
    method RemoveImage(resp: DeleteResponse) returns (req: Request)
      requires Valid() && image.Some? && image.value != ""
      modifies this
      ensures Valid()
      ensures req == ImageDeleteRequest(ImageKey(old(image).value))
      ensures !imageIsDeleting
      ensures image == (if resp == Resolved(true) then Some("") else old(image))
      ensures values == (if resp == Resolved(true) then old(values).(image := "") else old(values))
      ensures log == old(log) + [Send(req)] + ImageRemovalNotices(resp)
      ensures isLoading == old(isLoading)
    {
      req := HandleImageDelete(image.value);
      ImageDeleteSettled(resp);
    }

    /**
     * `onSubmit` up to the request: loading starts; the update or creation is
     * sent, or, without a hotel, nothing is sent and loading never ends.
     */
    method OnSubmit(v: RoomValues) returns (req: Option<Request>)
      modifies this
      ensures isLoading
      ensures req == SubmitRequest(hotel, room, v)
      ensures log == old(log) + (if req.Some? then [Send(req.value)] else [])
      ensures image == old(image) && values == old(values) && imageIsDeleting == old(imageIsDeleting)
    {
      isLoading := true;
      if hotel.Some? && room.Some? {
        req := Some(Request(Patch, "/api/room/" + room.value.id, RoomBody(v, None)));
      } else {
        if hotel.None? {
          req := None;
          return;
        }
        req := Some(Request(Post, "/api/room/", RoomBody(v, Some(hotel.value.id))));
      }
      log := log + [Send(req.value)];
    }

    /** The submit request's `then` or `catch`: either way loading ends; the dialog toggles only on success. */
    method OnSubmitSettled(outcome: SaveOutcome)
      modifies this
      ensures !isLoading
      ensures log == old(log) + SettledEffects(hotel, room, outcome)
      ensures image == old(image) && values == old(values) && imageIsDeleting == old(imageIsDeleting)
    {
      log := log + SettledEffects(hotel, room, outcome);
      isLoading := false;
    }

    /**
     * The submit button: disabled while loading; otherwise the schema runs
     * first, and `onSubmit` is called only with accepted values.
     */
    method SubmitClicked(outcome: SaveOutcome) returns (req: Option<Request>, issues: set<Field>)
      requires Valid()
      modifies this
      ensures Valid()
      ensures req.Some? <==> !old(isLoading) && Accepts(old(values)) && hotel.Some?
      ensures !old(isLoading) ==> issues == Issues(old(values))
      ensures req.Some? ==> req == SubmitRequest(hotel, room, values) && !isLoading
      ensures !old(isLoading) && Accepts(old(values)) ==> log == old(log) + SubmitEffects(hotel, room, values, outcome)
      ensures !old(isLoading) && Accepts(old(values)) && hotel.None? ==> isLoading
      ensures old(isLoading) || !Accepts(old(values)) ==> isLoading == old(isLoading) && log == old(log)
      ensures image == old(image) && values == old(values) && imageIsDeleting == old(imageIsDeleting)
    {
      req, issues := None, {};
      if isLoading {
        return;
      }
      issues := Issues(values);
      if issues == {} {
        req := OnSubmit(values);
        if req.Some? {
          OnSubmitSettled(outcome);
        }
      }
    }
  }
}
