/**
 * The hotel create/update form: its validation schema, its default values,
 * and the state it keeps while an image is removed and while the form is
 * submitted.
 */
module HotelForm {
  import opened Wrappers
  import opened Text
  import opened Hotels
  import opened Api

  /** The schema fields that carry a rule; state, city and the amenity flags are optional and unchecked. */
  datatype Field = Title | Description | Image | Country | LocationDescription

  const AllFields: set<Field> := {Title, Description, Image, Country, LocationDescription}

  /** The schema's rule for one field fails on the values. */
  predicate Fails(f: Field, v: HotelValues)
  {
    match f
    case Title => |v.title| < 3
    case Description => |v.description| < 10
    case Image => |v.image| < 1
    case Country => |v.country| < 1
    case LocationDescription => |v.locationDescription| < 10
  }

  /** The fields the schema rejects; every field is checked, so all failures are reported together. */
  function Issues(v: HotelValues): (bad: set<Field>)
    ensures Title in bad <==> |v.title| < 3
    ensures Description in bad <==> |v.description| < 10
    ensures Image in bad <==> |v.image| < 1
    ensures Country in bad <==> |v.country| < 1
    ensures LocationDescription in bad <==> |v.locationDescription| < 10
  {
    set f | f in AllFields && Fails(f, v)
  }

  /** The schema accepts the values: no field is rejected. */
  function Accepts(v: HotelValues): (ok: bool)
    ensures ok <==> |v.title| >= 3 && |v.description| >= 10 && |v.image| >= 1
                    && |v.country| >= 1 && |v.locationDescription| >= 10
  {
    var bad := Issues(v);
    assert bad != {} <== Title in bad || Description in bad || Image in bad || Country in bad || LocationDescription in bad;
    bad == {}
  }

  /** State, city and the amenity flags never change what the schema reports. */
  lemma OptionalFieldsIgnored(v: HotelValues, state: Option<string>, city: Option<string>, amenities: map<Amenity, bool>)
    ensures Issues(v.(state := state, city := city, amenities := amenities)) == Issues(v)
    ensures Accepts(v.(state := state, city := city, amenities := amenities)) == Accepts(v)
  {
  }

  /** The values of a new hotel: empty strings and every flag false. */
  const NewHotelValues: HotelValues :=
    HotelValues("", "", "", "", Some(""), Some(""), "", map a | a in AllAmenities :: false)

  /** The values the form starts from for an existing hotel. */
  function ValuesOf(h: Hotel): (v: HotelValues)
    ensures v.image == h.image
  {
    HotelValues(h.title, h.description, h.image, h.country, Some(h.state), Some(h.city),
                h.locationDescription, map a | a in AllAmenities :: a in h.amenities)
  }

  /** `defaultValues: hotel || {...}`. */
  function Defaults(hotel: Option<Hotel>): HotelValues
  {
    match hotel
    case Some(h) => ValuesOf(h)
    case None => NewHotelValues
  }

  /** A new hotel's form is rejected on every checked field. */
  lemma NewDraftRejected()
    ensures Issues(Defaults(None)) == {Title, Description, Image, Country, LocationDescription}
    ensures !Accepts(Defaults(None))
  {
  }

  /** The amenities whose checkbox is ticked. */
  function Ticked(m: map<Amenity, bool>): (s: set<Amenity>)
    ensures forall a :: a in s <==> a in m && m[a]
  {
    set a | a in m && m[a]
  }

  /** The ticked boxes of an existing hotel's form are exactly the hotel's amenities. */
  lemma TickedOfExistingHotel(h: Hotel)
    ensures Ticked(Defaults(Some(h)).amenities) == h.amenities
  {
    var m := Defaults(Some(h)).amenities;
    forall a | a in h.amenities
      ensures a in Ticked(m)
    {
      EveryAmenityListed(a);
    }
  }

  /**
   * An existing hotel's form loses none of its data: two hotels start the
   * form from the same values exactly when they agree on everything but
   * their id and their owner.
   */
  lemma DefaultsDetermineHotel(h1: Hotel, h2: Hotel)
    ensures Defaults(Some(h1)) == Defaults(Some(h2)) <==> h1.(id := h2.id, userId := h2.userId) == h2
  {
    if Defaults(Some(h1)) == Defaults(Some(h2)) {
      TickedOfExistingHotel(h1);
      TickedOfExistingHotel(h2);
    }
  }

  /** The request `onSubmit` sends: an update of the given hotel, or a creation. */
  function SubmitRequest(hotel: Option<Hotel>, values: HotelValues): (r: Request)
    ensures r.body == HotelBody(values)
    ensures r.verb == Patch <==> hotel.Some?
    ensures r.verb == Post <==> hotel.None?
    ensures hotel.Some? ==> r.path == "/api/hotel/" + hotel.value.id
    ensures hotel.None? ==> r.path == "/api/hotel/"
  {
    match hotel
    case Some(h) => Request(Patch, "/api/hotel/" + h.id, HotelBody(values))
    case None => Request(Post, "/api/hotel/", HotelBody(values))
  }

  /** The effects of the submit request's completion. */
  function SettledEffects(hotel: Option<Hotel>, outcome: SaveOutcome): seq<Effect>
  {
    match outcome
    case Saved(id) =>
      [Toast(Notice(Success, if hotel.Some? then "Hotel updated successfully" else "Hotel created successfully")),
       Push("/hotel/" + id)]
    case Failed =>
      [Toast(Notice(Success, "Someting went wrong!"))]
  }

  /** Everything one submission causes, from the request to its completion. */
  function SubmitEffects(hotel: Option<Hotel>, values: HotelValues, outcome: SaveOutcome): seq<Effect>
  {
    [Send(SubmitRequest(hotel, values))] + SettledEffects(hotel, outcome)
  }

  /**
   * A submission sends exactly one request, a PATCH of the hotel when there
   * is one and a POST otherwise, never both; it navigates to the saved hotel
   * only when the request succeeded.
   */
  lemma SubmitSendsOneRequest(hotel: Option<Hotel>, values: HotelValues, outcome: SaveOutcome)
    ensures Sends(SubmitEffects(hotel, values, outcome)) == [SubmitRequest(hotel, values)]
    ensures outcome.Saved? ==> Push("/hotel/" + outcome.id) in SubmitEffects(hotel, values, outcome)
    ensures outcome.Failed? ==> forall e :: e in SubmitEffects(hotel, values, outcome) ==> !e.Push?
  {
    var settled := SettledEffects(hotel, outcome);
    SendsAppend([Send(SubmitRequest(hotel, values))], settled);
    SendsNone(settled);
  }

  /** The form component's state. */
  class AddHotelForm {
    const hotel: Option<Hotel>
    var image: Option<string>      // the displayed image; undefined until one is known
    var imageIsDeleting: bool
    var isLoading: bool
    var values: HotelValues        // the form's field values
    var log: seq<Effect>

    /** The image effect keeps the form's image field equal to the image whenever the image is a string. */
    ghost predicate Valid()
      reads this
    {
      image.Some? ==> values.image == image.value
    }

    constructor (hotel: Option<Hotel>)
      ensures Valid()
      ensures this.hotel == hotel && values == Defaults(hotel)
      ensures image == (if hotel.Some? then Some(hotel.value.image) else None)
      ensures !imageIsDeleting && !isLoading && log == []
    {
      this.hotel := hotel;
      image := if hotel.Some? then Some(hotel.value.image) else None;
      imageIsDeleting := false;
      isLoading := false;
      values := Defaults(hotel);
      log := [];
    }

    /** The user edits the text inputs, selects and checkboxes; the image field has no input of its own. */
    method Edit(v: HotelValues)
      requires Valid()
      modifies this
      ensures Valid()
      ensures values == v.(image := old(values.image))
      ensures image == old(image) && imageIsDeleting == old(imageIsDeleting)
      ensures isLoading == old(isLoading) && log == old(log)
    {
      values := v.(image := values.image);
    }

    /** The upload widget finished: the image becomes the uploaded URL, and the image effect copies it into the form. */
    method UploadComplete(url: string)
      requires Valid()
      modifies this
      ensures Valid()
      ensures image == Some(url) && values == old(values).(image := url)
      ensures log == old(log) + [Toast(Notice(Success, "Upload  Completed"))]
      ensures imageIsDeleting == old(imageIsDeleting) && isLoading == old(isLoading)
    {
      image := Some(url);
      values := values.(image := url);
      log := log + [Toast(Notice(Success, "Upload  Completed"))];
    }

    /** The upload widget reported an error. */
    method UploadError(message: string)
      modifies this
      ensures log == old(log) + [Toast(Notice(Destructive, "ERROR! " + message))]
      ensures image == old(image) && values == old(values)
      ensures imageIsDeleting == old(imageIsDeleting) && isLoading == old(isLoading)
    {
      log := log + [Toast(Notice(Destructive, "ERROR! " + message))];
    }

    /** `handleImageDelete` up to the request: the 'deleting' flag is raised and the image's key is sent. */
    method HandleImageDelete(img: string) returns (req: Request)
      modifies this
      ensures imageIsDeleting
      ensures req == ImageDeleteRequest(ImageKey(img))
      ensures log == old(log) + [Send(req)]
      ensures image == old(image) && values == old(values) && isLoading == old(isLoading)
    {
      imageIsDeleting := true;
      req := ImageDeleteRequest(ImageKey(img));
      log := log + [Send(req)];
    }

    /** The delete request's `then`, `catch` and `finally`: the image is cleared only on a confirmed success. */
    method ImageDeleteSettled(resp: DeleteResponse)
      requires Valid()
      modifies this
      ensures Valid()
      ensures !imageIsDeleting
      ensures image == (if resp == Resolved(true) then Some("") else old(image))
      ensures values == (if resp == Resolved(true) then old(values).(image := "") else old(values))
      ensures log == old(log) + ImageRemovalNotices(resp)
      ensures isLoading == old(isLoading)
    {
      if resp == Resolved(true) {
        image := Some("");
        values := values.(image := "");
      }
      log := log + ImageRemovalNotices(resp);
      imageIsDeleting := false;
    }

    /** The remove button, shown only over a displayed image, runs the whole removal. */
    method RemoveImage(resp: DeleteResponse) returns (req: Request)
      requires Valid() && image.Some? && image.value != ""
      modifies this
      ensures Valid()
      ensures req == ImageDeleteRequest(ImageKey(old(image).value))
      ensures !imageIsDeleting
      ensures image == (if resp == Resolved(true) then Some("") else old(image))
      ensures values == (if resp == Resolved(true) then old(values).(image := "") else old(values))
      ensures log == old(log) + [Send(req)] + ImageRemovalNotices(resp)
      ensures isLoading == old(isLoading)
    {
      req := HandleImageDelete(image.value);
      ImageDeleteSettled(resp);
    }

    /** `onSubmit` up to the request: loading starts and the update or creation is sent. */
    method OnSubmit(v: HotelValues) returns (req: Request)
      modifies this
      ensures isLoading
      ensures req == SubmitRequest(hotel, v)
      ensures log == old(log) + [Send(req)]
      ensures image == old(image) && values == old(values) && imageIsDeleting == old(imageIsDeleting)
    {
      isLoading := true;
      req := SubmitRequest(hotel, v);
      log := log + [Send(req)];
    }

    /** The submit request's `then` or `catch`: either way loading ends. */
    method OnSubmitSettled(outcome: SaveOutcome)
      modifies this
      ensures !isLoading
      ensures log == old(log) + SettledEffects(hotel, outcome)
      ensures image == old(image) && values == old(values) && imageIsDeleting == old(imageIsDeleting)
    {
      log := log + SettledEffects(hotel, outcome);
      isLoading := false;
    }

    /**
     * The submit button: disabled while loading; otherwise the schema runs
     * first, and `onSubmit` is called only with accepted values.
     */
    method SubmitClicked(outcome: SaveOutcome) returns (req: Option<Request>, issues: set<Field>)
      requires Valid()
      modifies this
      ensures Valid()
      ensures req.Some? <==> !old(isLoading) && Accepts(old(values))
      ensures !old(isLoading) ==> issues == Issues(old(values))
      ensures req.Some? ==> req.value == SubmitRequest(hotel, values) && !isLoading
                            && log == old(log) + SubmitEffects(hotel, values, outcome)
      ensures req.None? ==> isLoading == old(isLoading) && log == old(log)
      ensures image == old(image) && values == old(values) && imageIsDeleting == old(imageIsDeleting)
    {
      req, issues := None, {};
      if isLoading {
        return;
      }
      issues := Issues(values);
      if issues == {} {
        var r := OnSubmit(values);
        OnSubmitSettled(outcome);
        req := Some(r);
      }
    }
  }
}
