/**
 * The card that shows one room: the labels it derives from the room, the
 * footer controls it shows outside the hotel-details page, the update dialog
 * it opens, and the two-step deletion of the room.
 */
module RoomCards {
  import opened Wrappers
  import opened Text
  import opened Rooms
  import opened Api
  import Hotels

  /** One item of the card's amenity grid or price row. */
  datatype Label =
    | Beds(n: int) | Guests(n: int) | Bathrooms(n: int) | KingBeds(n: int) | QueenBeds(n: int)
    | RoomServices
    | Zero                 // the number 0 that React prints for `{0 && ...}`
    | Flag(a: Amenity)     // TV, Balcony, Free Wifi, ... Sound Proofed
    | RoomPrice(n: int) | BreakfastPrice(n: int)

  /** The flags the card shows one by one, in the card's order. */
  const ShownFlags: seq<Amenity> :=
    [TV, Balcony, FreeWifi, CityView, OceanView, ForestView, MountainView, AirCondition, SoundProofed]

  /** The capacity labels: bed, guest and bathroom always; king and queen beds when nonzero. */
  function CapacityLabels(r: Room): seq<Label>
  {
    [Beds(r.bedCount), Guests(r.guestCount), Bathrooms(r.bathroomCount)]
    + (if r.kingBed != 0 then [KingBeds(r.kingBed)] else [])
    + (if r.queenBed != 0 then [QueenBeds(r.queenBed)] else [])
  }

  /** `{room.queenBed && <Room Services>}`: gated on the queen-bed count, and a zero count is printed. */
  function ServiceLabel(r: Room): seq<Label>
  {
    if r.queenBed != 0 then [RoomServices] else [Zero]
  }

  /** A label for each of `flags` that the room has, in order. */
  function FlagLabels(flags: seq<Amenity>, r: Room): (ls: seq<Label>)
    ensures forall a :: Flag(a) in ls <==> a in flags && a in r.amenities
    ensures forall l :: l in ls ==> l.Flag?
  {
    if flags == [] then []
    else (if flags[0] in r.amenities then [Flag(flags[0])] else []) + FlagLabels(flags[1..], r)
  }

  /** The amenity grid as the card renders it. */
  function AmenityLabels(r: Room): seq<Label>
  {
    CapacityLabels(r) + ServiceLabel(r) + FlagLabels(ShownFlags, r)
  }

  /** The price row: the room price always, the breakfast price when nonzero. */
  function PriceLabels(r: Room): seq<Label>
  {
    [RoomPrice(r.roomPrice)] + (if r.breakFastPrice != 0 then [BreakfastPrice(r.breakFastPrice)] else [])
  }

  /** The grid starts with the bed, guest and bathroom labels, whatever the room. */
  lemma CapacityAlwaysShown(r: Room)
    ensures |AmenityLabels(r)| >= 4
    ensures AmenityLabels(r)[..3] == [Beds(r.bedCount), Guests(r.guestCount), Bathrooms(r.bathroomCount)]
  {
  }

  /** King and queen bed labels appear exactly when those counts are nonzero, and carry the counts. */
  lemma BedLabelsIffNonzero(r: Room)
    ensures KingBeds(r.kingBed) in AmenityLabels(r) <==> r.kingBed != 0
    ensures QueenBeds(r.queenBed) in AmenityLabels(r) <==> r.queenBed != 0
    ensures forall n :: KingBeds(n) in AmenityLabels(r) ==> n == r.kingBed
    ensures forall n :: QueenBeds(n) in AmenityLabels(r) ==> n == r.queenBed
  {
  }

  /** The room-services label follows the queen-bed count, not the room-service flag; a zero count shows "0". */
  lemma ServiceLabelFollowsQueenBed(r: Room)
    ensures RoomServices in AmenityLabels(r) <==> r.queenBed != 0
    ensures Zero in AmenityLabels(r) <==> r.queenBed == 0
  {
  }

  /** A room that offers room service but has no queen beds shows no room-services label, and a stray "0". */
  lemma RoomServiceFlagIgnored(r: Room)
    requires RoomService in r.amenities && r.queenBed == 0
    ensures RoomServices !in AmenityLabels(r) && Zero in AmenityLabels(r)
  {
  }

  /** Every other flag is shown exactly when the room has it. */
  lemma FlagShownIffSet(r: Room, a: Amenity)
    ensures Flag(a) in AmenityLabels(r) <==> a != RoomService && a in r.amenities
  {
  }

  /** The breakfast price is shown exactly when it is nonzero; the room price always. */
  lemma PriceLabelsShown(r: Room)
    ensures PriceLabels(r)[0] == RoomPrice(r.roomPrice)
    ensures BreakfastPrice(r.breakFastPrice) in PriceLabels(r) <==> r.breakFastPrice != 0
    ensures |PriceLabels(r)| == if r.breakFastPrice != 0 then 2 else 1
  {
  }

  /** The room-services slot gated on the room-service flag, with nothing printed when it is off. */
  function IntendedServiceLabel(r: Room): seq<Label>
  {
    if RoomService in r.amenities then [RoomServices] else []
  }

  /** The amenity grid with the room-services label gated on its own flag. */
  function IntendedAmenityLabels(r: Room): seq<Label>
  {
    CapacityLabels(r) + IntendedServiceLabel(r) + FlagLabels(ShownFlags, r)
  }

  /** With the intended gate, the room-services label follows the room-service flag and no "0" is printed. */
  lemma IntendedServiceLabelFollowsFlag(r: Room)
    ensures RoomServices in IntendedAmenityLabels(r) <==> RoomService in r.amenities
    ensures Zero !in IntendedAmenityLabels(r)
    ensures forall a :: Flag(a) in IntendedAmenityLabels(r) <==> a != RoomService && a in r.amenities
  {
  }

  const DetailsPageMarker: string := "hotel-details"

  /** `pathname.includes('hotel-details')`. */
  predicate IsHotelDetailsPage(pathname: string)
  {
    Contains(pathname, DetailsPageMarker)
  }

  datatype Footer = DetailsPageNote | DeleteAndUpdate

  /** The card's footer: the delete and update controls appear only where the path does not name the details page. */
  function FooterOf(pathname: string): (f: Footer)
    ensures f == DeleteAndUpdate <==> forall i :: !OccursAt(pathname, DetailsPageMarker, i)
  {
    ContainsIff(pathname, DetailsPageMarker);
    if IsHotelDetailsPage(pathname) then DetailsPageNote else DeleteAndUpdate
  }

  /** `setOpen(prev => !prev)`'s updater. */
  function ToggledOpen(prev: bool): (next: bool)
    ensures next != prev
  {
    !prev
  }

  /** Toggling the dialog twice restores it. */
  lemma ToggleTwiceRestores(open: bool)
    ensures ToggledOpen(ToggledOpen(open)) == open
  {
  }

  /** `axios.delete('/api/room/{id}')`. */
  function RecordDeleteRequest(r: Room): Request
  {
    Request(Delete, "/api/room/" + r.id, NoBody)
  }

  const DeleteFailedNotice: Notice := Notice(Destructive, "Something went wrong!")
  const RoomDeletedNotice: Notice := Notice(Success, "Room Deleted!")

  /**
   * Everything one deletion causes: the image delete first; the record delete
   * only once the image delete resolved; then the outcome's notice.
   */
  function DeletionEffects(r: Room, imageResp: DeleteResponse, recordOk: bool): seq<Effect>
  {
    [Send(ImageDeleteRequest(ImageKey(r.image)))]
    + if imageResp.Rejected? then [Toast(DeleteFailedNotice)]
      else [Send(RecordDeleteRequest(r))]
           + (if recordOk then [Refresh, Toast(RoomDeletedNotice)] else [Toast(DeleteFailedNotice)])
  }

  /**
   * The image is deleted first, by the key after the last '/' of the room's
   * image; the record delete is sent after it, and only if it resolved.
   */
  lemma DeletionOrder(r: Room, imageResp: DeleteResponse, recordOk: bool)
    ensures Sends(DeletionEffects(r, imageResp, recordOk))
            == [ImageDeleteRequest(ImageKey(r.image))] + (if imageResp.Resolved? then [RecordDeleteRequest(r)] else [])
  {
    var first := [Send(ImageDeleteRequest(ImageKey(r.image)))];
    if imageResp.Rejected? {
      SendsAppend(first, [Toast(DeleteFailedNotice)]);
      SendsNone([Toast(DeleteFailedNotice)]);
    } else {
      var tail := if recordOk then [Refresh, Toast(RoomDeletedNotice)] else [Toast(DeleteFailedNotice)];
      SendsAppend(first, [Send(RecordDeleteRequest(r))] + tail);
      SendsAppend([Send(RecordDeleteRequest(r))], tail);
      SendsNone(tail);
    }
  }

  /** "Room Deleted!" is shown exactly when both deletes succeeded. */
  lemma DeletedNoticeIffBothSucceed(r: Room, imageResp: DeleteResponse, recordOk: bool)
    ensures Toast(RoomDeletedNotice) in DeletionEffects(r, imageResp, recordOk) <==> imageResp.Resolved? && recordOk
  {
  }

  /** The card component's state. */
  class RoomCard {
    const hotel: Option<Hotels.Hotel>
    const room: Room
    const pathname: string
    var isLoading: bool
    var open: bool
    var log: seq<Effect>

    constructor (hotel: Option<Hotels.Hotel>, room: Room, pathname: string)
      ensures this.hotel == hotel && this.room == room && this.pathname == pathname
      ensures !isLoading && !open && log == []
    {
      this.hotel := hotel;
      this.room := room;
      this.pathname := pathname;
      isLoading := false;
      open := false;
      log := [];
    }

    /** `handleDalogueOpen`, the callback the update form is given. */
    method HandleDialogueOpen()
      modifies this
      ensures open == ToggledOpen(old(open))
      ensures isLoading == old(isLoading) && log == old(log)
    {
      open := ToggledOpen(open);
    }

    /** The dialog's own open-change event. */
    method SetOpen(value: bool)
      modifies this
      ensures open == value
      ensures isLoading == old(isLoading) && log == old(log)
    {
      open := value;
    }

    /** `handleRoomDelete` up to the first request: loading starts and the room's image is deleted. */
    method HandleRoomDelete(r: Room) returns (req: Request)
      modifies this
      ensures isLoading
      ensures req == ImageDeleteRequest(ImageKey(r.image))
      ensures log == old(log) + [Send(req)]
      ensures open == old(open)
    {
      isLoading := true;
      req := ImageDeleteRequest(ImageKey(r.image));
      log := log + [Send(req)];
    }

    /** The image delete's `then` or `catch`: a resolved delete sends the record delete; a rejected one ends loading. */
    method ImageDeleteSettled(r: Room, resp: DeleteResponse) returns (next: Option<Request>)
      modifies this
      ensures next.Some? <==> resp.Resolved?
      ensures next.Some? ==> next.value == RecordDeleteRequest(r) && isLoading == old(isLoading)
                             && log == old(log) + [Send(next.value)]
      ensures next.None? ==> !isLoading && log == old(log) + [Toast(DeleteFailedNotice)]
      ensures open == old(open)
    {
      if resp.Resolved? {
        next := Some(RecordDeleteRequest(r));
        log := log + [Send(next.value)];
      } else {
        next := None;
        isLoading := false;
        log := log + [Toast(DeleteFailedNotice)];
      }
    }

    /** The record delete's `then` or `catch`: either way loading ends. */
    method RecordDeleteSettled(ok: bool)
      modifies this
      ensures !isLoading
      ensures log == old(log) + (if ok then [Refresh, Toast(RoomDeletedNotice)] else [Toast(DeleteFailedNotice)])
      ensures open == old(open)
    {
      if ok {
        log := log + [Refresh, Toast(RoomDeletedNotice)];
        isLoading := false;
      } else {
        isLoading := false;
        log := log + [Toast(DeleteFailedNotice)];
      }
    }

    /**
     * The delete button, rendered only outside the hotel-details page and
     * disabled while loading, runs the whole deletion of the card's room.
     */
    method DeleteClicked(imageResp: DeleteResponse, recordOk: bool) returns (sent: seq<Request>)
      requires !IsHotelDetailsPage(pathname)
      modifies this
      ensures old(isLoading) ==> sent == [] && isLoading && log == old(log)
      ensures !old(isLoading) ==> !isLoading && log == old(log) + DeletionEffects(room, imageResp, recordOk)
      ensures !old(isLoading) ==> sent == Sends(DeletionEffects(room, imageResp, recordOk))
      ensures open == old(open)
    {
      if isLoading {
        sent := [];
        return;
      }
      var start := |log|;
      var first := HandleRoomDelete(room);
      var next := ImageDeleteSettled(room, imageResp);
      if next.Some? {
        RecordDeleteSettled(recordOk);
      }
      assert log[start..] == DeletionEffects(room, imageResp, recordOk);
      sent := Sends(log[start..]);
    }
  }
}
