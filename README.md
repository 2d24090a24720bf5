# Hotel listing forms: a Dafny model

This project models the decision logic in three client components of a hotel
listing web application:

- the hotel create/update form (`components/hotel/AddHotelForm.tsx`);
- the room create/update form (`components/room/AddRoomForm.tsx`);
- the card that shows a room (`components/room/RoomCard.tsx`).

The rest of those files is layout.

What is modelled:

- **Validation schemas.** Each form's schema is a per-field rule table (`Fails`).
  `Issues` gives the set of rejected fields and `Accepts` says none was rejected.
  Both are stated over values that have already been parsed. An optional string
  or number is an `Option`. The optional amenity checkboxes form a
  `map<Amenity, bool>`, where a missing key is a checkbox left undefined.
- **Default values.** A new draft starts from `NewHotelValues` or `NewRoomValues`.
  An existing record starts from its own values (`ValuesOf`). Lemmas prove the
  new drafts are rejected, field by field.
- **Image key.** `ImageKey` is `url.substring(url.lastIndexOf('/') + 1)`, with
  JavaScript's `-1` result and its clamping of the start index written out.
- **Component state.** Each component is a class. Its fields are the React state
  it keeps: `image`, `imageIsDeleting`, `isLoading`, the form values, and the
  dialog's `open`. Each class also has a `log` of the effects it causes, in
  order: requests sent, toasts, `router.push`/`router.refresh`, and calls of the
  `handleDalogueOpen` callback.
- **Asynchronous handlers.** Each handler is split into its synchronous part
  (`OnSubmit`, `HandleImageDelete`, `HandleRoomDelete`) and its promise callbacks
  (`OnSubmitSettled`, `ImageDeleteSettled`, `RecordDeleteSettled`). The server's
  answer is a parameter of the callback method. A method for each button
  (`SubmitClicked`, `RemoveImage`, `DeleteClicked`) composes the two parts. It
  also models what the markup adds: `disabled={isLoading}`, and
  `form.handleSubmit`, which calls `onSubmit` only with accepted values.
- **Whole-run specifications.** `SubmitEffects` and `DeletionEffects` are pure
  functions giving what an entire submission or deletion causes. The button
  methods' postconditions tie the new log to them, and lemmas about them prove
  the properties: one request per submission, and deletion order.
- **Card rendering.** The card's labels and footer are pure functions of the room
  and the path.

Behaviour kept as the source has it:

- The form's `catch` branches show their "Someting went wrong!" toast with
  variant `success`.
- The room form submitted without a hotel returns early and leaves `isLoading`
  true for good. So its submit button stays disabled.
- The card deletes the record once the image-delete request resolves, whatever
  the response says. The forms clear the image only when the response reports
  `success`.
- The card's "Room Services" label is gated on `queenBed`. A count of 0 makes
  React print the digit `0` (see Findings).

The project does not model a booking or availability engine. No modelled file
has one: the `bookings` prop of the room card is never read.

## Model

| member | source | states |
|---|---|---|
| `Text.LastIndexOf` | components/hotel/AddHotelForm.tsx:177 | the result is -1 or an index of the character, and no later index holds it |
| `Text.Substring` | components/hotel/AddHotelForm.tsx:177 | `substring(start)` gives a suffix; a start at or below 0 keeps the whole string, one at or past the end gives "", otherwise the characters from `start` on |
| `Text.ImageKeyIsLastSegment` | components/hotel/AddHotelForm.tsx:177 | the image key is a suffix of the URL with no '/', directly preceded by the last '/', and is the whole URL when the URL holds no '/' |
| `Text.ContainsIff` | components/room/RoomCard.tsx:31 | `includes` is true exactly when the marker occurs at some index of the path |
| `Api.ImageRemovalNotices` | components/hotel/AddHotelForm.tsx:178-190 | the image-removal completion sends no request and only shows toasts: a success toast on a confirmed removal, a destructive one on a rejection, and none on an unconfirmed response |
| `HotelForm.Issues` | components/hotel/AddHotelForm.tsx:37-67 | each checked field is reported exactly when its minimum length (title 3, description 10, image 1, country 1, location description 10) is not met |
| `HotelForm.Accepts` | components/hotel/AddHotelForm.tsx:37-67 | a hotel draft is accepted iff title ≥ 3, description ≥ 10, image ≥ 1, country ≥ 1 and location description ≥ 10 characters |
| `HotelForm.OptionalFieldsIgnored` | components/hotel/AddHotelForm.tsx:50-66 | state, city and the twelve amenity flags, present or absent, never change the reported issues or acceptance |
| `HotelForm.ValuesOf` | components/hotel/AddHotelForm.tsx:83 | an existing hotel's form starts with that hotel's image |
| `HotelForm.NewDraftRejected` | components/hotel/AddHotelForm.tsx:83-103 | the new-hotel defaults are rejected on all five checked fields |
| `HotelForm.TickedOfExistingHotel` | components/hotel/AddHotelForm.tsx:83 | the amenity boxes ticked in an existing hotel's form are exactly the hotel's amenities |
| `HotelForm.DefaultsDetermineHotel` | components/hotel/AddHotelForm.tsx:83 | the form of an existing hotel loses none of its data: two hotels start from the same values iff they agree on everything but id and owner |
| `HotelForm.SubmitRequest` | components/hotel/AddHotelForm.tsx:136-156 | with a hotel the request is a PATCH to `/api/hotel/{id}`, without one a POST to `/api/hotel/`; the body is the submitted values |
| `HotelForm.SubmitSendsOneRequest` | components/hotel/AddHotelForm.tsx:134-173 | a whole submission sends exactly that one request, never both kinds; it navigates to `/hotel/{id}` after a success and never after a failure |
| `HotelForm.AddHotelForm.constructor` | components/hotel/AddHotelForm.tsx:69-114 | the form starts from the defaults with `image` the hotel's image (undefined without a hotel), nothing loading or deleting, and the image field in step with `image` |
| `HotelForm.AddHotelForm.Edit` | components/hotel/AddHotelForm.tsx:200-575 | user input changes every field but the image, which has no input of its own; the rest of the state is unchanged |
| `HotelForm.AddHotelForm.UploadComplete` | components/hotel/AddHotelForm.tsx:460-466 | a finished upload sets `image` to the URL and, through the image effect, the form's image field to the same value |
| `HotelForm.AddHotelForm.UploadError` | components/hotel/AddHotelForm.tsx:468-473 | an upload error only shows a destructive toast with the error's message |
| `HotelForm.AddHotelForm.HandleImageDelete` | components/hotel/AddHotelForm.tsx:175-178 | `imageIsDeleting` becomes true and the key after the last '/' is posted to the delete endpoint; nothing else changes |
| `HotelForm.AddHotelForm.ImageDeleteSettled` | components/hotel/AddHotelForm.tsx:178-193 | `image` and the form's image field become "" only when the response reports success and are unchanged otherwise; `imageIsDeleting` is false afterwards in every case |
| `HotelForm.AddHotelForm.RemoveImage` | components/hotel/AddHotelForm.tsx:450-452 | the whole removal of the displayed image: one delete request by its key, then the completion above; the other form values are unchanged |
| `HotelForm.AddHotelForm.OnSubmit` | components/hotel/AddHotelForm.tsx:134-137 | `isLoading` becomes true and the PATCH or POST of `SubmitRequest` is sent |
| `HotelForm.AddHotelForm.OnSubmitSettled` | components/hotel/AddHotelForm.tsx:138-171 | after success or failure `isLoading` is false; success toasts and navigates to the saved hotel, failure only toasts |
| `HotelForm.AddHotelForm.SubmitClicked` | components/hotel/AddHotelForm.tsx:198 | a request is sent iff the button is enabled and the values are accepted; then the log grows by the whole submission and loading has ended; otherwise nothing changes |
| `RoomForm.Issues` | components/room/AddRoomForm.tsx:28-57 | each checked field is reported exactly when its minimum (title 3, description 10 characters; bed, guest, bathroom counts 1; king and queen beds 0; image 1 character; room price 1) is not met |
| `RoomForm.Accepts` | components/room/AddRoomForm.tsx:28-57 | a room draft is accepted iff every one of those minimums is met |
| `RoomForm.OptionalFieldsIgnored` | components/room/AddRoomForm.tsx:43-56 | the breakfast price and the ten amenity flags never change the reported issues or acceptance |
| `RoomForm.ValuesOf` | components/room/AddRoomForm.tsx:68 | an existing room's form starts with that room's image |
| `RoomForm.NewDraftRejected` | components/room/AddRoomForm.tsx:68-89 | the new-room defaults are rejected on title, description, the three counts, image and room price, and accepted on the king and queen bed counts |
| `RoomForm.TickedOfExistingRoom` | components/room/AddRoomForm.tsx:68 | the amenity boxes ticked in an existing room's form are exactly the room's amenities |
| `RoomForm.DefaultsDetermineRoom` | components/room/AddRoomForm.tsx:68 | the form of an existing room loses none of its data: two rooms start from the same values iff they agree on everything but id and hotel |
| `RoomForm.SubmitRequest` | components/room/AddRoomForm.tsx:123-150 | with a hotel and a room a PATCH to `/api/room/{room.id}` of the values; with a hotel only a POST to `/api/room/` of the values plus `hotelId = hotel.id`, no other field altered; without a hotel no request |
| `RoomForm.SubmitSendsOneRequest` | components/room/AddRoomForm.tsx:123-168 | a whole submission sends exactly one request when there is a hotel and none otherwise |
| `RoomForm.SubmitTogglesOnSuccess` | components/room/AddRoomForm.tsx:133-165 | the dialog toggle is called exactly once after a successful create or update, and never after a failure or without a hotel |
| `RoomForm.AddRoomForm.constructor` | components/room/AddRoomForm.tsx:59-100 | the form starts from the defaults with `image` the room's image (undefined without a room), nothing loading or deleting, and the image field in step with `image` |
| `RoomForm.AddRoomForm.Edit` | components/room/AddRoomForm.tsx:173-525 | user input changes every field but the image; the rest of the state is unchanged |
| `RoomForm.AddRoomForm.UploadComplete` | components/room/AddRoomForm.tsx:400-406 | a finished upload sets `image` and the form's image field to the URL |
| `RoomForm.AddRoomForm.UploadError` | components/room/AddRoomForm.tsx:408-413 | an upload error only shows a destructive toast |
| `RoomForm.AddRoomForm.HandleImageDelete` | components/room/AddRoomForm.tsx:102-105 | `imageIsDeleting` becomes true and the image's key is posted to the delete endpoint |
| `RoomForm.AddRoomForm.ImageDeleteSettled` | components/room/AddRoomForm.tsx:105-120 | `image` is cleared only on a reported success and unchanged otherwise; `imageIsDeleting` is always reset to false |
| `RoomForm.AddRoomForm.RemoveImage` | components/room/AddRoomForm.tsx:390-392 | the whole removal of the displayed image: one delete request by its key, then the completion; the form values other than the image are unchanged |
| `RoomForm.AddRoomForm.OnSubmit` | components/room/AddRoomForm.tsx:123-150 | `isLoading` becomes true; the request of `SubmitRequest` is sent, or without a hotel nothing is sent |
| `RoomForm.AddRoomForm.OnSubmitSettled` | components/room/AddRoomForm.tsx:127-166 | `isLoading` is false after success or failure; success toasts, refreshes and toggles the dialog, failure only toasts |
| `RoomForm.AddRoomForm.SubmitClicked` | components/room/AddRoomForm.tsx:527-536 | a request is sent iff the button is enabled, the values are accepted and there is a hotel; accepted values without a hotel leave `isLoading` true and the log unchanged |
| `RoomCards.FlagLabels` | components/room/RoomCard.tsx:81-90 | a flag label appears exactly for the listed flags the room has, and every label produced is a flag label |
| `RoomCards.CapacityAlwaysShown` | components/room/RoomCard.tsx:75-77 | the bed, guest and bathroom labels always head the grid, with the room's counts |
| `RoomCards.BedLabelsIffNonzero` | components/room/RoomCard.tsx:78-79 | the king and queen bed labels appear exactly when those counts are nonzero, and carry them |
| `RoomCards.ServiceLabelFollowsQueenBed` | components/room/RoomCard.tsx:80 | "Room Services" appears exactly when `queenBed` is nonzero, and a literal 0 exactly when it is zero |
| `RoomCards.RoomServiceFlagIgnored` | components/room/RoomCard.tsx:80 | a room with room service and no queen beds shows no "Room Services" label and shows a 0 |
| `RoomCards.FlagShownIffSet` | components/room/RoomCard.tsx:81-90 | TV, balcony, free wifi, the four views, air condition and sound proofing each appear exactly when the room has the flag; the room-service flag never has a flag label |
| `RoomCards.PriceLabelsShown` | components/room/RoomCard.tsx:94-95 | the room price is always shown, the breakfast price exactly when nonzero |
| `RoomCards.IntendedServiceLabelFollowsFlag` | components/room/RoomCard.tsx:80 | with the intended gate, "Room Services" appears exactly when the room has room service, no 0 is printed, and the flag labels are as before |
| `RoomCards.FooterOf` | components/room/RoomCard.tsx:100-130 | the delete and update controls are produced exactly when 'hotel-details' occurs nowhere in the path |
| `RoomCards.ToggledOpen` | components/room/RoomCard.tsx:34-36 | the updater always changes `open` |
| `RoomCards.ToggleTwiceRestores` | components/room/RoomCard.tsx:34-36 | applying the updater twice restores `open` |
| `RoomCards.DeletionOrder` | components/room/RoomCard.tsx:38-63 | the image delete, by the key after the last '/' of `room.image`, is sent first; the record delete is sent after it only if the image delete resolved, and not at all otherwise |
| `RoomCards.DeletedNoticeIffBothSucceed` | components/room/RoomCard.tsx:42-47 | "Room Deleted!" is shown exactly when both remote deletes succeed |
| `RoomCards.RoomCard.constructor` | components/room/RoomCard.tsx:24-31 | the card starts not loading, with the dialog closed and nothing logged |
| `RoomCards.RoomCard.HandleDialogueOpen` | components/room/RoomCard.tsx:34-36 | `open` is negated; nothing else changes |
| `RoomCards.RoomCard.SetOpen` | components/room/RoomCard.tsx:113 | the dialog's own open-change sets `open` |
| `RoomCards.RoomCard.HandleRoomDelete` | components/room/RoomCard.tsx:38-41 | `isLoading` becomes true and only the image delete is sent |
| `RoomCards.RoomCard.ImageDeleteSettled` | components/room/RoomCard.tsx:41-62 | a resolved image delete sends the record delete with loading still on; a rejected one ends loading with a failure toast and sends nothing |
| `RoomCards.RoomCard.RecordDeleteSettled` | components/room/RoomCard.tsx:42-55 | `isLoading` is false whether the record delete succeeded or failed |
| `RoomCards.RoomCard.DeleteClicked` | components/room/RoomCard.tsx:105 | an enabled delete runs the whole deletion, ending with `isLoading` false at each of the three terminal outcomes; a disabled one changes nothing |

## Left out

- HTTP, the router and toast rendering: requests, navigations and toasts are entries of a component's `log`. Remote outcomes are parameters. `console.log` is not modelled.
- React scheduling: a setter and the effect it triggers happen in one step. For example, `setImage` and the effect that copies the image into the form field happen together, so `Valid()` holds between method calls.
- The schema library and the form library. Values reach the model already parsed. `z.coerce.number` string coercion and the error message texts shown under the fields are not modelled: the model reports which fields are rejected, not what they say.
- Numbers are integers. JavaScript numbers, fractional prices included, are not modelled.
- Strings are sequences of characters. UTF-16 code units are not distinguished.
- The upload widget: only its completion and error callbacks are modelled.
- The country/state/city lookup and the effects that refresh the state and city lists (`components/hotel/AddHotelForm.tsx:116-132`).
- `Hotel.rooms` and the `bookings` prop: neither is read by the modelled logic.
- components/hotel/HotelDetailsClient.tsx and next.config.mjs are not part of this model. The first is rendering plus geographic lookup; the second is framework configuration.
- Label captions and icons: a label is its kind and its number.
- `HotelForm.AddHotelForm.ImageDeleteSettled` and the other callback methods do not require that their request is in flight. The source only runs a callback after its request was sent; the model lets a caller invoke one at any time.

## Findings

| source | as written | input that shows it | evidently intended | confidence | as-written member | corrected member |
|---|---|---|---|---|---|---|
| components/room/RoomCard.tsx:80 | `{room.queenBed && <Room Services>}`: the label follows the queen-bed count, and a count of 0 is printed as "0" | a room with `roomService` true and `queenBed` 0: no "Room Services", and a stray 0 in the grid | `{room.roomService && ...}`, like the other flags | high, not executed | `RoomCards.RoomServiceFlagIgnored` | `RoomCards.IntendedServiceLabelFollowsFlag` |
