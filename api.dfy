/**
 * What the components send and show.  Remote calls are `Request` values and
 * their outcomes are passed in by the caller; every component keeps a log of
 * the effects it has caused, in order: requests sent, toasts shown, router
 * navigation, and calls of the dialog-toggle callback it was given.
 */
module Api {
  import opened Wrappers
  import Hotels
  import Rooms

  datatype Verb = Post | Patch | Delete

  datatype Body =
    | NoBody
    | HotelBody(hotel: Hotels.HotelValues)
    | RoomBody(room: Rooms.RoomValues, hotelId: Option<string>)  // `hotelId` is the key spread into the values, if any
    | ImageKeyBody(imageKey: string)

  datatype Request = Request(verb: Verb, path: string, body: Body)

  datatype Variant = Success | Destructive

  /** A toast: its variant and its description. */
  datatype Notice = Notice(variant: Variant, description: string)

  datatype Effect =
    | Send(request: Request)
    | Toast(notice: Notice)
    | Push(path: string)   // router.push
    | Refresh              // router.refresh
    | ToggleDialog         // a call of the `handleDalogueOpen` callback

  /** How the image-delete endpoint answered: a response whose `success` flag is given, or a rejected promise. */
  datatype DeleteResponse = Resolved(success: bool) | Rejected

  /** How a create or update request ended: with the saved record's id, or rejected. */
  datatype SaveOutcome = Saved(id: string) | Failed

  const ImageDeletePath: string := "/api/uploadthing/delete"

  /** `axios.post('/api/uploadthing/delete', {imageKey})`. */
  function ImageDeleteRequest(imageKey: string): Request
  {
    Request(Post, ImageDeletePath, ImageKeyBody(imageKey))
  }

  /** The requests in a log, in the order they were sent. */
  function Sends(log: seq<Effect>): (rs: seq<Request>)
    ensures |rs| <= |log|
    ensures forall r :: r in rs <==> Send(r) in log
  {
    if log == [] then []
    else (if log[0].Send? then [log[0].request] else []) + Sends(log[1..])
  }

  lemma {:induction false} SendsAppend(a: seq<Effect>, b: seq<Effect>)
    ensures Sends(a + b) == Sends(a) + Sends(b)
  {
    if a == [] {
      assert a + b == b;
    } else {
      assert (a + b)[1..] == a[1..] + b;
      SendsAppend(a[1..], b);
    }
  }

  /** A log with no request in it sends nothing. */
  lemma {:induction false} SendsNone(log: seq<Effect>)
    requires forall i :: 0 <= i < |log| ==> !log[i].Send?
    ensures Sends(log) == []
  {
    if log != [] {
      SendsNone(log[1..]);
    }
  }

  /** The toasts of the form's `handleImageDelete`: shown on a confirmed removal and on a rejection, none otherwise. */
  function ImageRemovalNotices(resp: DeleteResponse): (log: seq<Effect>)
    ensures Sends(log) == []
    ensures |log| == (if resp == Resolved(false) then 0 else 1)
    ensures forall e :: e in log ==> e.Toast?
    ensures resp == Resolved(true) ==> log[0].notice.variant == Success
    ensures resp.Rejected? ==> log[0].notice.variant == Destructive
  {
    match resp
    case Resolved(true) => [Toast(Notice(Success, "Image removed."))]
    case Resolved(false) => []
    case Rejected => [Toast(Notice(Destructive, "Something went wrong"))]
  }
}
