/** The attendee roster screen's controller: paginated, searchable list state
    and the optimistic check-in with its rollback. Each load and each check-in
    runs as one step given the answer the network returned. */
module AttendeeList {
  import opened Api
  import opened Requests

  /** Page size the screen asks for. */
  const Limit: int := 20

  /** The message shown when a page cannot be loaded. */
  const LoadFailedMessage: string := "Falha ao carregar participantes."

  // ---------------------------------------------------------------------------
  // Pure list transforms.

  /** Index of the first attendee with the given id. */
  function FirstIndexOf(data: seq<Attendee>, id: string): (r: Option<nat>)
    ensures r.Some? ==> r.value < |data| && data[r.value].id == id
    ensures r.Some? ==> forall j :: 0 <= j < r.value ==> data[j].id != id
    ensures r.None? ==> forall j :: 0 <= j < |data| ==> data[j].id != id
  {
    if data == [] then None
    else if data[0].id == id then Some(0)
    else
      match FirstIndexOf(data[1..], id)
      case None => None
      case Some(i) => Some(i + 1)
  }

  /** Array `find` by id: the first attendee whose id matches, if any. */
  function FindById(data: seq<Attendee>, id: string): (r: Option<Attendee>)
    ensures r.Some? ==> r.value in data && r.value.id == id
    ensures r.None? <==> forall a :: a in data ==> a.id != id
    ensures r.Some? ==> exists i :: 0 <= i < |data| && data[i] == r.value
                                    && forall j :: 0 <= j < i ==> data[j].id != id
  {
    match FirstIndexOf(data, id)
    case None => None
    case Some(i) => Some(data[i])
  }

  /** The per-id map over the list that sets `checkedInAt` on matching attendees:
      the optimistic update (with a timestamp) and the rollback (with `undefined`). */
  function SetCheckedIn(data: seq<Attendee>, id: string, at: Option<string>): (r: seq<Attendee>)
    ensures |r| == |data|
    ensures forall i :: 0 <= i < |data| ==> r[i] == data[i].(checkedInAt := r[i].checkedInAt)
    ensures forall i :: 0 <= i < |data| && data[i].id == id ==> r[i].checkedInAt == at
    ensures forall i :: 0 <= i < |data| && data[i].id != id ==> r[i] == data[i]
  {
    seq(|data|, i requires 0 <= i < |data| =>
      if data[i].id == id then data[i].(checkedInAt := at) else data[i])
  }

  /** After the optimistic update every attendee with the id reads as present,
      and `find` now reports it as present. */
  lemma OptimisticMarksPresent(data: seq<Attendee>, id: string, now: string)
    requires now != ""
    ensures forall i :: 0 <= i < |data| && data[i].id == id ==> Present(SetCheckedIn(data, id, Some(now))[i])
    ensures FindById(data, id).Some? ==>
              var found := FindById(SetCheckedIn(data, id, Some(now)), id);
              found.Some? && Present(found.value)
  {
    var r := SetCheckedIn(data, id, Some(now));
    match FirstIndexOf(data, id)
    case None =>
    case Some(i) =>
      var j := FirstIndexOf(r, id);
      assert j.Some? by { assert r[i].id == id; }
  }

  /** Rolling back after the optimistic update leaves every attendee with the
      id absent and every other attendee as it was before the check-in. */
  lemma RollbackAfterOptimistic(data: seq<Attendee>, id: string, now: string)
    ensures var rolled := SetCheckedIn(SetCheckedIn(data, id, Some(now)), id, None);
            && |rolled| == |data|
            && (forall i :: 0 <= i < |data| && data[i].id == id ==> !Present(rolled[i]))
            && (forall i :: 0 <= i < |data| && data[i].id != id ==> rolled[i] == data[i])
            && rolled == SetCheckedIn(data, id, None)
  {
  }

  /** When no attendee with the id had any timestamp, the rollback restores the
      list exactly. */
  lemma RollbackRestores(data: seq<Attendee>, id: string, now: string)
    requires forall i :: 0 <= i < |data| && data[i].id == id ==> data[i].checkedInAt == None
    ensures SetCheckedIn(SetCheckedIn(data, id, Some(now)), id, None) == data
  {
    var rolled := SetCheckedIn(SetCheckedIn(data, id, Some(now)), id, None);
    assert forall i :: 0 <= i < |data| ==> rolled[i] == data[i];
  }

  // ---------------------------------------------------------------------------
  // The controller.

  /** What the user is told after tapping an attendee. */
  datatype CheckinOutcome =
    | NotListed                     // no attendee with that id: nothing happens
    | AlreadyPresentSince(at: string)  // "Já presente" with the recorded time
    | Cancelled                     // the confirmation was dismissed
    | CheckedIn                     // the server accepted: no message
    | AlreadyPresent                // the server answered 409
    | CheckinFailed                 // any other failure: "Erro"

  class AttendeesController {
    const eventId: string
    /** The form encoder that `URLSearchParams.toString` applies. */
    const enc: string -> string

    var loading: bool
    var error: string
    var search: string
    var data: seq<Attendee>
    var page: int
    var total: int
    var refreshing: bool

    /** Pages are numbered from 1. */
    ghost predicate Valid()
      reads this
    {
      page >= 1
    }

    /** A freshly mounted screen: loading, no error, empty search, no items,
        page 1, total 0, not refreshing. */
    constructor(eventId: string, enc: string -> string)
      ensures Valid()
      ensures this.eventId == eventId && this.enc == enc
      ensures loading && error == "" && search == "" && data == []
      ensures page == 1 && total == 0 && !refreshing
    {
      this.eventId := eventId;
      this.enc := enc;
      loading := true;
      error := "";
      search := "";
      data := [];
      page := 1;
      total := 0;
      refreshing := false;
    }

    /** The server holds more attendees than the list does: some remain
        to be fetched. */
    function CanLoadMore(): (more: bool)
      reads this
      ensures more <==> total - |data| > 0
      ensures more ==> total > 0
    {
      |data| < total
    }

    /** The part of `load(reset)` before the request is awaited. A reset goes
        back to page 1 and empties the list; the loading flag follows the page
        the screen was on when `load` was called. The request is for page 1 on
        a reset and for the current page otherwise. */
    method BeginLoad(reset: bool) returns (req: Request)
      requires Valid()
      modifies this
      ensures Valid()
      ensures req == GetAttendees(enc, eventId, search, if reset then 1 else old(page), Limit)
      ensures page == (if reset then 1 else old(page))
      ensures data == (if reset then [] else old(data))
      ensures error == "" && loading == (old(page) == 1)
      ensures total == old(total) && refreshing == old(refreshing) && search == old(search)
    {
      var current := page;
      if reset {
        page := 1;
        data := [];
      }
      error := "";
      loading := current == 1;
      req := GetAttendees(enc, eventId, search, if reset then 1 else current, Limit);
    }

    /** The part of `load(reset)` after the answer arrives. On success the total
        is the server's and the items are the page (reset) or the old items
        followed by the page; on failure the error message is set and items and
        total stay. Either way nothing is loading or refreshing afterwards. */
    method FinishLoad(reset: bool, res: Response<AttendeesResponse>)
      requires Valid()
      modifies this
      ensures Valid()
      ensures !loading && !refreshing
      ensures page == old(page) && search == old(search)
      ensures res.Ok? ==> && total == res.body.total
                          && data == (if reset then res.body.data else old(data) + res.body.data)
                          && error == old(error)
      ensures !res.Ok? ==> total == old(total) && data == old(data) && error == LoadFailedMessage
    {
      if res.Ok? {
        total := res.body.total;
        data := if reset then res.body.data else data + res.body.data;
      } else {
        error := LoadFailedMessage;
      }
      loading := false;
      refreshing := false;
    }

    /** `load(reset)` as one step: the request it sends and the state it leaves. */
    method Load(reset: bool, res: Response<AttendeesResponse>) returns (req: Request)
      requires Valid()
      modifies this
      ensures Valid()
      ensures req == GetAttendees(enc, eventId, search, if reset then 1 else old(page), Limit)
      ensures page == (if reset then 1 else old(page)) && search == old(search)
      ensures !loading && !refreshing
      ensures res.Ok? ==> && total == res.body.total && error == ""
                          && data == (if reset then res.body.data else old(data) + res.body.data)
      ensures res.Ok? && !reset ==> old(data) <= data
      ensures !res.Ok? ==> && total == old(total) && error == LoadFailedMessage
                           && data == (if reset then [] else old(data))
    {
      req := BeginLoad(reset);
      FinishLoad(reset, res);
    }

    /** `onRefresh`: raise the refreshing flag and reload from page 1. */
    method OnRefresh(res: Response<AttendeesResponse>) returns (req: Request)
      requires Valid()
      modifies this
      ensures Valid()
      ensures req == GetAttendees(enc, eventId, search, 1, Limit)
      ensures page == 1 && search == old(search) && !loading && !refreshing
      ensures res.Ok? ==> data == res.body.data && total == res.body.total && error == ""
      ensures !res.Ok? ==> data == [] && total == old(total) && error == LoadFailedMessage
    {
      refreshing := true;
      req := Load(true, res);
    }

    /** `onEndReached`: ask for the next page only while more items exist than
        are held and the `loading` flag is false. That flag is false during
        every append, so the page can advance again while one is in flight. */
    method OnEndReached() returns (advanced: bool)
      requires Valid()
      modifies this
      ensures Valid()
      ensures advanced <==> old(CanLoadMore()) && !old(loading)
      ensures page == old(page) + (if advanced then 1 else 0)
      ensures advanced ==> page > 1
      ensures data == old(data) && total == old(total) && loading == old(loading)
      ensures error == old(error) && search == old(search) && refreshing == old(refreshing)
    {
      advanced := CanLoadMore() && !loading;
      if advanced {
        page := page + 1;
      }
    }

    /** The effect that runs when the page number changes: a load that resets
        only when the new page is the first. */
    method OnPageChange(res: Response<AttendeesResponse>) returns (req: Request)
      requires Valid()
      modifies this
      ensures Valid()
      ensures req == GetAttendees(enc, eventId, search, old(page), Limit)
      ensures page == old(page) && search == old(search) && !loading && !refreshing
      ensures res.Ok? ==> total == res.body.total && error == ""
      ensures res.Ok? && old(page) != 1 ==> data == old(data) + res.body.data
      ensures res.Ok? && old(page) == 1 ==> data == res.body.data
      ensures !res.Ok? ==> && total == old(total) && error == LoadFailedMessage
                           && data == (if old(page) == 1 then [] else old(data))
    {
      req := Load(page == 1, res);
    }

    /** Typing in the search box, then the effect that runs on a new search
        term: a reset load for the new term. */
    method OnSearchChange(text: string, res: Response<AttendeesResponse>) returns (req: Request)
      requires Valid()
      modifies this
      ensures Valid()
      ensures search == text
      ensures req == GetAttendees(enc, eventId, text, 1, Limit)
      ensures page == 1 && !loading && !refreshing
      ensures res.Ok? ==> data == res.body.data && total == res.body.total && error == ""
      ensures !res.Ok? ==> data == [] && total == old(total) && error == LoadFailedMessage
    {
      search := text;
      req := Load(true, res);
    }

    /** `handleCheckin(id)` through to the end of the request. An unknown id and
        an attendee already present send nothing and change nothing, and so does
        a dismissed confirmation. Otherwise the attendees with the id are marked
        present at `now`, one check-in request goes out, and the mark stays on
        success or 409 but is cleared on any other failure. */
    method HandleCheckin(attendeeId: string, confirmed: bool, now: string,
                         res: Response<CheckinResponse>)
      returns (outcome: CheckinOutcome, req: Option<Request>)
      requires Valid()
      requires now != ""
      modifies this`data
      ensures Valid()
      ensures var found := FindById(old(data), attendeeId);
              && (found.None? ==> outcome == NotListed)
              && (found.Some? && Present(found.value) ==>
                    outcome == AlreadyPresentSince(found.value.checkedInAt.value))
              && (found.Some? && !Present(found.value) && !confirmed ==> outcome == Cancelled)
      ensures var found := FindById(old(data), attendeeId);
              var proceeds := found.Some? && !Present(found.value) && confirmed;
              && (!proceeds ==> req == None && data == old(data))
              && (proceeds ==> req == Some(PostCheckin(eventId, CheckinRequest(attendeeId))))
              && (proceeds && res.Ok? ==> outcome == CheckedIn)
              && (proceeds && IsConflict(res) ==> outcome == AlreadyPresent)
              && (proceeds && !res.Ok? && !IsConflict(res) ==> outcome == CheckinFailed)
              && (proceeds && (res.Ok? || IsConflict(res)) ==>
                    data == SetCheckedIn(old(data), attendeeId, Some(now)))
              && (proceeds && !res.Ok? && !IsConflict(res) ==>
                    data == SetCheckedIn(SetCheckedIn(old(data), attendeeId, Some(now)), attendeeId, None))
    {
      var found := FindById(data, attendeeId);
      if found.None? {
        return NotListed, None;
      }
      var item := found.value;
      if Present(item) {
        return AlreadyPresentSince(item.checkedInAt.value), None;
      }
      if !confirmed {
        return Cancelled, None;
      }
      data := SetCheckedIn(data, attendeeId, Some(now));
      req := Some(PostCheckin(eventId, CheckinRequest(attendeeId)));
      if res.Ok? {
        outcome := CheckedIn;
      } else if IsConflict(res) {
        outcome := AlreadyPresent;
      } else {
        data := SetCheckedIn(data, attendeeId, None);
        outcome := CheckinFailed;
      }
    }
  }

  /** A roster of 45 read twenty at a time: 20, then 40, then 45 items, after
      which the end of the list asks for nothing more. */
  method PagingScenario(eventId: string, enc: string -> string, term: string,
                        full: seq<Attendee>, rest: seq<Attendee>)
    requires |full| == 20 && |rest| == 5
  {
    var c := new AttendeesController(eventId, enc);
    var first := Ok(AttendeesResponse(full, 1, 20, 45));
    var second := Ok(AttendeesResponse(full, 2, 20, 45));
    var third := Ok(AttendeesResponse(rest, 3, 20, 45));
    var _ := c.OnSearchChange(term, first);
    assert |c.data| == 20;
    var more := c.OnEndReached();
    assert more && c.page == 2;
    var _ := c.OnPageChange(second);
    assert |c.data| == 40;
    more := c.OnEndReached();
    assert more && c.page == 3;
    var _ := c.OnPageChange(third);
    assert |c.data| == 45;
    more := c.OnEndReached();
    assert !more && c.page == 3;
  }
}
