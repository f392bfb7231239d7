/**
 * The web lab page: it picks the room to show, submits flags for it and
 * stops the session. Remote calls resolve atomically: their outcome is a
 * parameter of the handler.
 */
module WebLab {
  import opened JsText

  /** The fields of a listed room the page reads; a missing field is `None`. */
  datatype WebRoom = WebRoom(id: string, title: string, labType: Option<string>, webAppUrl: Option<string>)

  predicate IsWebRoom(r: WebRoom) {
    r.labType == Some("web")
  }

  /** `rooms[k]` is a web room and none before it is. */
  predicate FirstWebAt(rooms: seq<WebRoom>, k: nat) {
    k < |rooms| && IsWebRoom(rooms[k]) && forall j | 0 <= j < k :: !IsWebRoom(rooms[j])
  }

  /** `rooms.find(r => r.lab_type === 'web')`. */
  function FirstWebRoom(rooms: seq<WebRoom>): (r: Option<WebRoom>)
    ensures r.None? <==> forall k | 0 <= k < |rooms| :: !IsWebRoom(rooms[k])
    ensures r.Some? ==> exists k: nat :: FirstWebAt(rooms, k) && rooms[k] == r.value
  {
    if rooms == [] then None
    else if IsWebRoom(rooms[0]) then
      assert FirstWebAt(rooms, 0);
      Some(rooms[0])
    else
      var r := FirstWebRoom(rooms[1..]);
      if r.Some? then
        var k: nat :| FirstWebAt(rooms[1..], k) && rooms[1..][k] == r.value;
        assert FirstWebAt(rooms, k + 1) by {
          forall j | 0 <= j < k + 1 ensures !IsWebRoom(rooms[j]) {
            if j > 0 { assert rooms[j] == rooms[1..][j - 1]; }
          }
        }
        r
      else
        assert forall k | 1 <= k < |rooms| :: rooms[k] == rooms[1..][k - 1];
        r
  }

  /** `web_app_url || 'about:blank'`. */
  function UrlOf(r: WebRoom): (url: string)
    ensures url != ""
    ensures r.webAppUrl.Some? && r.webAppUrl.value != "" ==> url == r.webAppUrl.value
    ensures (r.webAppUrl.None? || r.webAppUrl.value == "") ==> url == "about:blank"
  {
    if r.webAppUrl.Some? && r.webAppUrl.value != "" then r.webAppUrl.value else "about:blank"
  }

  /** The verdict of the flag submission, or a thrown error. */
  datatype SubmitReply = Verdict(correct: bool) | SubmitFailed

  class WebLabView {
    const sessionId: string
    var room: Option<WebRoom>
    var flag: string
    var submitting: bool
    var webAppUrl: string
    /** (room id, flag) pairs sent to the flag endpoint, in order. */
    var submissions: seq<(string, string)>
    /** Session ids sent to the stop endpoint, in order. */
    var stopCalls: seq<string>
    /** Set when the page assigns `window.location.href`. */
    var location: Option<string>

    constructor (sessionId: string)
      ensures this.sessionId == sessionId
      ensures room == None && flag == "" && !submitting && webAppUrl == ""
      ensures submissions == [] && stopCalls == [] && location == None
    {
      this.sessionId := sessionId;
      room := None;
      flag := "";
      submitting := false;
      webAppUrl := "";
      submissions := [];
      stopCalls := [];
      location := None;
    }

    /**
     * `fetchLabInfo`, given the listed rooms or `None` when listing failed.
     * The room is the first web room, whatever the session is.
     */
    method FetchLabInfo(rooms: Option<seq<WebRoom>>)
      modifies this`room, this`webAppUrl
      ensures rooms.Some? && FirstWebRoom(rooms.value).Some? ==>
        room == FirstWebRoom(rooms.value) && webAppUrl == UrlOf(room.value)
      ensures rooms.None? || FirstWebRoom(rooms.value).None? ==> room == old(room) && webAppUrl == old(webAppUrl)
    {
      if rooms.None? {
        return;
      }
      var webRoom := FirstWebRoom(rooms.value);
      if webRoom.Some? {
        room := webRoom;
        webAppUrl := UrlOf(webRoom.value);
      }
    }

    /**
     * `handleSubmitFlag`: nothing is sent for a blank flag or before a room is
     * known. After any verdict the field is cleared; after a thrown error it
     * keeps the flag for another try.
     */
    method HandleSubmitFlag(reply: SubmitReply)
      modifies this`flag, this`submitting, this`submissions
      ensures AllSpace(old(flag)) || room.None? ==>
        flag == old(flag) && submitting == old(submitting) && submissions == old(submissions)
      ensures !AllSpace(old(flag)) && room.Some? ==>
        && submissions == old(submissions) + [(room.value.id, old(flag))]
        && !submitting
        && flag == (if reply.Verdict? then "" else old(flag))
    {
      if AllSpace(flag) || room.None? {
        return;
      }
      submitting := true;
      submissions := submissions + [(room.value.id, flag)];
      if reply.Verdict? {
        flag := "";
      }
      submitting := false;
    }

    /** `handleStopLab`: one stop call; only a successful stop leaves for the dashboard. */
    method HandleStopLab(stopped: bool)
      modifies this`stopCalls, this`location
      ensures stopCalls == old(stopCalls) + [sessionId]
      ensures location == if stopped then Some("/dashboard") else old(location)
    {
      stopCalls := stopCalls + [sessionId];
      if stopped {
        location := Some("/dashboard");
      }
    }
  }
}
