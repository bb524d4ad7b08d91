/**
 * The poll endpoint: a read-only lookup of a center's last message, answered
 * as plain text or, when a callback is given, as a JSONP call.
 */
module Ping {
  import opened Http

  /** A GET poll of a center, with an optional JSONP callback ("" for none). */
  function PollRequest(center: string, callback: string): Request
  {
    Request("GET", "", center, callback, "", "")
  }

  /**
   * handlePing. `marshal` is encoding/json's encoding of a Go string, which
   * the model leaves abstract.
   */
  function HandlePing(lastState: map<string, string>, r: Request, marshal: string -> string): (resp: Response)
    ensures resp.status == StatusOK || resp == NotFound()
    ensures resp.status == StatusOK <==> r.verb == "GET" && r.center != "" && r.center in lastState
    ensures resp.status == StatusOK && r.callback == "" ==>
              resp.contentType == TextPlain && resp.body == lastState[r.center]
    ensures resp.status == StatusOK && r.callback != "" ==>
              resp.contentType == "application/javascript; charset=utf-8"
              && resp.body == r.callback + "(" + marshal(lastState[r.center]) + ");"
  {
    if r.verb != "GET" then NotFound()
    else if r.center == "" || r.center !in lastState then NotFound()
    else if r.callback == "" then Response(StatusOK, TextPlain, lastState[r.center])
    else Response(StatusOK, "application/javascript; charset=utf-8",
                  r.callback + "(" + marshal(lastState[r.center]) + ");")
  }

  /** A poll after id's last message was set to msg returns exactly msg. */
  lemma PollAfterWrite(lastState: map<string, string>, id: string, msg: string, marshal: string -> string)
    requires id != ""
    ensures HandlePing(lastState[id := msg], PollRequest(id, ""), marshal) == Response(StatusOK, TextPlain, msg)
  {
  }

  /** A poll of an id no longer in the map is answered 404, with or without a callback. */
  lemma PollAfterDelete(lastState: map<string, string>, id: string, callback: string, marshal: string -> string)
    ensures HandlePing(lastState - {id}, PollRequest(id, callback), marshal) == NotFound()
  {
  }
}
