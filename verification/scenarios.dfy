/**
 * Client runs of the registry, written against the contracts alone: the
 * publish/poll/remove round of one publisher, and an expiry timer that
 * outlives its center.
 */
module Scenarios {
  import opened Keys
  import opened Http
  import opened Notifications
  import Ping

  /**
   * alice creates "inbox", notifies "hello", a stranger's notify is refused,
   * alice removes the center, and polls see "", then "hello", then 404.
   */
  method InboxRound(aliceKey: PublicKey, verify: Verifier, marshal: string -> string,
                    sigNew: string, sigHello: string, sigRemove: string, strangerSig: string)
    returns (created: Response, poll1: Response, notified: Response, poll2: Response,
             intruder: Response, removed: Response, poll3: Response)
    requires verify(aliceKey, "inbox", sigNew)
    requires verify(aliceKey, "hello", sigHello)
    requires verify(aliceKey, "inbox", sigRemove)
    ensures created == Response(StatusCreated, TextPlain, "alice____inbox")
    ensures poll1 == Response(StatusOK, TextPlain, "")
    ensures notified.status == StatusOK
    ensures poll2 == Response(StatusOK, TextPlain, "hello")
    ensures intruder == Unauthorized()
    ensures removed.status == StatusOK
    ensures poll3 == NotFound()
  {
    var keyOf: string -> Option<PublicKey> := mail => if mail == "alice" then Some(aliceKey) else None;
    var svc := new GoPushService(0);

    created := svc.HandleNewCenter(Request("POST", "alice", "", "", AuthName + sigNew, "inbox"), keyOf, verify);
    assert CenterName("alice", "inbox") == "alice____inbox";
    poll1 := Ping.HandlePing(svc.lastState, Ping.PollRequest("alice____inbox", ""), marshal);

    notified := svc.HandleNotify(Request("POST", "alice", "inbox", "", AuthName + sigHello, "hello"), keyOf, verify);
    poll2 := Ping.HandlePing(svc.lastState, Ping.PollRequest("alice____inbox", ""), marshal);

    intruder := svc.HandleNotify(Request("POST", "mallory", "inbox", "", AuthName + strangerSig, "spam"), keyOf, verify);

    removed := svc.HandleRemoveCenter(Request("POST", "alice", "", "", AuthName + sigRemove, "inbox"), keyOf, verify);
    poll3 := Ping.HandlePing(svc.lastState, Ping.PollRequest("alice____inbox", ""), marshal);
  }

  /**
   * The expiry check is by id only: a center removed by hand and created
   * again is removed by the first center's timer, well before its own
   * timeout.
   */
  method StaleTimerRemovesRecreatedCenter() returns (presentBefore: bool, presentAfter: bool)
    ensures presentBefore && !presentAfter
  {
    var svc := new GoPushService(60);
    var id := svc.CreateCenter("alice", "inbox");
    svc.RemoveCenter("alice", "inbox");
    id := svc.CreateCenter("alice", "inbox");
    presentBefore := id in svc.lastState;
    svc.Expire(Timer("alice", "inbox"));
    presentAfter := id in svc.lastState;
  }
}
