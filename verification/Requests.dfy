/** JSON-RPC requests as a session reads them: actions, parameters, response codes, and which payloads
    count as failures (Session::HandleRequest, GetAction and TryParseQueue). */
module Requests {
  import opened Wrappers
  import opened Json
  import S = SongCacheSpec

  const OK := 0
  const NOT_SUPPORTED_ACTION := 11
  const MALFORMED_REQUEST := 12
  const FILESERVER_NOT_SET := 13
  const FILESERVER_UNREACHABLE := 55

  // ---------------------------------------------------------------------------------------------
  // Requests

  datatype ActionEnum = PLAY | PAUSE | NEXT | RESET | CLOSE | INITIALIZE | SEEK | VOLUME | UPDATE_QUEUE | NOT_SUPPORTED

  function GetAction(action: string): ActionEnum {
    if action == "PLAY" then PLAY
    else if action == "PAUSE" then PAUSE
    else if action == "NEXT" then NEXT
    else if action == "CLOSE" then CLOSE
    else if action == "RESET" then RESET
    else if action == "UPDATEQUEUE" then UPDATE_QUEUE
    else if action == "INITIALIZE" then INITIALIZE
    else if action == "VOLUME" then VOLUME
    else if action == "SEEK" then SEEK
    else NOT_SUPPORTED
  }

  predicate HasHeader(request: map<string, Json>) {
    HasString(request, "jsonrpc") && request["jsonrpc"].s == "2.0" && "id" in request
  }

  predicate HasParams(request: map<string, Json>) {
    "params" in request && request["params"].Object?
  }

  /** Which payloads count as failures: what is no object, and, of the requests with a proper header,
      those without a method, with an unknown one, or with one that only looks supported. */
  predicate Counted(payload: Option<Json>) {
    match payload
    case Some(Object(request)) =>
      HasHeader(request) &&
      (if HasString(request, "method") then
         var action := GetAction(request["method"].s);
         action == NOT_SUPPORTED || (action in {CLOSE, SEEK} && HasParams(request))
       else true)
    case _ => true
  }

  function IdOf(request: map<string, Json>): Json {
    if "id" in request then request["id"] else Null
  }

  predicate WellFormedItem(item: Json) {
    item.Object? && HasString(item.fields, "songId") && HasString(item.fields, "itemId")
  }

  /** The queue of the parameters is an array of well-formed items. */
  predicate HasQueue(payload: map<string, Json>) {
    && "queue" in payload && payload["queue"].Array?
    && forall i :: 0 <= i < |payload["queue"].items| ==> WellFormedItem(payload["queue"].items[i])
  }

  function QueueOf(payload: map<string, Json>): (queue: seq<S.QueueItem>)
    requires HasQueue(payload)
    ensures |queue| == |payload["queue"].items|
    ensures forall i :: 0 <= i < |queue| ==>
              var item := payload["queue"].items[i];
              && item.fields["songId"] == String(queue[i].songId) && item.fields["itemId"] == String(queue[i].itemId)
  {
    var items := payload["queue"].items;
    seq(|items|, i requires 0 <= i < |items| =>
      S.QueueItem(items[i].fields["songId"].s, items[i].fields["itemId"].s))
  }

  /** Which parameters hold a queue: an array of objects that each have two texts. */
  lemma QueueMeaning(payload: map<string, Json>)
    ensures HasQueue(payload) <==>
            && "queue" in payload && payload["queue"].Array?
            && forall item :: item in payload["queue"].items ==>
                 && item.Object?
                 && "songId" in item.fields && item.fields["songId"].String?
                 && "itemId" in item.fields && item.fields["itemId"].String?
  {
    if "queue" in payload && payload["queue"].Array? {
      var items := payload["queue"].items;
      assert forall i :: 0 <= i < |items| ==> items[i] in items;
    }
  }

  predicate VolumeOk(payload: map<string, Json>) {
    "volume" in payload && payload["volume"].Number? && 0 <= payload["volume"].n <= 100
  }

  /** TryParseQueue: all the items or none. */
  method TryParseQueue(payload: map<string, Json>) returns (r: Option<seq<S.QueueItem>>)
    ensures r == if HasQueue(payload) then Some(QueueOf(payload)) else None
  {
    if "queue" in payload && payload["queue"].Array? {
      var queue := payload["queue"].items;
      var outQueue: seq<S.QueueItem> := [];
      var i := 0;
      while i < |queue|
        invariant 0 <= i <= |queue| && |outQueue| == i
        invariant forall j :: 0 <= j < i ==>
                    WellFormedItem(queue[j]) &&
                    outQueue[j] == S.QueueItem(queue[j].fields["songId"].s, queue[j].fields["itemId"].s)
      {
        if WellFormedItem(queue[i]) {
          outQueue := outQueue + [S.QueueItem(queue[i].fields["songId"].s, queue[i].fields["itemId"].s)];
        } else {
          return None;
        }
        i := i + 1;
      }
      assert outQueue == QueueOf(payload);
      return Some(outQueue);
    }
    return None;
  }

  /** How an action with parameters is answered: without them it passes as done. `online` is the answer
      of the file server. */
  function ParamsCode(action: ActionEnum, request: map<string, Json>, hasCache: bool, online: bool): nat {
    if !HasParams(request) then OK
    else
      var payload := request["params"].fields;
      if action == UPDATE_QUEUE then
        if !hasCache then FILESERVER_NOT_SET else if HasQueue(payload) then OK else MALFORMED_REQUEST
      else if action == INITIALIZE then
        if !HasString(payload, "url") then MALFORMED_REQUEST else if online then OK else FILESERVER_UNREACHABLE
      else if action == VOLUME then if VolumeOk(payload) then OK else MALFORMED_REQUEST
      else NOT_SUPPORTED_ACTION
  }

  /** The code a request is answered with, by whether there was a cache before and is one after it. */
  function RightCode(request: map<string, Json>, hadCache: bool, hasCache: bool, online: bool): nat {
    if !HasHeader(request) || !HasString(request, "method") then MALFORMED_REQUEST
    else
      var action := GetAction(request["method"].s);
      if action == NOT_SUPPORTED then NOT_SUPPORTED_ACTION
      else if action in {PLAY, NEXT} then if hasCache then OK else FILESERVER_NOT_SET
      else if action == PAUSE then if hadCache then OK else FILESERVER_NOT_SET
      else if action == RESET then OK
      else ParamsCode(action, request, hadCache, online)
  }

  // ---------------------------------------------------------------------------------------------
  // Counting failures

  /** How many of the last payloads, one after the other, were counted as failures. */
  function Streak(judged: seq<bool>): nat {
    if judged == [] || !judged[|judged| - 1] then 0 else 1 + Streak(judged[..|judged| - 1])
  }

  lemma StreakPush(judged: seq<bool>, counted: bool)
    ensures Streak(judged + [counted]) == if counted then Streak(judged) + 1 else 0
  {
  }

  /** The streak is at least k exactly when the last k payloads were all counted. */
  lemma {:induction false} StreakMeaning(judged: seq<bool>, k: nat)
    ensures Streak(judged) >= k <==> k <= |judged| && forall i :: |judged| - k <= i < |judged| ==> judged[i]
  {
    if k > 0 && judged != [] {
      var before := judged[..|judged| - 1];
      StreakMeaning(before, k - 1);
      assert forall i :: 0 <= i < |before| ==> before[i] == judged[i];
    }
  }
}
