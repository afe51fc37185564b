/**
 * The messages of the remote-debugging protocol as the client sees them, the
 * tests the client applies to one inbound frame, and the search for the first
 * frame of a stream that a waiting loop accepts.
 */
module Protocol {
  import opened Wrappers
  import opened Text

  type Bytes = seq<bv8>

  /**
   * One inbound JSON frame, reduced to the members the client looks at.
   * A response carries `id` (and, for a screenshot, the base64-decoded
   * `result.data`); an event carries `method` (the field methodName) and, for
   * network events, `params.type` and `params.requestId`. `None` means the key is absent; a
   * frame without a `params` object has neither of the two `params` keys.
   */
  datatype Frame = Frame(
    id: Option<int>,
    methodName: Option<string>,
    resourceType: Option<string>,
    requestId: Option<string>,
    resultData: Option<Bytes>)

  /** The outbound envelope `{"id": id, "method": method, "params": params}`. */
  datatype Command = Command(id: nat, methodName: string, params: map<string, string>)

  /**
   * What can abort a protocol call: the socket closing under a pending read
   * (ConnectionLost), a key the client subscripts being absent (MissingField,
   * Python's KeyError), or no usable page target (EndpointNotFound).
   */
  datatype Error = ConnectionLost | MissingField(path: string) | EndpointNotFound

  /** How a navigation ends when one of its two terminal events arrives. */
  datatype Terminal = LoadFired | DocumentFailed

  /** What the navigation loop does with one frame. */
  datatype Verdict = Continue | Stop(how: Terminal) | Abort(error: Error)

  /** The frames the navigation loop appends to `network_events`. */
  predicate IsNetwork(f: Frame)
  {
    f.methodName.Some? && StartsWith(f.methodName.value, "Network")
  }

  /**
   * The terminal-condition tests of the navigation loop, in the order the
   * loop applies them. A `Network.loadingFailed` event is looked into with
   * subscripts, so a missing `params.type`, or a missing `params.requestId`
   * once the type is `Document`, raises.
   */
  function Classify(f: Frame): Verdict
  {
    match f.methodName
    case None => Continue
    case Some(m) =>
      if m == "Page.loadEventFired" then Stop(LoadFired)
      else if m == "Network.loadingFailed" then
        match f.resourceType
        case None => Abort(MissingField("params.type"))
        case Some(t) =>
          if t != "Document" then Continue
          else
            match f.requestId
            case None => Abort(MissingField("params.requestId"))
            case Some(rid) => if EndsWith(rid, ".1") then Stop(DocumentFailed) else Continue
      else Continue
  }

  /**
   * The loop ends on a load event, and on a main-document load failure; it
   * raises only on a `Network.loadingFailed` event; a frame without a method
   * never ends it.
   */
  lemma ClassifyTerminals(f: Frame)
    ensures Classify(f) == Stop(LoadFired) <==> f.methodName == Some("Page.loadEventFired")
    ensures Classify(f) == Stop(DocumentFailed) <==>
      f.methodName == Some("Network.loadingFailed") && f.resourceType == Some("Document") &&
      f.requestId.Some? && EndsWith(f.requestId.value, ".1")
    ensures Classify(f).Abort? ==> f.methodName == Some("Network.loadingFailed")
    ensures f.methodName.None? ==> Classify(f) == Continue
  {
  }

  /** What a read loop is waiting for. */
  datatype Matcher =
    | ById(cid: int)          // the reply to command `cid`
    | ByMethod(name: string)  // the first event of that name
    | NavigationEnd           // a frame that ends the navigation loop

  predicate Matches(f: Frame, m: Matcher)
  {
    match m
    case ById(cid) => f.id == Some(cid)
    case ByMethod(name) => f.methodName == Some(name)
    case NavigationEnd => !Classify(f).Continue?
  }

  /** `i` is the first position in `frames[lo..hi]` that `m` accepts. */
  predicate IsFirstIn(frames: seq<Frame>, lo: nat, hi: nat, i: nat, m: Matcher)
    requires hi <= |frames|
  {
    lo <= i < hi && Matches(frames[i], m) &&
    forall j :: lo <= j < i ==> !Matches(frames[j], m)
  }

  /** The position of the first frame of `frames[lo..hi]` that `m` accepts. */
  function FirstMatchIn(frames: seq<Frame>, lo: nat, hi: nat, m: Matcher): (r: Option<nat>)
    requires lo <= hi <= |frames|
    ensures r.Some? ==> IsFirstIn(frames, lo, hi, r.value, m)
    ensures r.None? ==> forall j :: lo <= j < hi ==> !Matches(frames[j], m)
    decreases hi - lo
  {
    if lo == hi then None
    else if Matches(frames[lo], m) then Some(lo)
    else FirstMatchIn(frames, lo + 1, hi, m)
  }

  /** The outcome of a read loop and the position of the next unread frame. */
  datatype Read = Read(result: Result<Frame, Error>, next: nat)

  /**
   * A loop that reads from position `pos` until `m` accepts a frame: it
   * returns that frame and leaves everything after it unread; if the stream
   * ends first, the connection is lost and every frame has been consumed.
   */
  function AwaitReply(frames: seq<Frame>, pos: nat, m: Matcher): (r: Read)
    requires pos <= |frames|
    ensures pos <= r.next <= |frames|
    ensures r.result.Ok? ==>
      pos < r.next && r.result.value == frames[r.next - 1] && IsFirstIn(frames, pos, |frames|, r.next - 1, m)
    ensures r.result.Err? ==>
      r.result.error == ConnectionLost && r.next == |frames| &&
      forall j :: pos <= j < |frames| ==> !Matches(frames[j], m)
  {
    match FirstMatchIn(frames, pos, |frames|, m)
    case Some(i) => Read(Ok(frames[i]), i + 1)
    case None => Read(Err(ConnectionLost), |frames|)
  }

  /** The first-match position is unique: whatever satisfies it is what the search finds. */
  lemma FirstMatchInIs(frames: seq<Frame>, lo: nat, hi: nat, i: nat, m: Matcher)
    requires lo <= hi <= |frames| && IsFirstIn(frames, lo, hi, i, m)
    ensures FirstMatchIn(frames, lo, hi, m) == Some(i)
  {
  }

  /**
   * Interleaving invariance: frames that the waiter does not accept, put in
   * front of the stream, change neither the answer nor what is left unread
   * after it; they are only consumed.
   */
  lemma AwaitSkipsUnrelated(noise: seq<Frame>, rest: seq<Frame>, m: Matcher)
    requires forall i :: 0 <= i < |noise| ==> !Matches(noise[i], m)
    ensures AwaitReply(noise + rest, 0, m) ==
      Read(AwaitReply(rest, 0, m).result, |noise| + AwaitReply(rest, 0, m).next)
  {
    var all := noise + rest;
    var r := AwaitReply(rest, 0, m);
    if r.result.Ok? {
      var k := r.next - 1;
      assert all[|noise| + k] == rest[k];
      forall j | 0 <= j < |noise| + k ensures !Matches(all[j], m) {
        if j >= |noise| {
          assert all[j] == rest[j - |noise|];
        }
      }
      FirstMatchInIs(all, 0, |all|, |noise| + k, m);
    } else {
      forall j | 0 <= j < |all| ensures !Matches(all[j], m) {
        if j >= |noise| {
          assert all[j] == rest[j - |noise|];
        }
      }
    }
  }

  /** A waiter whose first accepted frame is at `i` returns it and leaves `i + 1` as the next unread position. */
  lemma AwaitReplyAt(frames: seq<Frame>, pos: nat, i: nat, m: Matcher)
    requires pos <= |frames| && IsFirstIn(frames, pos, |frames|, i, m)
    ensures AwaitReply(frames, pos, m) == Read(Ok(frames[i]), i + 1)
  {
    FirstMatchInIs(frames, pos, |frames|, i, m);
  }
}
