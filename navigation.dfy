/**
 * What a navigation does to the inbound stream, stated on values: which
 * frames it records, where it stops and why, and the result a whole session
 * (enable, enable, navigate, capture) produces from a given stream.
 */
module Navigation {
  import opened Wrappers
  import opened Text
  import opened Protocol

  /** The frames of `frames` that the navigation loop appends, in arrival order. */
  function NetworkFilter(frames: seq<Frame>): (r: seq<Frame>)
    ensures |r| <= |frames|
    ensures forall i :: 0 <= i < |r| ==> IsNetwork(r[i])
  {
    if frames == [] then []
    else
      var last := frames[|frames| - 1];
      NetworkFilter(frames[..|frames| - 1]) + (if IsNetwork(last) then [last] else [])
  }

  lemma {:induction false} NetworkFilterAppend(a: seq<Frame>, b: seq<Frame>)
    ensures NetworkFilter(a + b) == NetworkFilter(a) + NetworkFilter(b)
    decreases |b|
  {
    if b == [] {
      assert a + b == a;
    } else {
      var b' := b[..|b| - 1];
      assert (a + b)[..|a + b| - 1] == a + b';
      NetworkFilterAppend(a, b');
    }
  }

  /** A frame is recorded exactly when it was consumed and its method names the Network domain. */
  lemma {:induction false} NetworkFilterMembers(frames: seq<Frame>, f: Frame)
    ensures f in NetworkFilter(frames) <==> f in frames && IsNetwork(f)
  {
    if frames != [] {
      var init := frames[..|frames| - 1];
      assert frames == init + [frames[|frames| - 1]];
      NetworkFilterMembers(init, f);
    }
  }

  /** One step of the recording: the filter of a window grown by one frame. */
  lemma NetworkFilterExtend(frames: seq<Frame>, lo: nat, hi: nat)
    requires lo <= hi < |frames|
    ensures NetworkFilter(frames[lo..hi + 1]) ==
      NetworkFilter(frames[lo..hi]) + (if IsNetwork(frames[hi]) then [frames[hi]] else [])
  {
    assert frames[lo..hi + 1][..hi - lo] == frames[lo..hi];
  }

  /** A non-empty window is its first frame followed by the rest. */
  lemma SplitFirst(frames: seq<Frame>, lo: nat, hi: nat)
    requires lo < hi <= |frames|
    ensures frames[lo..hi] == [frames[lo]] + frames[lo + 1..hi]
  {
    assert frames[lo..hi][1..] == frames[lo + 1..hi];
  }

  /** How a navigation ended. */
  datatype NavStatus = Completed(how: Terminal) | TimedOut | Failed(error: Error)

  /** A navigation's status, the events it recorded and the next unread position. */
  datatype NavRun = NavRun(status: NavStatus, events: seq<Frame>, next: nat)

  /** A run that follows the already recorded `events`. */
  function Resume(events: seq<Frame>, run: NavRun): NavRun
  {
    NavRun(run.status, events + run.events, run.next)
  }

  /** The status a frame that ends the loop gives the navigation. */
  function StopStatus(v: Verdict): NavStatus
    requires !v.Continue?
  {
    if v.Stop? then Completed(v.how) else Failed(v.error)
  }

  /**
   * `Client.record_navigation` from position `pos`, under a timeout that
   * fires once `budget` frames have been read, frame by frame as its loop
   * runs: a frame is recorded when it is a Network event, then it either
   * ends the loop or the loop reads on; reading past the end of the stream
   * loses the connection.
   */
  function NavigationOutcome(frames: seq<Frame>, pos: nat, budget: nat): (run: NavRun)
    requires pos <= |frames|
    ensures pos <= run.next <= |frames| && run.next <= pos + budget
    ensures forall i :: 0 <= i < |run.events| ==> IsNetwork(run.events[i])
    decreases budget
  {
    if budget == 0 then NavRun(TimedOut, [], pos)
    else if pos == |frames| then NavRun(Failed(ConnectionLost), [], pos)
    else
      var f := frames[pos];
      var recorded := if IsNetwork(f) then [f] else [];
      if Classify(f).Continue? then Resume(recorded, NavigationOutcome(frames, pos + 1, budget - 1))
      else NavRun(StopStatus(Classify(f)), recorded, pos + 1)
  }

  /**
   * One turn of the loop on a frame that lets it go on: the frame joins the
   * recorded events when it is a Network event, and the rest of the run
   * follows from the next frame with one frame less of budget.
   */
  lemma NavigationContinues(frames: seq<Frame>, pos: nat, budget: nat, events: seq<Frame>)
    requires pos < |frames| && 0 < budget && Classify(frames[pos]).Continue?
    ensures Resume(events, NavigationOutcome(frames, pos, budget)) ==
      Resume(events + (if IsNetwork(frames[pos]) then [frames[pos]] else []),
             NavigationOutcome(frames, pos + 1, budget - 1))
  {
    var recorded := if IsNetwork(frames[pos]) then [frames[pos]] else [];
    var rest := NavigationOutcome(frames, pos + 1, budget - 1);
    assert events + (recorded + rest.events) == (events + recorded) + rest.events;
  }

  /**
   * The same navigation described by where it stops: at the first frame of
   * the budget window that ends the loop; without one, on the timeout when
   * the window is full, or on the lost connection when the stream is
   * shorter. The events are the Network frames among those consumed.
   */
  function FirstTerminalOutcome(frames: seq<Frame>, pos: nat, budget: nat): (run: NavRun)
    requires pos <= |frames|
    ensures pos <= run.next <= |frames| && run.next <= pos + budget
    ensures run.events == NetworkFilter(frames[pos..run.next])
  {
    var hi := if pos + budget <= |frames| then pos + budget else |frames|;
    match FirstMatchIn(frames, pos, hi, NavigationEnd)
    case Some(i) =>
      NavRun(StopStatus(Classify(frames[i])), NetworkFilter(frames[pos..i + 1]), i + 1)
    case None =>
      NavRun(if pos + budget <= |frames| then TimedOut else Failed(ConnectionLost),
             NetworkFilter(frames[pos..hi]), hi)
  }

  /**
   * What FirstTerminalOutcome promises: every consumed frame but the last
   * lets the loop go on; a completed navigation ended on a Stop frame, a
   * timed-out one used its whole budget, and a failed one either raised on
   * its last frame or ran out of stream before the budget.
   */
  lemma FirstTerminalOutcomeSpec(frames: seq<Frame>, pos: nat, budget: nat)
    requires pos <= |frames|
    ensures var run := FirstTerminalOutcome(frames, pos, budget);
      (forall j :: pos <= j < run.next - 1 ==> Classify(frames[j]) == Continue) &&
      (run.status.Completed? ==>
        pos < run.next && Classify(frames[run.next - 1]) == Stop(run.status.how)) &&
      (run.status.TimedOut? ==>
        run.next == pos + budget && (pos < run.next ==> Classify(frames[run.next - 1]) == Continue)) &&
      (run.status.Failed? ==>
        (pos < run.next && Classify(frames[run.next - 1]) == Abort(run.status.error)) ||
        (run.status.error == ConnectionLost && run.next == |frames| < pos + budget &&
         (pos < run.next ==> Classify(frames[run.next - 1]) == Continue)))
  {
  }

  /** With no budget left, or nothing left to read, the search consumes nothing. */
  lemma FirstTerminalAtEnd(frames: seq<Frame>, pos: nat, budget: nat)
    requires pos <= |frames| && (budget == 0 || pos == |frames|)
    ensures FirstTerminalOutcome(frames, pos, budget) ==
      NavRun(if budget == 0 then TimedOut else Failed(ConnectionLost), [], pos)
  {
    assert frames[pos..pos] == [];
  }

  /** A frame that ends the loop ends the search at once. */
  lemma FirstTerminalStops(frames: seq<Frame>, pos: nat, budget: nat)
    requires pos < |frames| && 0 < budget && !Classify(frames[pos]).Continue?
    ensures FirstTerminalOutcome(frames, pos, budget) ==
      NavRun(StopStatus(Classify(frames[pos])), if IsNetwork(frames[pos]) then [frames[pos]] else [], pos + 1)
  {
    var f := frames[pos];
    assert frames[pos..pos + 1] == [f];
    assert [f][..0] == [];
  }

  /** A frame that lets the loop go on is recorded or not, and the search goes on after it. */
  lemma FirstTerminalSkips(frames: seq<Frame>, pos: nat, budget: nat)
    requires pos < |frames| && 0 < budget && Classify(frames[pos]).Continue?
    ensures FirstTerminalOutcome(frames, pos, budget) ==
      Resume(if IsNetwork(frames[pos]) then [frames[pos]] else [], FirstTerminalOutcome(frames, pos + 1, budget - 1))
  {
    var f := frames[pos];
    var recorded := if IsNetwork(f) then [f] else [];
    var hi := if pos + budget <= |frames| then pos + budget else |frames|;
    var run := FirstTerminalOutcome(frames, pos, budget);
    var rest := FirstTerminalOutcome(frames, pos + 1, budget - 1);
    assert run.status == rest.status && run.next == rest.next by {
      assert FirstMatchIn(frames, pos, hi, NavigationEnd) == FirstMatchIn(frames, pos + 1, hi, NavigationEnd);
    }
    assert NetworkFilter([f]) == recorded by {
      assert [f][..0] == [];
    }
    SplitFirst(frames, pos, run.next);
    NetworkFilterAppend([f], frames[pos + 1..rest.next]);
  }

  /** The step-by-step navigation is the one that stops at the first terminal frame. */
  lemma {:induction false} NavigationIsFirstTerminal(frames: seq<Frame>, pos: nat, budget: nat)
    requires pos <= |frames|
    ensures NavigationOutcome(frames, pos, budget) == FirstTerminalOutcome(frames, pos, budget)
    decreases budget
  {
    if budget == 0 || pos == |frames| {
      FirstTerminalAtEnd(frames, pos, budget);
    } else if Classify(frames[pos]).Continue? {
      NavigationIsFirstTerminal(frames, pos + 1, budget - 1);
      FirstTerminalSkips(frames, pos, budget);
    } else {
      FirstTerminalStops(frames, pos, budget);
    }
  }

  /** A navigation stops at the first terminal frame that arrives within the budget. */
  lemma NavigationEndsAtFirstTerminal(frames: seq<Frame>, pos: nat, budget: nat, i: nat)
    requires pos <= |frames| && IsFirstIn(frames, pos, |frames|, i, NavigationEnd) && i < pos + budget
    ensures NavigationOutcome(frames, pos, budget) ==
      NavRun(StopStatus(Classify(frames[i])), NetworkFilter(frames[pos..i + 1]), i + 1)
  {
    var hi := if pos + budget <= |frames| then pos + budget else |frames|;
    FirstMatchInIs(frames, pos, hi, i, NavigationEnd);
    NavigationIsFirstTerminal(frames, pos, budget);
  }

  /** No terminal frame among the first `budget` frames: the timeout fires with what was recorded. */
  lemma NavigationTimesOut(frames: seq<Frame>, pos: nat, budget: nat)
    requires pos + budget <= |frames|
    requires forall j :: pos <= j < pos + budget ==> Classify(frames[j]) == Continue
    ensures NavigationOutcome(frames, pos, budget) ==
      NavRun(TimedOut, NetworkFilter(frames[pos..pos + budget]), pos + budget)
  {
    assert forall j :: pos <= j < pos + budget ==> !Matches(frames[j], NavigationEnd);
    NavigationIsFirstTerminal(frames, pos, budget);
  }

  /** A frame without a method is dropped without being recorded. */
  lemma MethodlessFrameIgnored(frames: seq<Frame>, pos: nat, budget: nat)
    requires pos < |frames| && 0 < budget && frames[pos].methodName.None?
    ensures NavigationOutcome(frames, pos, budget) == NavigationOutcome(frames, pos + 1, budget - 1)
  {
  }

  /**
   * A `Network.loadingFailed` event for something other than the main
   * document (another type, or a request id not ending in `.1`) is recorded
   * and does not end the navigation.
   */
  lemma NonDocumentFailureRecorded(frames: seq<Frame>, pos: nat, budget: nat)
    requires pos < |frames| && 0 < budget
    requires frames[pos].methodName == Some("Network.loadingFailed")
    requires frames[pos].resourceType.Some?
    requires frames[pos].resourceType != Some("Document") ||
      (frames[pos].requestId.Some? && !EndsWith(frames[pos].requestId.value, ".1"))
    ensures var rest := NavigationOutcome(frames, pos + 1, budget - 1);
      NavigationOutcome(frames, pos, budget) == NavRun(rest.status, [frames[pos]] + rest.events, rest.next)
  {
    assert "Network.loadingFailed"[..7] == "Network";
  }

  /** The main-document failure that ends a navigation is the last recorded event. */
  lemma DocumentFailureRecorded(frames: seq<Frame>, pos: nat, budget: nat)
    requires pos <= |frames|
    requires NavigationOutcome(frames, pos, budget).status == Completed(DocumentFailed)
    ensures var run := NavigationOutcome(frames, pos, budget);
      |run.events| > 0 && run.events[|run.events| - 1] == frames[run.next - 1] &&
      frames[run.next - 1].methodName == Some("Network.loadingFailed")
  {
    var run := NavigationOutcome(frames, pos, budget);
    NavigationIsFirstTerminal(frames, pos, budget);
    FirstTerminalOutcomeSpec(frames, pos, budget);
    ClassifyTerminals(frames[run.next - 1]);
    assert "Network.loadingFailed"[..7] == "Network";
    NetworkFilterExtend(frames, pos, run.next - 1);
  }

  /** The load event that ends a navigation is not a Network event and is not recorded. */
  lemma LoadEventNotRecorded(frames: seq<Frame>, pos: nat, budget: nat)
    requires pos <= |frames|
    requires NavigationOutcome(frames, pos, budget).status == Completed(LoadFired)
    ensures var run := NavigationOutcome(frames, pos, budget);
      run.events == NetworkFilter(frames[pos..run.next - 1])
  {
    var run := NavigationOutcome(frames, pos, budget);
    NavigationIsFirstTerminal(frames, pos, budget);
    FirstTerminalOutcomeSpec(frames, pos, budget);
    ClassifyTerminals(frames[run.next - 1]);
    assert "Page.loadEventFired"[..7] != "Network" by {
      assert "Page.loadEventFired"[0] != "Network"[0];
    }
    NetworkFilterExtend(frames, pos, run.next - 1);
  }

  /** The value the module-level `record_navigation` returns. */
  datatype NavigationResult = NavigationResult(
    networkEvents: seq<Frame>,
    screenshot: Option<Bytes>,
    timedOut: bool)

  /**
   * The end of a session after the navigation `nav`: a failure is passed
   * on, a timeout returns the recorded events without a screenshot, and a
   * completed navigation waits for the reply to `Page.captureScreenshot`
   * (id 3), whose `result.data` must be present.
   */
  function CaptureAfter(frames: seq<Frame>, nav: NavRun): (r: Result<NavigationResult, Error>)
    requires nav.next <= |frames|
    ensures r.Ok? ==> r.value.networkEvents == nav.events
    ensures r.Ok? ==> (r.value.timedOut <==> nav.status.TimedOut?) && (r.value.timedOut <==> r.value.screenshot.None?)
    ensures nav.status.Failed? ==> r == Err(nav.status.error)
  {
    match nav.status
    case Failed(e) => Err(e)
    case TimedOut => Ok(NavigationResult(nav.events, None, true))
    case Completed(_) =>
      var shot := AwaitReply(frames, nav.next, ById(3));
      if shot.result.Err? then Err(shot.result.error)
      else
        match shot.result.value.resultData
        case None => Err(MissingField("result.data"))
        case Some(png) => Ok(NavigationResult(nav.events, Some(png), false))
  }

  /**
   * A whole session on a fresh client over the stream `frames`: the replies
   * to `Network.enable` (id 0) and `Page.enable` (id 1), the navigation
   * (`Page.navigate` takes id 2 and is not waited for), then on completion
   * the reply to `Page.captureScreenshot` (id 3).
   */
  function SessionOutcome(frames: seq<Frame>, budget: nat): (r: Result<NavigationResult, Error>)
    ensures r.Ok? ==> (r.value.timedOut <==> r.value.screenshot.None?)
    ensures r.Ok? ==> forall i :: 0 <= i < |r.value.networkEvents| ==> IsNetwork(r.value.networkEvents[i])
  {
    var network := AwaitReply(frames, 0, ById(0));
    if network.result.Err? then Err(network.result.error)
    else
      var page := AwaitReply(frames, network.next, ById(1));
      if page.result.Err? then Err(page.result.error)
      else
        CaptureAfter(frames, NavigationOutcome(frames, page.next, budget))
  }

  /**
   * The stream answers both enable commands (at `a` and `b`), a terminal
   * frame ends the navigation (at `k`) within the budget, and the capture is
   * answered with data (at `c`): the result is not timed out, carries that
   * screenshot and records the Network events up to the terminal one.
   */
  lemma SessionCompletes(frames: seq<Frame>, budget: nat, a: nat, b: nat, k: nat, c: nat)
    requires IsFirstIn(frames, 0, |frames|, a, ById(0))
    requires IsFirstIn(frames, a + 1, |frames|, b, ById(1))
    requires IsFirstIn(frames, b + 1, |frames|, k, NavigationEnd) && k < b + 1 + budget
    requires Classify(frames[k]).Stop?
    requires IsFirstIn(frames, k + 1, |frames|, c, ById(3)) && frames[c].resultData.Some?
    ensures SessionOutcome(frames, budget) ==
      Ok(NavigationResult(NetworkFilter(frames[b + 1..k + 1]), frames[c].resultData, false))
  {
    AwaitReplyAt(frames, 0, a, ById(0));
    AwaitReplyAt(frames, a + 1, b, ById(1));
    NavigationEndsAtFirstTerminal(frames, b + 1, budget, k);
    var nav := NavigationOutcome(frames, b + 1, budget);
    assert nav == NavRun(StopStatus(Classify(frames[k])), NetworkFilter(frames[b + 1..k + 1]), k + 1);
    assert CaptureAfter(frames, nav) == Ok(NavigationResult(nav.events, frames[c].resultData, false)) by {
      AwaitReplyAt(frames, k + 1, c, ById(3));
    }
  }

  /**
   * When the navigation ends on the main document failing to load, the
   * session still captures the screenshot, and the failure event is the last
   * of the recorded events.
   */
  lemma SessionDocumentFailure(frames: seq<Frame>, budget: nat, a: nat, b: nat, k: nat, c: nat)
    requires IsFirstIn(frames, 0, |frames|, a, ById(0))
    requires IsFirstIn(frames, a + 1, |frames|, b, ById(1))
    requires IsFirstIn(frames, b + 1, |frames|, k, NavigationEnd) && k < b + 1 + budget
    requires frames[k].methodName == Some("Network.loadingFailed")
    requires frames[k].resourceType == Some("Document")
    requires frames[k].requestId.Some? && EndsWith(frames[k].requestId.value, ".1")
    requires IsFirstIn(frames, k + 1, |frames|, c, ById(3)) && frames[c].resultData.Some?
    ensures var r := SessionOutcome(frames, budget);
      r.Ok? && !r.value.timedOut && r.value.screenshot.Some? &&
      |r.value.networkEvents| > 0 && r.value.networkEvents[|r.value.networkEvents| - 1] == frames[k]
  {
    SessionCompletes(frames, budget, a, b, k, c);
    assert "Network.loadingFailed"[..7] == "Network";
    NetworkFilterExtend(frames, b + 1, k);
  }

  /**
   * The stream answers both enable commands but holds no terminal frame
   * among the `budget` frames after them: the result is timed out, has no
   * screenshot, and records the Network events among those frames.
   */
  lemma SessionTimesOut(frames: seq<Frame>, budget: nat, a: nat, b: nat)
    requires IsFirstIn(frames, 0, |frames|, a, ById(0))
    requires IsFirstIn(frames, a + 1, |frames|, b, ById(1))
    requires b + 1 + budget <= |frames|
    requires forall j :: b + 1 <= j < b + 1 + budget ==> Classify(frames[j]) == Continue
    ensures SessionOutcome(frames, budget) ==
      Ok(NavigationResult(NetworkFilter(frames[b + 1..b + 1 + budget]), None, true))
  {
    AwaitReplyAt(frames, 0, a, ById(0));
    AwaitReplyAt(frames, a + 1, b, ById(1));
    NavigationTimesOut(frames, b + 1, budget);
  }
}
