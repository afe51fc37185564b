/**
 * The protocol client: a connection that delivers a fixed, strictly ordered
 * stream of inbound frames and logs the commands sent on it; the client
 * object with its command-id counter, its page-target list and the network
 * events of the current navigation; and the module-level
 * `record_navigation` that runs one session.
 */
module ChromeClient {
  import opened Wrappers
  import opened Text
  import opened Protocol
  import opened Navigation

  const DefaultChrome: string := "/usr/bin/google-chrome"

  /** The socket: the frames the peer will deliver, how many were read, and what was sent. */
  class Connection {
    const inbound: seq<Frame>
    var pos: nat
    var outbound: seq<Command>

    ghost predicate Valid()
      reads this
    {
      pos <= |inbound|
    }

    constructor (frames: seq<Frame>)
      ensures Valid() && inbound == frames && pos == 0 && outbound == []
    {
      inbound := frames;
      pos := 0;
      outbound := [];
    }

    /** `recv()`: the next frame, or ConnectionLost when the peer has closed the socket (the end of `inbound`). */
    method Recv() returns (r: Result<Frame, Error>)
      requires Valid()
      modifies this`pos
      ensures Valid()
      ensures old(pos) < |inbound| ==> r == Ok(inbound[old(pos)]) && pos == old(pos) + 1
      ensures old(pos) == |inbound| ==> r == Err(ConnectionLost) && pos == old(pos)
    {
      if pos == |inbound| {
        r := Err(ConnectionLost);
      } else {
        r := Ok(inbound[pos]);
        pos := pos + 1;
      }
    }

    /** `send(...)`: the command is on the wire, in order after the earlier ones. */
    method Send(c: Command)
      modifies this`outbound
      ensures outbound == old(outbound) + [c]
    {
      outbound := outbound + [c];
    }
  }

  /** One target descriptor from the discovery endpoint: its `type` and `webSocketDebuggerUrl`. */
  datatype Tab = Tab(tabType: string, webSocketDebuggerUrl: Option<string>)

  /** The position of the first tab of `tabs[lo..]` whose type is `page`. */
  function FirstPage(tabs: seq<Tab>, lo: nat): (r: Option<nat>)
    requires lo <= |tabs|
    ensures r.Some? ==> (lo <= r.value < |tabs| && tabs[r.value].tabType == "page" &&
                         forall j :: lo <= j < r.value ==> tabs[j].tabType != "page")
    ensures r.None? ==> forall j :: lo <= j < |tabs| ==> tabs[j].tabType != "page"
    decreases |tabs| - lo
  {
    if lo == |tabs| then None
    else if tabs[lo].tabType == "page" then Some(lo)
    else FirstPage(tabs, lo + 1)
  }

  /**
   * The debugger URL of the first page tab, if that tab advertises one; a
   * later page tab is never looked at.
   */
  function PageUrl(tabs: seq<Tab>): (u: Option<string>)
    ensures u.Some? ==> exists i :: (0 <= i < |tabs| && tabs[i].tabType == "page" &&
                                     (forall j :: 0 <= j < i ==> tabs[j].tabType != "page") &&
                                     tabs[i].webSocketDebuggerUrl == u)
    ensures u.None? ==> (forall j :: 0 <= j < |tabs| ==> tabs[j].tabType != "page") ||
                        exists i :: (0 <= i < |tabs| && tabs[i].tabType == "page" &&
                                     (forall j :: 0 <= j < i ==> tabs[j].tabType != "page") &&
                                     tabs[i].webSocketDebuggerUrl.None?)
  {
    match FirstPage(tabs, 0)
    case Some(i) => tabs[i].webSocketDebuggerUrl
    case None => None
  }

  /** Tabs appended after a page tab do not change which page tab is first. */
  lemma {:induction false} FirstPageAppend(tabs: seq<Tab>, later: seq<Tab>, lo: nat)
    requires lo <= |tabs| && FirstPage(tabs, lo).Some?
    ensures FirstPage(tabs + later, lo) == FirstPage(tabs, lo)
    decreases |tabs| - lo
  {
    assert (tabs + later)[lo] == tabs[lo];
    if tabs[lo].tabType != "page" {
      FirstPageAppend(tabs, later, lo + 1);
    }
  }

  /**
   * Only the first page tab counts: once a list holds a page tab, whatever
   * follows it (another page tab with a URL included) leaves the answer as it is.
   */
  lemma PageUrlIgnoresLaterPages(tabs: seq<Tab>, later: seq<Tab>)
    requires FirstPage(tabs, 0).Some?
    ensures PageUrl(tabs + later) == PageUrl(tabs)
  {
    FirstPageAppend(tabs, later, 0);
    var i := FirstPage(tabs, 0).value;
    assert (tabs + later)[i] == tabs[i];
  }

  class Client {
    const path: string
    const headless: bool
    var commandId: nat
    var tablist: seq<Tab>
    var networkEvents: seq<Frame>
    const websocket: Connection

    /**
     * The counter has handed out exactly the ids of the commands sent so
     * far, in order: 0, 1, 2, ... each once.
     */
    ghost predicate Valid()
      reads this, websocket
    {
      websocket.Valid() &&
      |websocket.outbound| == commandId &&
      forall i :: 0 <= i < |websocket.outbound| ==> websocket.outbound[i].id == i
    }

    /** A client connected to a peer that will deliver `frames`; the counter starts at 0. */
    constructor (execPath: Option<string>, headless: bool, frames: seq<Frame>)
      ensures Valid() && fresh(websocket)
      ensures path == (if execPath.Some? then execPath.value else DefaultChrome)
      ensures this.headless == headless
      ensures commandId == 0 && tablist == [] && networkEvents == []
      ensures websocket.inbound == frames && websocket.pos == 0 && websocket.outbound == []
    {
      path := if execPath.Some? then execPath.value else DefaultChrome;
      this.headless := headless;
      commandId := 0;
      tablist := [];
      networkEvents := [];
      websocket := new Connection(frames);
    }

    /** `_find_tabs`: the tab list becomes the discovery endpoint's answer. */
    method FindTabs(reply: seq<Tab>)
      modifies this`tablist
      ensures tablist == reply
    {
      tablist := reply;
    }

    /**
     * `_get_tab_debugger_url`, with `replies` the answers the discovery
     * endpoint gives to successive queries. The list is fetched when empty;
     * if its first page tab is missing or has no URL it is fetched once more;
     * if that still fails there is no endpoint.
     */
    method GetTabDebuggerUrl(replies: seq<seq<Tab>>) returns (r: Result<string, Error>)
      requires |replies| >= 2
      modifies this`tablist
      ensures var first := if old(tablist) == [] then replies[0] else old(tablist);
        var retry := if old(tablist) == [] then replies[1] else replies[0];
        if PageUrl(first).Some? then tablist == first && r == Ok(PageUrl(first).value)
        else tablist == retry && r == (if PageUrl(retry).Some? then Ok(PageUrl(retry).value) else Err(EndpointNotFound))
    {
      var q := 0;
      if |tablist| == 0 {
        FindTabs(replies[q]);
        q := q + 1;
      }
      var tab := FirstPage(tablist, 0);
      if tab.None? || tablist[tab.value].webSocketDebuggerUrl.None? {
        FindTabs(replies[q]);
        tab := FirstPage(tablist, 0);
      }
      if tab.None? || tablist[tab.value].webSocketDebuggerUrl.None? {
        r := Err(EndpointNotFound);
      } else {
        r := Ok(tablist[tab.value].webSocketDebuggerUrl.value);
      }
    }

    /** `_get_cid`: the current id, and the counter moves one past it. */
    method GetCid() returns (cid: nat)
      modifies this`commandId
      ensures cid == old(commandId) && commandId == old(commandId) + 1
    {
      cid := commandId;
      commandId := commandId + 1;
    }

    /** `_get_debug_command` with its send: a fresh id, and the envelope goes out. */
    method GetDebugCommand(methodName: string, params: map<string, string>) returns (cid: nat)
      requires Valid()
      modifies this`commandId, websocket`outbound
      ensures Valid()
      ensures cid == old(commandId) && commandId == cid + 1
      ensures websocket.outbound == old(websocket.outbound) + [Command(cid, methodName, params)]
    {
      cid := GetCid();
      websocket.Send(Command(cid, methodName, params));
    }

    /** `_send_debug_command`: send and do not wait for the reply. */
    method SendDebugCommand(methodName: string, params: map<string, string>)
      requires Valid()
      modifies this`commandId, websocket`outbound
      ensures Valid()
      ensures commandId == old(commandId) + 1
      ensures websocket.outbound == old(websocket.outbound) + [Command(old(commandId), methodName, params)]
    {
      var _ := GetDebugCommand(methodName, params);
    }

    /** `_listen_for_cid`: read until the reply with id `cid`, dropping everything before it. */
    method ListenForCid(cid: int) returns (r: Result<Frame, Error>)
      requires Valid()
      modifies websocket`pos
      ensures Valid()
      ensures Read(r, websocket.pos) == AwaitReply(websocket.inbound, old(websocket.pos), ById(cid))
    {
      while true
        invariant Valid() && old(websocket.pos) <= websocket.pos
        invariant forall j :: old(websocket.pos) <= j < websocket.pos ==> !Matches(websocket.inbound[j], ById(cid))
        decreases |websocket.inbound| - websocket.pos
      {
        var resp := websocket.Recv();
        if resp.Err? {
          return resp;
        }
        if resp.value.id.Some? && resp.value.id.value == cid {
          FirstMatchInIs(websocket.inbound, old(websocket.pos), |websocket.inbound|, websocket.pos - 1, ById(cid));
          return resp;
        }
      }
    }

    /** `_listen_for_event`: read until the first frame whose method is `event`. */
    method ListenForEvent(event: string) returns (r: Result<Frame, Error>)
      requires Valid()
      modifies websocket`pos
      ensures Valid()
      ensures Read(r, websocket.pos) == AwaitReply(websocket.inbound, old(websocket.pos), ByMethod(event))
    {
      while true
        invariant Valid() && old(websocket.pos) <= websocket.pos
        invariant forall j :: old(websocket.pos) <= j < websocket.pos ==> !Matches(websocket.inbound[j], ByMethod(event))
        decreases |websocket.inbound| - websocket.pos
      {
        var resp := websocket.Recv();
        if resp.Err? {
          return resp;
        }
        if resp.value.methodName.Some? && resp.value.methodName.value == event {
          FirstMatchInIs(websocket.inbound, old(websocket.pos), |websocket.inbound|, websocket.pos - 1, ByMethod(event));
          return resp;
        }
      }
    }

    /** `_wait_on_debug_command`: send with a fresh id, then wait for the reply with that id. */
    method WaitOnDebugCommand(methodName: string, params: map<string, string>) returns (r: Result<Frame, Error>)
      requires Valid()
      modifies this`commandId, websocket
      ensures Valid()
      ensures commandId == old(commandId) + 1
      ensures websocket.outbound == old(websocket.outbound) + [Command(old(commandId), methodName, params)]
      ensures Read(r, websocket.pos) == AwaitReply(websocket.inbound, old(websocket.pos), ById(old(commandId)))
    {
      var cid := GetDebugCommand(methodName, params);
      r := ListenForCid(cid);
    }

    method SendNetworkEnable() returns (r: Result<Frame, Error>)
      requires Valid()
      modifies this`commandId, websocket
      ensures Valid()
      ensures commandId == old(commandId) + 1
      ensures websocket.outbound == old(websocket.outbound) + [Command(old(commandId), "Network.enable", map[])]
      ensures Read(r, websocket.pos) == AwaitReply(websocket.inbound, old(websocket.pos), ById(old(commandId)))
    {
      r := WaitOnDebugCommand("Network.enable", map[]);
    }

    method SendNetworkDisable() returns (r: Result<Frame, Error>)
      requires Valid()
      modifies this`commandId, websocket
      ensures Valid()
      ensures commandId == old(commandId) + 1
      ensures websocket.outbound == old(websocket.outbound) + [Command(old(commandId), "Network.disable", map[])]
      ensures Read(r, websocket.pos) == AwaitReply(websocket.inbound, old(websocket.pos), ById(old(commandId)))
    {
      r := WaitOnDebugCommand("Network.disable", map[]);
    }

    method SendPageEnable() returns (r: Result<Frame, Error>)
      requires Valid()
      modifies this`commandId, websocket
      ensures Valid()
      ensures commandId == old(commandId) + 1
      ensures websocket.outbound == old(websocket.outbound) + [Command(old(commandId), "Page.enable", map[])]
      ensures Read(r, websocket.pos) == AwaitReply(websocket.inbound, old(websocket.pos), ById(old(commandId)))
    {
      r := WaitOnDebugCommand("Page.enable", map[]);
    }

    method SendPageDisable() returns (r: Result<Frame, Error>)
      requires Valid()
      modifies this`commandId, websocket
      ensures Valid()
      ensures commandId == old(commandId) + 1
      ensures websocket.outbound == old(websocket.outbound) + [Command(old(commandId), "Page.disable", map[])]
      ensures Read(r, websocket.pos) == AwaitReply(websocket.inbound, old(websocket.pos), ById(old(commandId)))
    {
      r := WaitOnDebugCommand("Page.disable", map[]);
    }

    /** `take_screenshot`: the decoded `result.data` of the capture reply. */
    method TakeScreenshot() returns (r: Result<Bytes, Error>)
      requires Valid()
      modifies this`commandId, websocket
      ensures Valid()
      ensures commandId == old(commandId) + 1
      ensures websocket.outbound == old(websocket.outbound) + [Command(old(commandId), "Page.captureScreenshot", map[])]
      ensures var reply := AwaitReply(websocket.inbound, old(websocket.pos), ById(old(commandId)));
        websocket.pos == reply.next &&
        r == match reply.result
          case Err(e) => Err(e)
          case Ok(f) => if f.resultData.Some? then Ok(f.resultData.value) else Err(MissingField("result.data"))
    {
      var resp := WaitOnDebugCommand("Page.captureScreenshot", map[]);
      if resp.Err? {
        return Err(resp.error);
      }
      if resp.value.resultData.None? {
        return Err(MissingField("result.data"));
      }
      r := Ok(resp.value.resultData.value);
    }

    /** `send_page_navigate`: fire-and-forget, but it still takes an id. */
    method SendPageNavigate(url: string)
      requires Valid()
      modifies this`commandId, websocket`outbound
      ensures Valid()
      ensures commandId == old(commandId) + 1
      ensures websocket.outbound == old(websocket.outbound) + [Command(old(commandId), "Page.navigate", map["url" := url])]
    {
      SendDebugCommand("Page.navigate", map["url" := url]);
    }

    /**
     * One turn of the loop of `Client.record_navigation` on a received
     * frame: a frame without a method is skipped; one whose method starts
     * with `Network` is appended to the recorded events; then the two
     * terminal tests (and the KeyError they raise on a malformed
     * `Network.loadingFailed`) give the loop's verdict, which is Classify's.
     */
    method RecordFrame(frame: Frame) returns (verdict: Verdict)
      requires Valid()
      modifies this`networkEvents
      ensures Valid()
      ensures networkEvents == old(networkEvents) + (if IsNetwork(frame) then [frame] else [])
      ensures verdict == Classify(frame)
    {
      if frame.methodName.None? {
        return Continue;
      }
      if StartsWith(frame.methodName.value, "Network") {
        networkEvents := networkEvents + [frame];
      }
      verdict := Classify(frame);
    }

    /**
     * `Client.record_navigation` under the timeout of its caller: the
     * recorded events start empty; at most `budget` frames are read before
     * the timeout fires. The new events, status and read position are those
     * of NavigationOutcome.
     */
    method RecordNavigation(url: string, budget: nat) returns (status: NavStatus)
      requires Valid()
      modifies this`commandId, this`networkEvents, websocket
      ensures Valid()
      ensures commandId == old(commandId) + 1
      ensures websocket.outbound == old(websocket.outbound) + [Command(old(commandId), "Page.navigate", map["url" := url])]
      ensures NavRun(status, networkEvents, websocket.pos) ==
        NavigationOutcome(websocket.inbound, old(websocket.pos), budget)
    {
      networkEvents := [];
      SendPageNavigate(url);
      ghost var inbound := websocket.inbound;
      ghost var whole := NavigationOutcome(inbound, websocket.pos, budget);
      ghost var sent := websocket.outbound;
      var steps := 0;
      while steps < budget
        invariant Valid() && websocket.inbound == inbound && websocket.outbound == sent
        invariant commandId == old(commandId) + 1 && steps <= budget
        invariant whole == Resume(networkEvents, NavigationOutcome(inbound, websocket.pos, budget - steps))
        decreases budget - steps
      {
        ghost var here := websocket.pos;
        ghost var before := networkEvents;
        var resp := websocket.Recv();
        if resp.Err? {
          return Failed(resp.error);
        }
        steps := steps + 1;
        var verdict := RecordFrame(resp.value);
        if !verdict.Continue? {
          return StopStatus(verdict);
        }
        NavigationContinues(inbound, here, budget - steps + 1, before);
      }
      status := TimedOut;
    }
  }

  /** The commands a session sends, in order, with the ids a fresh client gives them. */
  function SessionCommands(url: string): (cmds: seq<Command>)
    ensures |cmds| == 4 && forall i :: 0 <= i < 4 ==> cmds[i].id == i
  {
    [Command(0, "Network.enable", map[]),
     Command(1, "Page.enable", map[]),
     Command(2, "Page.navigate", map["url" := url]),
     Command(3, "Page.captureScreenshot", map[])]
  }

  /**
   * The module-level `record_navigation`: a fresh client over a peer that
   * delivers `frames`, both domains enabled, the navigation under a budget
   * of `budget` frames, and the screenshot when the navigation completed.
   * `sent` is what went out on the connection.
   */
  method RecordNavigation(url: string, frames: seq<Frame>, budget: nat, chromePath: Option<string>, headless: bool)
    returns (r: Result<NavigationResult, Error>, ghost sent: seq<Command>)
    ensures r == SessionOutcome(frames, budget)
    ensures |sent| <= 4 && sent == SessionCommands(url)[..|sent|]
    ensures r.Ok? ==> |sent| == if r.value.timedOut then 3 else 4
  {
    var b := new Client(chromePath, headless, frames);
    var reply := b.SendNetworkEnable();
    if reply.Err? {
      return Err(reply.error), b.websocket.outbound;
    }
    reply := b.SendPageEnable();
    if reply.Err? {
      return Err(reply.error), b.websocket.outbound;
    }
    var status := b.RecordNavigation(url, budget);
    match status
    case Failed(e) =>
      return Err(e), b.websocket.outbound;
    case TimedOut =>
      return Ok(NavigationResult(b.networkEvents, None, true)), b.websocket.outbound;
    case Completed(_) =>
      var shot := b.TakeScreenshot();
      if shot.Err? {
        return Err(shot.error), b.websocket.outbound;
      }
      return Ok(NavigationResult(b.networkEvents, Some(shot.value), false)), b.websocket.outbound;
  }
}
