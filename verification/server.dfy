/**
 * The orchestration server (app.js): one in-memory ownership record that says
 * whether the GPU web UI is running, for which user and since when, and the
 * handlers that reconcile it with the port probe, start, stop and initialise it.
 *
 * The port probe, the existence of the start/stop scripts and the clock are
 * parameters; the fire-and-forget `exec` calls are recorded in ghost logs.
 */
module Server {
  import opened Wrappers

  /** Milliseconds since the epoch, as `Date.now()` reports them. */
  type Millis = int

  /** A value of `currentStatus`. `startTime` is the ISO timestamp, held as milliseconds. */
  datatype Record = Record(running: bool, user: Option<string>, startTime: Option<Millis>)

  /** The record every reset writes: `{running: false, user: null, startTime: null}`. */
  const Stopped := Record(false, None, None)

  /** JavaScript truthiness of a string-or-null: both `null` and `""` are falsy. */
  predicate Truthy(s: Option<string>) {
    s.Some? && s.value != ""
  }

  /** The invariant the handlers keep: an owner implies running, and a start time goes with an owner. */
  predicate Consistent(r: Record) {
    (r.user.Some? ==> r.running) && (r.startTime.Some? <==> r.user.Some?)
  }

  /**
   * Whether a start request falls through to the launch branch: the probe is
   * dead, or the live instance's owner is the requester.
   */
  predicate LaunchPath(r: Record, userName: string, probeAlive: bool) {
    !probeAlive || (Truthy(r.user) && r.user.value == userName)
  }

  /** A JSON answer of the start and stop handlers: HTTP code, `success`, `message`, optional `status`. */
  datatype Response = Response(code: int, success: bool, message: string, status: Option<Record>)

  /** The JSON answer of `/status`. */
  datatype StatusReport = StatusReport(running: bool, user: Option<string>, startTime: Option<Millis>, uptime: int)

  /** Which kill the stop handler fires: the stop script, or `pkill` when the script is missing. */
  datatype KillAction = StopScript | DirectKill

  function ClaimMessage(userName: string): string {
    "ComfyUI is already running. Claimed by " + userName + "."
  }

  function ConflictMessage(owner: string): string {
    "ComfyUI is already running for user '" + owner + "'. Please stop it first."
  }

  function LaunchMessage(userName: string): string {
    "Starting ComfyUI for " + userName + "..."
  }

  const ScriptMissingMessage := "Start script not found"

  function StopMessage(previousUser: Option<string>): string {
    "Stopped ComfyUI" + (if Truthy(previousUser) then " (was running for " + previousUser.value + ")" else "")
  }

  /**
   * The uptime `/status` reports: 0 without a start time, otherwise the whole
   * seconds elapsed, rounded down as `Math.floor` does (also for a clock that
   * went backwards).
   */
  function Uptime(startTime: Option<Millis>, now: Millis): (secs: int)
    ensures startTime.None? ==> secs == 0
    ensures startTime.Some? ==> secs * 1000 <= now - startTime.value < secs * 1000 + 1000
    ensures startTime.Some? && startTime.value <= now ==> secs >= 0
  {
    match startTime
    case None => 0
    case Some(t) => (now - t) / 1000
  }

  /** The holder of `currentStatus`. */
  class Instance {
    var running: bool
    var user: Option<string>
    var startTime: Option<Millis>
    /** The user names the start script was invoked with, oldest first. */
    ghost var launches: seq<string>
    /** The kill actions the stop handler fired, oldest first. */
    ghost var kills: seq<KillAction>

    function Snapshot(): Record
      reads this
    {
      Record(running, user, startTime)
    }

    ghost predicate Valid()
      reads this
    {
      Consistent(Snapshot())
    }

    /** The record as the module is loaded: all fields false or null. */
    constructor ()
      ensures Valid() && Snapshot() == Stopped
      ensures launches == [] && kills == []
    {
      running, user, startTime := false, None, None;
      launches, kills := [], [];
    }

    /**
     * `initializeStatus`: a dead probe resets the record, a live one leaves it.
     * It runs after an asynchronous probe, so requests may already have changed the record.
     */
    method Initialize(probeAlive: bool)
      requires Valid()
      modifies this
      ensures Valid()
      ensures !probeAlive ==> Snapshot() == Stopped
      ensures probeAlive ==> Snapshot() == old(Snapshot())
      ensures launches == old(launches) && kills == old(kills)
    {
      if !probeAlive {
        running, user, startTime := false, None, None;
      }
    }

    /**
     * `/start_comfyui/:user`. A live instance with a (truthy) owner other than
     * the requester is a conflict; a live instance without one is claimed;
     * otherwise, including a live instance owned by the requester, the start
     * script is launched if it exists.
     */
    method Start(userName: string, probeAlive: bool, scriptExists: bool, now: Millis) returns (r: Response)
      requires Valid()
      modifies this
      ensures Valid()
      ensures kills == old(kills)
      ensures probeAlive && Truthy(old(user)) && old(user).value != userName ==>
        && r == Response(409, false, ConflictMessage(old(user).value), None)
        && Snapshot() == old(Snapshot()) && launches == old(launches)
      ensures probeAlive && !Truthy(old(user)) ==>
        && Snapshot() == Record(true, Some(userName), Some(now))
        && r == Response(200, true, ClaimMessage(userName), Some(Snapshot()))
        && launches == old(launches)
      ensures LaunchPath(old(Snapshot()), userName, probeAlive) && !scriptExists ==>
        && r == Response(404, false, ScriptMissingMessage, None)
        && Snapshot() == old(Snapshot()) && launches == old(launches)
      ensures LaunchPath(old(Snapshot()), userName, probeAlive) && scriptExists ==>
        && Snapshot() == Record(true, Some(userName), Some(now))
        && r == Response(200, true, LaunchMessage(userName), Some(Snapshot()))
        && launches == old(launches) + [userName]
    {
      if probeAlive {
        if !Truthy(user) {
          running, user, startTime := true, Some(userName), Some(now);
          return Response(200, true, ClaimMessage(userName), Some(Snapshot()));
        } else if user.value != userName {
          return Response(409, false, ConflictMessage(user.value), None);
        }
      }
      if !scriptExists {
        return Response(404, false, ScriptMissingMessage, None);
      }
      launches := launches + [userName];
      running, user, startTime := true, Some(userName), Some(now);
      r := Response(200, true, LaunchMessage(userName), Some(Snapshot()));
    }

    /**
     * `/status`: a dead probe resets a running record entirely; a live probe
     * marks a stopped record running and keeps its user and start time.
     * Afterwards `running` agrees with the probe.
     */
    method Status(probeAlive: bool, now: Millis) returns (rep: StatusReport)
      requires Valid()
      modifies this
      ensures Valid()
      ensures running == probeAlive
      ensures !probeAlive && old(running) ==> Snapshot() == Stopped
      ensures probeAlive && !old(running) ==> Snapshot() == old(Snapshot()).(running := true)
      ensures probeAlive == old(running) ==> Snapshot() == old(Snapshot())
      ensures rep == StatusReport(running, user, startTime, Uptime(startTime, now))
      ensures launches == old(launches) && kills == old(kills)
    {
      if !probeAlive && running {
        running, user, startTime := false, None, None;
      } else if probeAlive && !running {
        running := true;
      }
      rep := StatusReport(running, user, startTime, Uptime(startTime, now));
    }

    /**
     * `/stop_comfyui`: fires the stop script, or a direct kill when it is
     * missing, and always resets the record and answers success.
     */
    method Stop(scriptExists: bool) returns (r: Response)
      requires Valid()
      modifies this
      ensures Valid()
      ensures Snapshot() == Stopped
      ensures r == Response(200, true, StopMessage(old(user)), Some(Stopped))
      ensures kills == old(kills) + [if scriptExists then StopScript else DirectKill]
      ensures launches == old(launches)
    {
      kills := kills + [if scriptExists then StopScript else DirectKill];
      var previousUser := user;
      running, user, startTime := false, None, None;
      r := Response(200, true, StopMessage(previousUser), Some(Snapshot()));
    }
  }

  /** Two different users in turn: the second, arriving once the instance is live, gets a conflict. */
  method ConflictScenario(first: string, second: string, t1: Millis, t2: Millis)
    returns (r1: Response, r2: Response, owner: Option<string>)
    requires first != "" && first != second
    ensures r1.success && r2.code == 409 && !r2.success
    ensures owner == Some(first)
  {
    var inst := new Instance();
    r1 := inst.Start(first, false, true, t1);
    r2 := inst.Start(second, true, true, t2);
    owner := inst.user;
  }

  /** A fresh server with a dead probe reports nothing running and zero uptime. */
  method FreshStatusScenario(now: Millis) returns (rep: StatusReport)
    ensures rep == StatusReport(false, None, None, 0)
  {
    var inst := new Instance();
    rep := inst.Status(false, now);
  }

  /** A start followed at once by a status keeps the requester as owner while the probe is live. */
  method StartThenStatusScenario(userName: string, t1: Millis, t2: Millis) returns (rep: StatusReport)
    requires t1 <= t2
    ensures rep.running && rep.user == Some(userName) && rep.startTime == Some(t1)
    ensures rep.uptime == (t2 - t1) / 1000 && rep.uptime >= 0
  {
    var inst := new Instance();
    var _ := inst.Start(userName, false, true, t1);
    rep := inst.Status(true, t2);
  }

  /** A second start by the owner of a live instance is not idempotent: it relaunches and refreshes the start time. */
  method SameUserRelaunchScenario(userName: string, t1: Millis, t2: Millis)
    returns (r2: Response, startTime: Option<Millis>)
    requires userName != ""
    ensures r2 == Response(200, true, LaunchMessage(userName), Some(Record(true, Some(userName), Some(t2))))
    ensures startTime == Some(t2)
  {
    var inst := new Instance();
    var _ := inst.Start(userName, false, true, t1);
    r2 := inst.Start(userName, true, true, t2);
    startTime := inst.startTime;
  }

  /**
   * Without a grace period, a second user who asks while the first user's
   * instance has not yet opened its port launches again and takes ownership.
   */
  method StartupOverrideScenario(first: string, second: string, t1: Millis, t2: Millis)
    returns (r2: Response, owner: Option<string>)
    ensures r2.success && owner == Some(second)
  {
    var inst := new Instance();
    var _ := inst.Start(first, false, true, t1);
    r2 := inst.Start(second, false, true, t2);
    owner := inst.user;
  }

  /** A stop after a start leaves nothing running, whatever the stop script's state. */
  method StopAfterStartScenario(userName: string, scriptExists: bool, t1: Millis, t2: Millis)
    returns (r: Response, rep: StatusReport)
    requires userName != ""
    ensures r.success && r.message == "Stopped ComfyUI (was running for " + userName + ")"
    ensures rep == StatusReport(false, None, None, 0)
  {
    var inst := new Instance();
    var _ := inst.Start(userName, false, true, t1);
    r := inst.Stop(scriptExists);
    rep := inst.Status(false, t2);
  }

  // ----- `/volume_map.json` -----

  /** A volume map as `Object.entries` lists it: (volume id, user names) pairs in key order. */
  type VolumeMap = seq<(string, seq<string>)>

  /** The map served when `volume_map.json` is absent. */
  const DefaultVolumeMap: VolumeMap := [
    ("vol_1", ["Sri", "Bharath"]),
    ("vol_2", ["Pavan", "Moulika"]),
    ("vol_3", ["Abhijith", "Abhiram", "Sneha"]),
    ("vol_4", ["Shakthi"]),
    ("no_vol", ["Intern"])
  ]

  /** The map `/volume_map.json` serves: the file's contents when it exists, else the default. */
  function ServedVolumeMap(file: Option<VolumeMap>): (m: VolumeMap)
    ensures file.Some? ==> m == file.value
    ensures file.None? ==> m == DefaultVolumeMap
  {
    if file.Some? then file.value else DefaultVolumeMap
  }

  // ----- `/logs/:identifier` and `/copy_link` -----

  const AppLog := "/workspace/logs/comfyui.log"
  const DownloadsLog := "/workspace/logs/comfyui_model_downloads.log"

  /** The log file a log identifier selects: only `model_downloads` picks the download log. */
  function LogPath(identifier: string): (path: string)
    ensures path == DownloadsLog <==> identifier == "model_downloads"
    ensures path == AppLog <==> identifier != "model_downloads"
  {
    if identifier == "model_downloads" then DownloadsLog else AppLog
  }

  /** The answer of `/logs/:identifier`: a 404 text naming the path, or the file streamed as plain text. */
  datatype LogReply = NotFound(message: string) | Streamed(path: string)

  const NotFoundPrefix := "Log file not found: "

  function ServeLog(identifier: string, fileExists: bool): (reply: LogReply)
    ensures reply.Streamed? <==> fileExists
    ensures reply.Streamed? ==> reply.path == LogPath(identifier)
    ensures reply.NotFound? ==>
      var path := LogPath(identifier);
      |NotFoundPrefix| + |path| <= |reply.message| &&
      reply.message[|NotFoundPrefix|..|NotFoundPrefix| + |path|] == path
  {
    var path := LogPath(identifier);
    if !fileExists then
      var message := NotFoundPrefix + path + ". Process may not have started yet or no logs generated.";
      assert message[|NotFoundPrefix|..|NotFoundPrefix| + |path|] == path;
      NotFound(message)
    else
      Streamed(path)
  }

  const ProxyPrefix := "https://"
  const ProxySuffix := "-8188.proxy.runpod.net"
  const LocalLink := "https://localhost:8188"

  /** The link `/copy_link` answers: the pod's proxy URL when the pod id is set (truthy), else localhost. */
  function CopyLink(podId: Option<string>): (link: string)
    ensures link == LocalLink <==> !Truthy(podId)
  {
    if Truthy(podId) then ProxyPrefix + podId.value + ProxySuffix else LocalLink
  }

  /** Reads the pod id back out of a proxy link; `None` for any other link. */
  function PodIdOf(link: string): (podId: Option<string>)
    ensures podId.Some? ==> link == ProxyPrefix + podId.value + ProxySuffix
  {
    if |ProxyPrefix| + |ProxySuffix| < |link|
       && link[..|ProxyPrefix|] == ProxyPrefix
       && link[|link| - |ProxySuffix|..] == ProxySuffix
    then
      var id := link[|ProxyPrefix|..|link| - |ProxySuffix|];
      assert link == link[..|ProxyPrefix|] + id + link[|link| - |ProxySuffix|..];
      Some(id)
    else None
  }

  /** The copy link determines the pod id: it is recovered from a proxy link, and localhost carries none. */
  lemma CopyLinkRecoversPodId(podId: Option<string>)
    ensures PodIdOf(CopyLink(podId)) == if Truthy(podId) then podId else None
  {
    var link := CopyLink(podId);
    if Truthy(podId) {
      var id := podId.value;
      assert link[..|ProxyPrefix|] == ProxyPrefix;
      assert link[|link| - |ProxySuffix|..] == ProxySuffix;
      assert link[|ProxyPrefix|..|link| - |ProxySuffix|] == id;
    }
  }
}
