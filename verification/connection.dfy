/** The older connection to the driver: the mapping of configured trackers to
  * driver trackers, the handshake over the pipe, the error state and the button
  * poll. OpenVR itself (initialisation, the action manifest, button reads) is
  * given as inputs. */
module DriverConnection {
  import opened Wrappers
  import Text
  import LegacyConfig
  import opened CommandStream
  import VRDriver

  datatype Status = Disconnected | Waiting | Connected

  datatype ErrorCode = OK | AlreadyWaiting | AlreadyConnected | BindingsMissing | ClientError
                     | DriverError | DriverMismatch | SomethingWrong

  /** `TrackerConnection`: the configured tracker, its id at the driver, and the
    * name and role it is registered under (empty until set). */
  datatype TrackerConnection = TrackerConnection(trackerId: int, driverId: int, name: string, role: string)

  const Waist: string := "TrackerRole_Waist"
  const LeftFoot: string := "TrackerRole_LeftFoot"
  const RightFoot: string := "TrackerRole_RightFoot"

  /** `"ApriltagTracker" + std::to_string(i)`. */
  function Name(i: int): string
  {
    "ApriltagTracker" + Text.IntToString(i)
  }

  // ---------------------------------------------------------------------------
  // Tracker mapping
  // ---------------------------------------------------------------------------

  /** One of `Connect`'s loops: entry `i` of `n` is tracker `i + idShift`, driver
    * tracker `i`, named after `i + nameShift`, with role `role`. */
  function Run(n: int, idShift: int, nameShift: int, role: string): (r: seq<TrackerConnection>)
    ensures |r| == if n > 0 then n else 0
  {
    seq(if n > 0 then n else 0, i => TrackerConnection(i + idShift, i, Name(i + nameShift), role))
  }

  function WithRole(t: TrackerConnection, role: string): TrackerConnection
  {
    t.(role := role)
  }

  /** The list `Connect` builds from the tracker count and `ignoreTracker0`. */
  function Mapping(trackerNum: int, ignoreTracker0: bool): seq<TrackerConnection>
  {
    if ignoreTracker0 && trackerNum == 3 then
      var r := Run(trackerNum - 1, 1, 1, []);
      r[0 := WithRole(r[0], LeftFoot)][1 := WithRole(r[1], RightFoot)]
    else if ignoreTracker0 then Run(trackerNum - 1, 1, 1, Waist)
    else if trackerNum == 3 then
      var r := Run(trackerNum, 0, 0, []);
      r[0 := WithRole(r[0], Waist)][1 := WithRole(r[1], LeftFoot)][2 := WithRole(r[2], RightFoot)]
    else if trackerNum == 2 then
      var r := Run(trackerNum, 0, 0, []);
      r[0 := WithRole(r[0], LeftFoot)][1 := WithRole(r[1], RightFoot)]
    else Run(trackerNum, 0, 1, Waist)
  }

  /** In every branch the driver id is the entry's position, and the entries are
    * the configured trackers (all but tracker 0 when it is ignored). */
  lemma MappingPositions(trackerNum: int, ignoreTracker0: bool)
    ensures var m := Mapping(trackerNum, ignoreTracker0);
      var n := if ignoreTracker0 then trackerNum - 1 else trackerNum;
      |m| == (if n > 0 then n else 0)
      && forall i :: 0 <= i < |m| ==>
           m[i].driverId == i && m[i].trackerId == (if ignoreTracker0 then i + 1 else i)
  {
  }

  /** With tracker 0 ignored, the names follow the tracker ids, and the two
    * remaining trackers of three are the feet, any other count all waists. */
  lemma IgnoredTrackerZeroRoles(trackerNum: int)
    ensures var m := Mapping(trackerNum, true);
      (forall i :: 0 <= i < |m| ==> m[i].name == Name(m[i].trackerId))
      && (trackerNum == 3 ==> |m| == 2 && m[0].role == LeftFoot && m[1].role == RightFoot)
      && (trackerNum != 3 ==> forall i :: 0 <= i < |m| ==> m[i].role == Waist)
  {
  }

  /** Without it, three trackers are waist, left foot and right foot and two are
    * the feet, each named after its own id; any other count gives waists named
    * after the next id. */
  lemma TrackerRoles(trackerNum: int)
    ensures var m := Mapping(trackerNum, false);
      (trackerNum == 3 ==> [m[0].role, m[1].role, m[2].role] == [Waist, LeftFoot, RightFoot])
      && (trackerNum == 2 ==> [m[0].role, m[1].role] == [LeftFoot, RightFoot])
      && (trackerNum == 2 || trackerNum == 3 ==> forall i :: 0 <= i < |m| ==> m[i].name == Name(i))
      && (trackerNum != 2 && trackerNum != 3 ==>
            forall i :: 0 <= i < |m| ==> m[i].role == Waist && m[i].name == Name(i + 1))
  {
  }

  // ---------------------------------------------------------------------------
  // Handshake
  // ---------------------------------------------------------------------------

  /** The word `>>` leaves in `word` after reading a reply. */
  function WordOf(reply: string, word: string): string
  {
    ReadWord(Stream(reply, true), word).0
  }

  /** The words the driver's replies leave in `word`: `Reader(replies)(k, w)` is
    * the word after reading reply `k` over `w`. */
  function Reader(replies: seq<string>): (nat, string) -> string
  {
    (k: nat, w: string) => WordOf(VRDriver.Reply(replies, k), w)
  }

  /** `"addtracker " + Name + " " + Role`. */
  function AddCommand(t: TrackerConnection): string
  {
    "addtracker " + t.name + " " + t.role
  }

  /** `"settings 120 " + to_string(smoothingFactor) + " " + to_string(additionalSmoothing)`. */
  function SettingsCommand(c: LegacyConfig.UserConfig): string
  {
    "settings 120 " + Fixed6(c.smoothingFactor) + " " + Fixed6(c.additionalSmoothing)
  }

  /** The driver's answer to "numtrackers": its tracker count and the word read
    * after it, or the error it causes. */
  datatype Greeting = Greeted(count: int, word: string) | Refused(code: ErrorCode, msg: string)

  /** The reply's first word must be "numtrackers"; the count and the version
    * word follow, and the version must be the configured driver version. A
    * failed read keeps the word read before it. */
  function Greet(reply: string, driverVersion: string): (g: Greeting)
    ensures g.Greeted? ==> g.word == driverVersion
    ensures g.Refused? ==> g.code in {DriverError, DriverMismatch}
  {
    var (w0, s0) := ReadWord(Stream(reply, true), []);
    if w0 != "numtrackers" then Refused(DriverError, [])
    else
      var (count, s1) := ReadInt(s0, 0);
      var w1 := ReadWord(s1, w0).0;
      if w1 != driverVersion then Refused(DriverMismatch, w1) else Greeted(count, w1)
  }

  /** The registration loop from entry `i` on, with `word` holding the last word
    * read, `read` the words the replies leave and `k` replies used: each entry
    * is sent and its reply must leave "added". A start below 0 compares as a
    * huge unsigned size, so nothing is sent. Returns the commands sent and the
    * error, if any. */
  function AddFrom(trackers: seq<TrackerConnection>, i: int, word: string, read: (nat, string) -> string, k: nat)
    : (r: (seq<string>, Option<ErrorCode>))
    ensures r.1.Some? ==> r.1.value == SomethingWrong
    ensures |r.0| <= if 0 <= i < |trackers| then |trackers| - i else 0
    decreases |trackers| - i
  {
    if !(0 <= i < |trackers|) then ([], None)
    else
      var w := read(k, word);
      if w != "added" then ([AddCommand(trackers[i])], Some(SomethingWrong))
      else
        var next := AddFrom(trackers, i + 1, w, read, k + 1);
        ([AddCommand(trackers[i])] + next.0, next.1)
  }

  /** What `Connect` does after the driver's greeting: the missing trackers, then
    * the station and the settings. */
  function Register(c: LegacyConfig.UserConfig, trackers: seq<TrackerConnection>, count: int, word: string,
                    read: (nat, string) -> string): (r: (seq<string>, Option<(ErrorCode, string)>))
  {
    var added := AddFrom(trackers, count, word, read, 1);
    if added.1.Some? then (added.0, Some((added.1.value, [])))
    else (added.0 + ["addstation", SettingsCommand(c)], None)
  }

  /** What `Connect` does once OpenVR is up: the commands sent, given the
    * driver's greeting and the words its later replies leave, and the error set, if any. */
  function HandshakeWith(c: LegacyConfig.UserConfig, trackers: seq<TrackerConnection>, g: Greeting,
                         read: (nat, string) -> string): (r: (seq<string>, Option<(ErrorCode, string)>))
  {
    match g
    case Refused(code, msg) => (["numtrackers"], Some((code, msg)))
    case Greeted(count, word) =>
      var r := Register(c, trackers, count, word, read);
      (["numtrackers"] + r.0, r.1)
  }

  /** The same, given the driver's replies. */
  function Handshake(c: LegacyConfig.UserConfig, trackers: seq<TrackerConnection>, replies: seq<string>)
    : (r: (seq<string>, Option<(ErrorCode, string)>))
  {
    HandshakeWith(c, trackers, Greet(VRDriver.Reply(replies, 0), c.driverVersion), Reader(replies))
  }

  /** The driver's own "numtrackers" reply: accepted, with its count, exactly
    * when its version is the configured one; otherwise the version it reports
    * is the error message. */
  lemma GreetCountReply(count: int, version: string, driverVersion: string)
    requires Text.INT_MIN <= count <= Text.INT_MAX && version != [] && SpaceFree(version)
    ensures Greet(VRDriver.CountReply(count, version), driverVersion)
      == if version == driverVersion then Greeted(count, version) else Refused(DriverMismatch, version)
  {
    var tail := ArgsText([Int(count), Word(version)]);
    var t1 := ArgsText([Word(version)]);
    assert [Int(count), Word(version)][1..] == [Word(version)];
    assert tail == " " + (Text.IntToString(count) + t1);
    assert t1 == " " + version by {
      assert [Word(version)][1..] == [];
      assert t1 == " " + ArgText(Word(version)) + ArgsText([]);
    }
    assert version + [] == version;
    ReadWordBack("numtrackers", tail, []);
    ReadIntSpace(tail, Text.IntToString(count) + t1, 0);
    ReadIntBack(count, t1, 0);
    ReadWordSpace(t1, version, "numtrackers");
    ReadWordBack(version, [], "numtrackers");
  }

  /** A reply that does not begin with "numtrackers", an empty one included,
    * is a driver error and nothing more is sent. */
  lemma HandshakeRefusesOtherReply(c: LegacyConfig.UserConfig, trackers: seq<TrackerConnection>, replies: seq<string>)
    requires ReadWord(Stream(VRDriver.Reply(replies, 0), true), []).0 != "numtrackers"
    ensures Handshake(c, trackers, replies) == (["numtrackers"], Some((DriverError, [])))
  {
  }

  /** Reading "added" leaves "added", whatever was read before. */
  lemma AddedRead(w: string)
    ensures WordOf("added", w) == "added"
  {
    assert "added" + [] == "added";
    ReadWordBack("added", [], w);
  }

  /** The registrations of the entries from `count` on; none from a negative count. */
  function Missing(trackers: seq<TrackerConnection>, count: int): (cmds: seq<string>)
    ensures |cmds| == if 0 <= count < |trackers| then |trackers| - count else 0
    ensures forall j :: 0 <= j < |cmds| ==> cmds[j] == AddCommand(trackers[count + j])
  {
    if 0 <= count < |trackers| then
      seq(|trackers| - count, j requires 0 <= j < |trackers| - count => AddCommand(trackers[count + j]))
    else []
  }

  /** Once every registration is acknowledged, the missing trackers, the
    * station and the settings are sent, and no error is set. */
  lemma RegisterAcknowledged(c: LegacyConfig.UserConfig, trackers: seq<TrackerConnection>, count: int, word: string,
                             read: (nat, string) -> string)
    requires forall j: nat :: 1 <= j ==> read(j, "added") == "added"
    requires read(1, word) == "added"
    ensures Register(c, trackers, count, word, read) == (Missing(trackers, count) + ["addstation", SettingsCommand(c)], None)
  {
    AddFromSendsMissing(trackers, count, word, read, 1);
    assert AddFrom(trackers, count, word, read, 1).0 == Missing(trackers, count);
  }

  /** A driver that reports the configured version and acknowledges every
    * registration with "added" is sent exactly the trackers it lacks, from its
    * count on, then the station and the settings, and no error is set. */
  lemma HandshakeRegistersMissing(c: LegacyConfig.UserConfig, trackers: seq<TrackerConnection>,
                                  replies: seq<string>, count: int)
    requires 0 <= count <= Text.INT_MAX && c.driverVersion != [] && SpaceFree(c.driverVersion)
    requires |replies| > 1 && replies[0] == VRDriver.CountReply(count, c.driverVersion)
    requires forall j :: 1 <= j < |replies| ==> replies[j] == "added"
    ensures Handshake(c, trackers, replies)
      == (["numtrackers"] + Missing(trackers, count) + ["addstation", SettingsCommand(c)], None)
  {
    GreetCountReply(count, c.driverVersion, c.driverVersion);
    ReaderAcknowledges(replies, c.driverVersion);
    RegisterAcknowledged(c, trackers, count, c.driverVersion, Reader(replies));
    Assoc(["numtrackers"], Missing(trackers, count), ["addstation", SettingsCommand(c)]);
  }

  /** Replies that are all "added" leave "added", and an exhausted script
    * leaves the word read before. */
  lemma ReaderAcknowledges(replies: seq<string>, word: string)
    requires |replies| > 1 && forall j :: 1 <= j < |replies| ==> replies[j] == "added"
    ensures forall j: nat :: 1 <= j ==> Reader(replies)(j, "added") == "added"
    ensures Reader(replies)(1, word) == "added"
  {
    forall j: nat | 1 <= j
      ensures Reader(replies)(j, "added") == "added"
    {
      if j < |replies| {
        assert VRDriver.Reply(replies, j) == "added";
        AddedRead("added");
      } else {
        assert VRDriver.Reply(replies, j) == [];
        assert Text.NextWord([]).0 == [];
      }
    }
    assert VRDriver.Reply(replies, 1) == "added";
    AddedRead(word);
  }

  /** One step of the registration loop, seen from the loop: `done` commands
    * sent so far and `total` the whole loop's outcome. */
  lemma AddFromStep(trackers: seq<TrackerConnection>, i: int, word: string, read: (nat, string) -> string, k: nat,
                    done: seq<string>, total: (seq<string>, Option<ErrorCode>))
    requires 0 <= i < |trackers|
    requires done + AddFrom(trackers, i, word, read, k).0 == total.0 && AddFrom(trackers, i, word, read, k).1 == total.1
    ensures var w := read(k, word);
      var next := AddFrom(trackers, i + 1, w, read, k + 1);
      (w != "added" ==> total == (done + [AddCommand(trackers[i])], Some(SomethingWrong)))
      && (w == "added" ==> (done + [AddCommand(trackers[i])]) + next.0 == total.0 && next.1 == total.1)
  {
    var w := read(k, word);
    var next := AddFrom(trackers, i + 1, w, read, k + 1);
    if w == "added" {
      Assoc(done, [AddCommand(trackers[i])], next.0);
    }
  }

  /** Trackers the driver already counts are not added again: when every reply
    * is acknowledged, exactly the entries from the driver's count on are sent,
    * in order, and no error is set. */
  lemma {:induction false} AddFromSendsMissing(trackers: seq<TrackerConnection>, i: int, word: string,
                                               read: (nat, string) -> string, k: nat)
    requires forall j: nat :: k <= j < k + |trackers| - i ==> read(j, "added") == "added"
    requires word == "added" || !(0 <= i < |trackers|) || read(k, word) == "added"
    ensures var r := AddFrom(trackers, i, word, read, k);
      r.1.None? && |r.0| == (if 0 <= i < |trackers| then |trackers| - i else 0)
      && forall j :: 0 <= j < |r.0| ==> r.0[j] == AddCommand(trackers[i + j])
    decreases |trackers| - i
  {
    if 0 <= i < |trackers| {
      AddFromSendsMissing(trackers, i + 1, read(k, word), read, k + 1);
    }
  }

  /** A refusal stops the loop at that tracker: the commands sent are the
    * entries up to it, and the error is set. */
  lemma {:induction false} AddFromStopsAtRefusal(trackers: seq<TrackerConnection>, i: int, word: string,
                                                 read: (nat, string) -> string, k: nat, n: nat)
    requires 0 <= i && i + n < |trackers|
    requires forall j: nat :: k <= j < k + n ==> read(j, "added") == "added"
    requires n == 0 || word == "added" || read(k, word) == "added"
    requires read(k + n, if n == 0 then word else "added") != "added"
    ensures var r := AddFrom(trackers, i, word, read, k);
      r.1 == Some(SomethingWrong) && |r.0| == n + 1
      && forall j :: 0 <= j <= n ==> r.0[j] == AddCommand(trackers[i + j])
    decreases n
  {
    if n > 0 {
      AddFromStopsAtRefusal(trackers, i + 1, read(k, word), read, k + 1, n - 1);
    }
  }

  // ---------------------------------------------------------------------------
  // The connection
  // ---------------------------------------------------------------------------

  class Connection {
    const config: LegacyConfig.UserConfig
    const bridge: VRDriver.Bridge
    var status: Status
    var errorCode: ErrorCode
    var errorMsg: string
    var connectedTrackers: seq<TrackerConnection>

    constructor(config: LegacyConfig.UserConfig, bridge: VRDriver.Bridge)
      ensures this.config == config && this.bridge == bridge
      ensures status == Disconnected && errorCode == OK && errorMsg == [] && connectedTrackers == []
    {
      this.config := config;
      this.bridge := bridge;
      status := Disconnected;
      errorCode := OK;
      errorMsg := [];
      connectedTrackers := [];
    }

    /** `GetAndResetErrorState`: the stored code, which is cleared. */
    method GetAndResetErrorState() returns (code: ErrorCode)
      modifies this
      ensures code == old(errorCode) && errorCode == OK
      ensures status == old(status) && errorMsg == old(errorMsg) && connectedTrackers == old(connectedTrackers)
    {
      code := errorCode;
      errorCode := OK;
    }

    /** `SetError`: records a real error and drops the connection. */
    method SetError(code: ErrorCode, msg: string)
      requires code != OK
      modifies this
      ensures errorCode == code && errorMsg == msg && status == Disconnected
      ensures connectedTrackers == old(connectedTrackers)
    {
      errorCode := code;
      errorMsg := msg;
      status := Disconnected;
    }

    /** `Connect`'s mapping: the list is cleared and refilled by the branch's loop. */
    method MapTrackers()
      modifies this
      ensures connectedTrackers == Mapping(config.trackerNum, config.ignoreTracker0)
      ensures status == old(status) && errorCode == old(errorCode) && errorMsg == old(errorMsg)
    {
      connectedTrackers := [];
      var n := config.trackerNum;
      if config.ignoreTracker0 && n == 3 {
        AppendRun(n - 1, 1, 1, []);
        connectedTrackers := connectedTrackers[0 := WithRole(connectedTrackers[0], LeftFoot)];
        connectedTrackers := connectedTrackers[1 := WithRole(connectedTrackers[1], RightFoot)];
      } else if config.ignoreTracker0 {
        AppendRun(n - 1, 1, 1, Waist);
      } else if n == 3 {
        AppendRun(n, 0, 0, []);
        connectedTrackers := connectedTrackers[0 := WithRole(connectedTrackers[0], Waist)];
        connectedTrackers := connectedTrackers[1 := WithRole(connectedTrackers[1], LeftFoot)];
        connectedTrackers := connectedTrackers[2 := WithRole(connectedTrackers[2], RightFoot)];
      } else if n == 2 {
        AppendRun(n, 0, 0, []);
        connectedTrackers := connectedTrackers[0 := WithRole(connectedTrackers[0], LeftFoot)];
        connectedTrackers := connectedTrackers[1 := WithRole(connectedTrackers[1], RightFoot)];
      } else {
        AppendRun(n, 0, 1, Waist);
      }
    }

    /** One mapping loop, appending to the cleared list. */
    method AppendRun(n: int, idShift: int, nameShift: int, role: string)
      requires connectedTrackers == []
      modifies this
      ensures connectedTrackers == Run(n, idShift, nameShift, role)
      ensures status == old(status) && errorCode == old(errorCode) && errorMsg == old(errorMsg)
    {
      var i := 0;
      while i < n
        invariant 0 <= i && (n > 0 ==> i <= n) && (n <= 0 ==> i == 0)
        invariant connectedTrackers == Run(i, idShift, nameShift, role)
        invariant status == old(status) && errorCode == old(errorCode) && errorMsg == old(errorMsg)
      {
        connectedTrackers := connectedTrackers + [TrackerConnection(i + idShift, i, Name(i + nameShift), role)];
        i := i + 1;
      }
    }

    /** `Connect`, run to completion: `vrInitError` is OpenVR's initialisation
      * error, if any, and `bindingsExist` whether the action manifest is found. */
    method Connect(vrInitError: Option<string>, bindingsExist: bool)
      modifies this, bridge
      ensures connectedTrackers == Mapping(config.trackerNum, config.ignoreTracker0)
      ensures config.disableOpenVrApi ==>
        status == Connected && errorCode == old(errorCode) && errorMsg == old(errorMsg) && unchanged(bridge)
      ensures !config.disableOpenVrApi && vrInitError.Some? ==>
        status == Disconnected && errorCode == ClientError && errorMsg == vrInitError.value && unchanged(bridge)
      ensures !config.disableOpenVrApi && vrInitError.None? && !bindingsExist ==>
        status == Disconnected && errorCode == BindingsMissing && errorMsg == [] && unchanged(bridge)
      ensures !config.disableOpenVrApi && vrInitError.None? && bindingsExist ==>
        var (sent, err) := Handshake(config, connectedTrackers, old(bridge.replies));
        bridge.sent == old(bridge.sent) + sent && bridge.replies == VRDriver.Drop(old(bridge.replies), |sent|)
        && (err.None? ==> status == Connected && errorCode == old(errorCode) && errorMsg == old(errorMsg))
        && (err.Some? ==> status == Disconnected && errorCode == err.value.0 && errorMsg == err.value.1)
    {
      MapTrackers();
      if config.disableOpenVrApi {
        status := Connected;
        return;
      }
      if vrInitError.Some? {
        SetError(ClientError, vrInitError.value);
        return;
      }
      if !bindingsExist {
        SetError(BindingsMissing, []);
        return;
      }
      RunHandshake(Reader(bridge.replies));
    }

    /** The exchange with the driver: count and version, the missing trackers,
      * the station and the settings. */
    method RunHandshake(ghost read: (nat, string) -> string)
      requires forall k: nat, w {:trigger WordOf(VRDriver.Reply(bridge.replies, k), w)} ::
        read(k, w) == WordOf(VRDriver.Reply(bridge.replies, k), w)
      modifies this, bridge
      ensures connectedTrackers == old(connectedTrackers)
      ensures var h := HandshakeWith(config, connectedTrackers, Greet(VRDriver.Reply(old(bridge.replies), 0), config.driverVersion), read);
        bridge.sent == old(bridge.sent) + h.0 && bridge.replies == VRDriver.Drop(old(bridge.replies), |h.0|)
        && (h.1.None? ==> status == Connected && errorCode == old(errorCode) && errorMsg == old(errorMsg))
        && (h.1.Some? ==> status == Disconnected && errorCode == h.1.value.0 && errorMsg == h.1.value.1)
    {
      ghost var sent0 := bridge.sent;
      ghost var replies0 := bridge.replies;
      var res := bridge.SendRecv("numtrackers");
      Proceed(Greet(res, config.driverVersion), sent0, replies0, read);
    }

    /** The rest of the handshake once the greeting is read. */
    method Proceed(g: Greeting, ghost sent0: seq<string>, ghost replies0: seq<string>, ghost read: (nat, string) -> string)
      requires g.Refused? ==> g.code != OK
      requires bridge.sent == sent0 + ["numtrackers"] && bridge.replies == VRDriver.Drop(replies0, 1)
      requires forall k: nat, w {:trigger WordOf(VRDriver.Reply(replies0, k), w)} ::
        read(k, w) == WordOf(VRDriver.Reply(replies0, k), w)
      modifies this, bridge
      ensures connectedTrackers == old(connectedTrackers)
      ensures var h := HandshakeWith(config, connectedTrackers, g, read);
        bridge.sent == sent0 + h.0 && bridge.replies == VRDriver.Drop(replies0, |h.0|)
        && (h.1.None? ==> status == Connected && errorCode == old(errorCode) && errorMsg == old(errorMsg))
        && (h.1.Some? ==> status == Disconnected && errorCode == h.1.value.0 && errorMsg == h.1.value.1)
    {
      match g
      case Refused(code, msg) =>
        SetError(code, msg);
      case Greeted(count, word) =>
        ghost var r := Register(config, connectedTrackers, count, word, read);
        RegisterAll(count, word, sent0, replies0, read);
        Assoc(sent0, ["numtrackers"], r.0);
    }

    /** The registration after the greeting: the missing trackers, then
      * "addstation" and the settings. */
    method RegisterAll(count: int, word: string, ghost sent0: seq<string>, ghost replies0: seq<string>,
                       ghost read: (nat, string) -> string)
      requires bridge.sent == sent0 + ["numtrackers"] && bridge.replies == VRDriver.Drop(replies0, 1)
      requires forall k: nat, w {:trigger WordOf(VRDriver.Reply(replies0, k), w)} ::
        read(k, w) == WordOf(VRDriver.Reply(replies0, k), w)
      modifies this, bridge
      ensures connectedTrackers == old(connectedTrackers)
      ensures var (sent, err) := Register(config, connectedTrackers, count, word, read);
        bridge.sent == sent0 + ["numtrackers"] + sent && bridge.replies == VRDriver.Drop(replies0, 1 + |sent|)
        && (err.None? ==> status == Connected && errorCode == old(errorCode) && errorMsg == old(errorMsg))
        && (err.Some? ==> status == Disconnected && errorCode == err.value.0 && errorMsg == err.value.1)
    {
      var added := AddMissing(count, word, sent0, replies0, read);
      ghost var n := |AddFrom(connectedTrackers, count, word, read, 1).0|;
      if added.Some? {
        SetError(added.value, []);
        return;
      }
      var res := bridge.SendRecv("addstation");
      res := bridge.SendRecv(SettingsCommand(config));
      VRDriver.DropOneMore(replies0, n + 1);
      VRDriver.DropOneMore(replies0, n + 2);
      status := Connected;
    }

    /** One registration: the tracker is sent and the reply's word read. */
    method AddOne(t: TrackerConnection, word: string, ghost replies0: seq<string>, ghost k: nat,
                  ghost read: (nat, string) -> string) returns (w: string)
      requires bridge.replies == VRDriver.Drop(replies0, k)
      requires forall k: nat, w {:trigger WordOf(VRDriver.Reply(replies0, k), w)} ::
        read(k, w) == WordOf(VRDriver.Reply(replies0, k), w)
      modifies bridge
      ensures bridge.sent == old(bridge.sent) + [AddCommand(t)] && bridge.replies == VRDriver.Drop(replies0, k + 1)
      ensures w == read(k, word)
    {
      var res := bridge.SendRecv(AddCommand(t));
      VRDriver.DropOneMore(replies0, k);
      w := WordOf(res, word);
    }

    /** The registration loop: `for (int i = count; i < connectedTrackers.size(); i++)`;
      * `read` stands for the words the replies leave. */
    method AddMissing(count: int, word0: string, ghost sent0: seq<string>, ghost replies0: seq<string>,
                      ghost read: (nat, string) -> string)
      returns (err: Option<ErrorCode>)
      requires bridge.sent == sent0 + ["numtrackers"] && bridge.replies == VRDriver.Drop(replies0, 1)
      requires forall k: nat, w {:trigger WordOf(VRDriver.Reply(replies0, k), w)} ::
        read(k, w) == WordOf(VRDriver.Reply(replies0, k), w)
      modifies bridge
      ensures err == AddFrom(connectedTrackers, count, word0, read, 1).1
      ensures bridge.sent == sent0 + ["numtrackers"] + AddFrom(connectedTrackers, count, word0, read, 1).0
      ensures bridge.replies == VRDriver.Drop(replies0, 1 + |AddFrom(connectedTrackers, count, word0, read, 1).0|)
    {
      if count < 0 { return None; }
      var ts := connectedTrackers;
      var i := count;
      var word := word0;
      ghost var done: seq<string> := [];
      ghost var k: nat := 1;
      ghost var total := AddFrom(ts, count, word0, read, 1);
      assert done + total.0 == total.0;
      while i < |ts|
        invariant 0 <= i
        invariant bridge.sent == sent0 + ["numtrackers"] + done
        invariant bridge.replies == VRDriver.Drop(replies0, k) && k == 1 + |done|
        invariant done + AddFrom(ts, i, word, read, k).0 == total.0 && AddFrom(ts, i, word, read, k).1 == total.1
        decreases |ts| - i
      {
        AddFromStep(ts, i, word, read, k, done, total);
        word := AddOne(ts[i], word, replies0, k, read);
        done := done + [AddCommand(ts[i])];
        k := k + 1;
        if word != "added" {
          err := Some(SomethingWrong);
          return;
        }
        i := i + 1;
      }
      assert done + [] == done;
      err := None;
    }

    /** `StartConnection`: the error is cleared; a connection that is waiting or
      * up is refused, which also marks it disconnected; otherwise it connects. */
    method StartConnection(vrInitError: Option<string>, bindingsExist: bool)
      modifies this, bridge
      ensures old(status) == Waiting ==> errorCode == AlreadyWaiting && status == Disconnected && unchanged(bridge)
      ensures old(status) == Connected ==> errorCode == AlreadyConnected && status == Disconnected && unchanged(bridge)
      ensures old(status) == Disconnected ==> connectedTrackers == Mapping(config.trackerNum, config.ignoreTracker0)
      ensures old(status) == Disconnected && config.disableOpenVrApi ==> status == Connected && errorCode == OK
    {
      var _ := GetAndResetErrorState();
      if status == Waiting {
        SetError(AlreadyWaiting, []);
        return;
      }
      if status == Connected {
        SetError(AlreadyConnected, []);
        return;
      }
      Connect(vrInitError, bindingsExist);
    }

    /** `GetButtonStates` with the two digital actions' states: nothing while
      * disconnected or with OpenVR disabled, then the camera button before the
      * trackers button. */
    function ButtonStates(cameraPressed: bool, trackersPressed: bool): (r: int)
      reads this
      ensures (status == Disconnected || config.disableOpenVrApi) ==> r == 0
      ensures r != 0 ==> status != Disconnected && !config.disableOpenVrApi
      ensures r == 1 <==> status != Disconnected && !config.disableOpenVrApi && cameraPressed
      ensures r == 2 <==> status != Disconnected && !config.disableOpenVrApi && !cameraPressed && trackersPressed
    {
      if status == Disconnected || config.disableOpenVrApi then 0
      else if cameraPressed then 1
      else if trackersPressed then 2
      else 0
    }

    /** `SendTracker`: one pose update, as text. */
    method SendTracker(id: int, pose: Pose, time: real, smoothing: real) returns (res: string)
      modifies bridge
      ensures bridge.sent == old(bridge.sent) + [TrackerText(id, pose, time, smoothing)]
      ensures res == VRDriver.Reply(old(bridge.replies), 0) && bridge.replies == VRDriver.Drop(old(bridge.replies), 1)
    {
      res := bridge.SendRecv(TrackerText(id, pose, time, smoothing));
    }

    /** `SendStation`: one station pose, as text. */
    method SendStation(id: int, pose: Pose) returns (res: string)
      modifies bridge
      ensures bridge.sent == old(bridge.sent) + [StationText(id, pose)]
      ensures res == VRDriver.Reply(old(bridge.replies), 0) && bridge.replies == VRDriver.Drop(old(bridge.replies), 1)
    {
      res := bridge.SendRecv(StationText(id, pose));
    }
  }

  /** Every field after one space, in order. */
  function Spaced(fs: seq<string>): string
  {
    if fs == [] then [] else " " + fs[0] + Spaced(fs[1..])
  }

  /** The fields of a pose, each printed with six decimals. */
  function PoseFields(p: Pose): seq<string>
  {
    Fixed6All([p.px, p.py, p.pz, p.qw, p.qx, p.qy, p.qz])
  }

  /** Each value printed with six decimals, in order. */
  function Fixed6All(xs: seq<real>): (fs: seq<string>)
    ensures |fs| == |xs|
  {
    if xs == [] then [] else [Fixed6(xs[0])] + Fixed6All(xs[1..])
  }

  /** The text `SendTracker` builds: the command, every value after a space,
    * each real with six decimals as `std::to_string` prints it, and a newline. */
  function TrackerText(id: int, p: Pose, time: real, smoothing: real): string
  {
    " updatepose" + Spaced([Text.IntToString(id)] + PoseFields(p) + [Fixed6(time), Fixed6(smoothing)]) + "\n"
  }

  /** The text `SendStation` builds. */
  function StationText(id: int, p: Pose): string
  {
    " updatestation" + Spaced([Text.IntToString(id)] + PoseFields(p)) + "\n"
  }

  lemma {:induction false} SpacedAppend(a: seq<string>, b: seq<string>)
    ensures Spaced(a + b) == Spaced(a) + Spaced(b)
  {
    if a == [] {
      assert a + b == b;
    } else {
      assert (a + b)[0] == a[0] && (a + b)[1..] == a[1..] + b;
      SpacedAppend(a[1..], b);
      assert Spaced(a + b) == " " + a[0] + (Spaced(a[1..]) + Spaced(b));
    }
  }

  lemma {:induction false} SpacedReals(xs: seq<real>)
    ensures SpacedText(xs) == Spaced(Fixed6All(xs))
  {
    if xs != [] {
      SpacedReals(xs[1..]);
      var fs := Fixed6All(xs);
      assert fs[0] == Fixed6(xs[0]) && fs[1..] == Fixed6All(xs[1..]);
    }
  }

  lemma {:induction false} ArgsSpaced(args: seq<Arg>)
    ensures ArgsText(args) == Spaced(seq(|args|, i requires 0 <= i < |args| => ArgText(args[i])))
  {
    if args != [] {
      ArgsSpaced(args[1..]);
      var fs := seq(|args|, i requires 0 <= i < |args| => ArgText(args[i]));
      assert fs[1..] == seq(|args[1..]|, i requires 0 <= i < |args[1..]| => ArgText(args[1..][i]));
    }
  }

  /** Spacing a list whose middle entry is itself a spaced list. */
  lemma SpacedSplice(head: seq<string>, mid: string, fields: seq<string>, rest: seq<string>)
    requires Spaced([mid]) == Spaced(fields)
    ensures Spaced(head + [mid] + rest) == Spaced(head + fields + rest)
  {
    SpacedAppend(head + [mid], rest);
    SpacedAppend(head, [mid]);
    SpacedAppend(head + fields, rest);
    SpacedAppend(head, fields);
  }

  /** The same with the spaced list at the end. */
  lemma SpacedSpliceLast(head: seq<string>, mid: string, fields: seq<string>)
    requires Spaced([mid]) == Spaced(fields)
    ensures Spaced(head + [mid]) == Spaced(head + fields)
  {
    SpacedAppend(head, [mid]);
    SpacedAppend(head, fields);
  }

  /** A pose argument is the pose's seven fields, spaced. */
  lemma PoseSpaced(p: Pose)
    ensures Spaced([PoseText(p)]) == Spaced(PoseFields(p))
  {
    var all := [p.px, p.py, p.pz, p.qw, p.qx, p.qy, p.qz];
    var xs := [p.py, p.pz, p.qw, p.qx, p.qy, p.qz];
    assert all[0] == p.px && all[1..] == xs;
    assert PoseFields(p) == [Fixed6(p.px)] + Fixed6All(xs);
    SpacedReals(xs);
    SpacedFirst(Fixed6(p.px), SpacedText(xs), Fixed6All(xs));
  }

  /** A single field that is a text `a` followed by spaced fields is spaced
    * like `a` and those fields. */
  lemma SpacedFirst(a: string, t: string, rest: seq<string>)
    requires t == Spaced(rest)
    ensures Spaced([a + t]) == Spaced([a] + rest)
  {
    assert [a + t][1..] == [] && ([a] + rest)[1..] == rest;
  }

  lemma CommandWords()
    ensures " " + "updatepose" == " updatepose" && " " + "updatestation" == " updatestation"
  {
  }

  /** The older sender writes the same text as the newer command builder, followed
    * by a newline, so either driver reads the same command. */
  lemma TrackerTextIsCommand(id: int, p: Pose, time: real, smoothing: real)
    ensures TrackerText(id, p, time, smoothing)
      == ClientCommand("updatepose", [Int(id), PoseArg(p), Real(time), Real(smoothing)]) + "\n"
  {
    var args := [Int(id), PoseArg(p), Real(time), Real(smoothing)];
    var head, rest := [Text.IntToString(id)], [Fixed6(time), Fixed6(smoothing)];
    assert ArgsText(args) == Spaced(head + [PoseText(p)] + rest) by {
      ArgsSpaced(args);
      assert seq(|args|, i requires 0 <= i < |args| => ArgText(args[i])) == head + [PoseText(p)] + rest;
    }
    assert Spaced(head + [PoseText(p)] + rest) == Spaced(head + PoseFields(p) + rest) by {
      PoseSpaced(p);
      SpacedSplice(head, PoseText(p), PoseFields(p), rest);
    }
    CommandWords();
  }

  lemma StationTextIsCommand(id: int, p: Pose)
    ensures StationText(id, p) == ClientCommand("updatestation", [Int(id), PoseArg(p)]) + "\n"
  {
    var args := [Int(id), PoseArg(p)];
    var head := [Text.IntToString(id)];
    assert ArgsText(args) == Spaced(head + [PoseText(p)]) by {
      ArgsSpaced(args);
      assert seq(|args|, i requires 0 <= i < |args| => ArgText(args[i])) == head + [PoseText(p)];
    }
    assert Spaced(head + [PoseText(p)]) == Spaced(head + PoseFields(p)) by {
      PoseSpaced(p);
      SpacedSpliceLast(head, PoseText(p), PoseFields(p));
    }
    CommandWords();
  }
}
