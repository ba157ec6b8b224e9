/** The tracker's client of the SteamVR bridge driver (`tracker::VRDriver`): every
  * call sends one command line to the driver and checks the one-line reply, whose
  * first word names the answer and whose other words fill the out-arguments. */
module VRDriver {
  import opened Wrappers
  import Text
  import SemVer
  import opened CommandStream

  // ---------------------------------------------------------------------------
  // Checking a reply
  // ---------------------------------------------------------------------------

  const NoResponse: string := "no response from driver"

  function IndicatedFailure(buffer: string): string
  {
    "command response indicated failure: " + buffer
  }

  /** The first word of a reply, empty when the reply holds only white space. */
  function FirstWord(buffer: string): string
  {
    Text.NextWord(buffer).0
  }

  predicate AllSpace(s: string)
  {
    forall i :: 0 <= i < |s| ==> Text.IsSpace(s[i])
  }

  /** `VerifyAndParseResponse`: the reply's first word must be `expectName`; the
    * rest of the reply is then read into the out-arguments, in order. */
  function ParseResponse(buffer: string, expectName: string, outs: seq<Value>): (r: Result<seq<Value>>)
    ensures r.Ok? ==> FirstWord(buffer) == expectName && |r.value| == |outs|
    ensures r.Ok? ==> forall k :: 0 <= k < |outs| ==> SameKind(r.value[k], outs[k])
  {
    var (name, st) := ReadWord(Stream(buffer, true), []);
    if name == [] then Err(NoResponse)
    else if name != expectName then Err(IndicatedFailure(buffer))
    else Ok(ReadAll(st, outs).0)
  }

  /** A reply of white space only is "no response"; any other reply is not. */
  lemma NoResponseIffBlank(buffer: string, expectName: string, outs: seq<Value>)
    requires expectName != []
    ensures ParseResponse(buffer, expectName, outs) == Err(NoResponse) <==> AllSpace(buffer)
  {
    var sp := Text.LeadingSpace(buffer);
    if AllSpace(buffer) {
      assert sp == |buffer|;
    } else {
      assert sp < |buffer|;
      assert FirstWord(buffer) != [] by {
        assert Text.LeadingWord(buffer[sp..]) > 0;
      }
      assert IndicatedFailure(buffer)[0] != NoResponse[0];
    }
  }

  /** A reply whose first word is some other name is a failure that quotes the reply. */
  lemma MismatchQuotesReply(buffer: string, expectName: string, outs: seq<Value>)
    requires FirstWord(buffer) != [] && FirstWord(buffer) != expectName
    ensures ParseResponse(buffer, expectName, outs) == Err(IndicatedFailure(buffer))
  {
  }

  /** What a driver writes as `name arg...` is accepted under that name, and the
    * out-arguments receive the arguments as printing kept them. */
  lemma ParseServerReply(name: string, args: seq<Arg>, outs: seq<Value>)
    requires name != [] && SpaceFree(name) && AllFit(args, outs)
    ensures ParseResponse(ServerReply(name, args), name, outs) == Ok(AllReceived(args))
  {
    var tail := ArgsText(args);
    assert Boundary(tail);
    ReadWordBack(name, tail, []);
    ReadAllBack(args, outs, []);
    assert tail + [] == tail;
  }

  /** `VerifyAndParseResponse(" updated", "updated")` does not throw. */
  lemma AcceptsUpdated()
    ensures ParseResponse(" updated", "updated", []) == Ok([])
  {
    var reply := ServerReply("updated", []);
    assert " updated" == " " + reply;
    ParseServerReply("updated", [], []);
    SpaceBeforeReply(reply, "updated", []);
  }

  /** `VerifyAndParseResponse(" updated", "idinvalid")` throws. */
  lemma RejectsOtherName()
    ensures ParseResponse(" updated", "idinvalid", []) == Err(IndicatedFailure(" updated"))
  {
    var reply := ServerReply("updated", []);
    assert " updated" == " " + reply;
    ParseServerReply("updated", [], []);
    SpaceBeforeReply(reply, "updated", []);
    MismatchQuotesReply(" updated", "idinvalid", []);
  }

  /** `VerifyAndParseResponse(" foo 12", "foo", outId)` stores 12 in `outId`. */
  lemma ReadsOutId()
    ensures ParseResponse(" foo 12", "foo", [IntV(-1)]) == Ok([IntV(12)])
  {
    var reply := ServerReply("foo", [Int(12)]);
    assert " foo 12" == " " + reply;
    ParseServerReply("foo", [Int(12)], [IntV(-1)]);
    assert AllReceived([Int(12)]) == [IntV(12)];
    SpaceBeforeReply(reply, "foo", [IntV(-1)]);
  }

  /** A leading space before a reply changes nothing but the quoted text. */
  lemma SpaceBeforeReply(buffer: string, expectName: string, outs: seq<Value>)
    requires buffer != [] && !Text.IsSpace(buffer[0])
    ensures ParseResponse(" " + buffer, expectName, outs).Ok? == ParseResponse(buffer, expectName, outs).Ok?
    ensures ParseResponse(buffer, expectName, outs).Ok? ==> ParseResponse(" " + buffer, expectName, outs) == ParseResponse(buffer, expectName, outs)
    ensures FirstWord(" " + buffer) == FirstWord(buffer)
  {
    var s := " " + buffer;
    assert Text.LeadingSpace(s) == 1 by { assert s[1..] == buffer; }
    assert s[1..] == buffer && buffer[0..] == buffer;
  }

  // ---------------------------------------------------------------------------
  // The replies of the individual commands
  // ---------------------------------------------------------------------------

  /** A reply to a command that returns nothing but its acknowledgement. */
  function Acknowledged(res: string, expectName: string): (r: Result<()>)
    ensures r.Ok? <==> ParseResponse(res, expectName, []).Ok?
  {
    match ParseResponse(res, expectName, [])
    case Err(m) => Err(m)
    case Ok(_) => Ok(())
  }

  /** `CmdGetTrackerCount`'s check of the count and version it read: the count
    * must not be negative and the version must be compatible with the expected one. */
  function CountChecked(count: int, versionStr: string, expected: SemVer.Version): (r: Result<int>)
    ensures r.Ok? <==> count >= 0 && SemVer.Compatible(SemVer.Scan(versionStr, SemVer.Zero, 0), expected)
    ensures r.Ok? ==> r.value == count
  {
    if count < 0 then Err("invalid tracker count: " + Text.IntToString(count))
    else if !SemVer.Compatible(SemVer.Scan(versionStr, SemVer.Zero, 0), expected) then
      Err("incompatible bridge driver: " + versionStr + " expected: " + SemVer.ToString(expected))
    else Ok(count)
  }

  /** `CmdGetTrackerCount`'s check of the reply "numtrackers count version". */
  function TrackerCountOf(res: string, expected: SemVer.Version): Result<int>
  {
    match ParseResponse(res, "numtrackers", [IntV(-1), WordV([])])
    case Err(m) => Err(m)
    case Ok(vs) => CountChecked(vs[0].i, vs[1].w, expected)
  }

  /** The reply a driver with `count` trackers and version text `version` gives. */
  function CountReply(count: int, version: string): string
  {
    ServerReply("numtrackers", [Int(count), Word(version)])
  }

  /** A non-negative count is accepted exactly when the driver's version is
    * compatible with the expected one. */
  lemma TrackerCountAccepted(count: int, version: string, expected: SemVer.Version)
    requires 0 <= count <= Text.INT_MAX && version != [] && SpaceFree(version)
    ensures TrackerCountOf(CountReply(count, version), expected)
      == if SemVer.Compatible(SemVer.Scan(version, SemVer.Zero, 0), expected) then Ok(count)
         else Err("incompatible bridge driver: " + version + " expected: " + SemVer.ToString(expected))
  {
    ParseServerReply("numtrackers", [Int(count), Word(version)], [IntV(-1), WordV([])]);
  }

  /** A negative count is refused, whatever the version. */
  lemma NegativeCountRefused(count: int, version: string, expected: SemVer.Version)
    requires Text.INT_MIN <= count < 0 && version != [] && SpaceFree(version)
    ensures TrackerCountOf(CountReply(count, version), expected) == Err("invalid tracker count: " + Text.IntToString(count))
  {
    ParseServerReply("numtrackers", [Int(count), Word(version)], [IntV(-1), WordV([])]);
  }

  /** `GetTracker`'s check of the id, pose and status it read: the id must be the
    * one asked for; the pose is valid exactly when the status is 0. */
  function PoseChecked(id: int, outId: int, pose: Pose, status: int): (r: Result<(Pose, bool)>)
    ensures r.Ok? <==> id == outId
    ensures r.Ok? ==> r.value == (pose, status == 0)
  {
    if id != outId then Err("unexpected tracker id") else Ok((pose, status == 0))
  }

  /** `GetTracker`'s check of the reply "trackerpose id pose status". */
  function TrackerOf(id: int, res: string): Result<(Pose, bool)>
  {
    var outs := [IntV(-1), PoseV(Ident), IntV(-1)];
    match ParseResponse(res, "trackerpose", outs)
    case Err(m) => Err(m)
    case Ok(vs) =>
      assert SameKind(vs[0], outs[0]) && SameKind(vs[1], outs[1]) && SameKind(vs[2], outs[2]);
      PoseChecked(id, vs[0].i, vs[1].p, vs[2].i)
  }

  function PoseReply(id: int, pose: Pose, status: int): string
  {
    ServerReply("trackerpose", [Int(id), PoseArg(pose), Int(status)])
  }

  /** The reply for the tracker asked for gives its pose as printed, valid
    * exactly when the status is 0; the reply for any other tracker is refused. */
  lemma TrackerReplyRead(id: int, echoed: int, pose: Pose, status: int)
    requires Text.INT_MIN <= echoed <= Text.INT_MAX && Text.INT_MIN <= status <= Text.INT_MAX
    ensures TrackerOf(id, PoseReply(echoed, pose, status))
      == if id == echoed then Ok((RoundedPose(pose), status == 0)) else Err("unexpected tracker id")
  {
    ParseServerReply("trackerpose", [Int(echoed), PoseArg(pose), Int(status)], [IntV(-1), PoseV(Ident), IntV(-1)]);
  }

  // ---------------------------------------------------------------------------
  // The connection to the driver
  // ---------------------------------------------------------------------------

  /** The `i`-th reply of a script, empty once the script is exhausted. */
  function Reply(replies: seq<string>, i: nat): string
  {
    if i < |replies| then replies[i] else []
  }

  /** A script with its first `k` replies used. */
  function Drop(replies: seq<string>, k: nat): (rs: seq<string>)
    ensures forall i: nat :: Reply(rs, i) == Reply(replies, k + i)
  {
    if k < |replies| then replies[k..] else []
  }

  /** `IPC::IClient`, the driver's end of the pipe: what the driver answers is
    * outside the model, so the client is given the replies in advance and logs
    * every command it sends. */
  class Bridge {
    var sent: seq<string>
    var replies: seq<string>

    constructor(replies: seq<string>)
      ensures sent == [] && this.replies == replies
    {
      sent := [];
      this.replies := replies;
    }

    /** `SendRecv`: one command out, the next reply back. */
    method SendRecv(cmd: string) returns (res: string)
      modifies this
      ensures sent == old(sent) + [cmd]
      ensures res == Reply(old(replies), 0) && replies == Drop(old(replies), 1)
    {
      sent := sent + [cmd];
      res := Reply(replies, 0);
      replies := Drop(replies, 1);
    }
  }

  /** The name and role strings one configured tracker is registered with. */
  datatype TrackerEntry = TrackerEntry(name: string, role: string)

  function AddTrackerCommand(entry: TrackerEntry): string
  {
    ClientCommand("addtracker", [Word(entry.name), Word(entry.role)])
  }

  /** The `k`-th command of a registration: the count query, one "addtracker" per
    * configured tracker, the count query again, and "addstation". */
  function RegisterCommand(trackers: seq<TrackerEntry>, k: nat): string
  {
    if k == 0 || k == |trackers| + 1 then ClientCommand("numtrackers", [])
    else if k <= |trackers| then AddTrackerCommand(trackers[k - 1])
    else ClientCommand("addstation", [])
  }

  const NotAllRegistered: string := "some or all trackers were not registered with driver"

  /** The second count query: the driver must now count exactly `size` trackers. */
  function CountConfirmed(count: Result<int>, size: nat): (r: Result<()>)
    ensures r.Ok? <==> count == Ok(size)
    ensures r.Err? && count.Ok? ==> r.msg == NotAllRegistered
  {
    match count
    case Err(m) => Err(m)
    case Ok(c) => if size != c then Err(NotAllRegistered) else Ok(())
  }

  // A registration is stated first for any way of judging its replies:
  // `count(k)` reads the `k`-th reply as the answer to "numtrackers" and `ack(k)`
  // as the acknowledgement "added".

  /** The "addtracker" steps of a registration from step `k` on (step `i`
    * registers tracker `i - 1`): how many commands have been sent when they end,
    * and the first refusal, if any. */
  function AddFrom(trackers: seq<TrackerEntry>, ack: nat -> Result<()>, k: nat): (r: (nat, Result<()>))
    requires 1 <= k <= |trackers| + 1
    ensures k <= r.0 <= |trackers| + 1
    decreases |trackers| + 1 - k
  {
    if k == |trackers| + 1 then (k, Ok(()))
    else if ack(k).Err? then (k + 1, ack(k))
    else AddFrom(trackers, ack, k + 1)
  }

  /** The last two steps of a registration, once every tracker was added: the
    * count must be exactly the configured one, then the station is added. */
  function ConfirmOf(trackers: seq<TrackerEntry>, count: nat -> Result<int>, ack: nat -> Result<()>): (nat, Result<()>)
  {
    var n := |trackers| + 1;
    match CountConfirmed(count(n), |trackers|)
    case Err(m) => (n + 1, Err(m))
    case Ok(_) => (n + 2, ack(n + 1))
  }

  /** A whole registration: how many commands it sends and how it ends. */
  function RegistrationOf(trackers: seq<TrackerEntry>, count: nat -> Result<int>, ack: nat -> Result<()>): (nat, Result<()>)
  {
    if count(0).Err? then (1, Err(count(0).msg))
    else
      var (n, added) := AddFrom(trackers, ack, 1);
      if added.Err? then (n, added) else ConfirmOf(trackers, count, ack)
  }

  /** The reply to the `k`-th command of a registration lets it go on: a usable
    * count first, "added" for every tracker, then exactly the configured count,
    * and "added" for the station. */
  predicate StepAccepted(trackers: seq<TrackerEntry>, count: nat -> Result<int>, ack: nat -> Result<()>, k: nat)
  {
    if k == 0 then count(0).Ok?
    else if k == |trackers| + 1 then CountConfirmed(count(k), |trackers|).Ok?
    else ack(k).Ok?
  }

  /** The first `n` steps of a registration were accepted. */
  predicate AcceptedSteps(trackers: seq<TrackerEntry>, count: nat -> Result<int>, ack: nat -> Result<()>, n: nat)
  {
    forall k: nat :: k < n ==> StepAccepted(trackers, count, ack, k)
  }

  /** The "addtracker" steps stop at the first refusal, and only there. */
  lemma {:induction false} AddFromStops(trackers: seq<TrackerEntry>, count: nat -> Result<int>, ack: nat -> Result<()>, k: nat)
    requires 1 <= k <= |trackers| + 1 && AcceptedSteps(trackers, count, ack, k)
    ensures var (n, added) := AddFrom(trackers, ack, k);
      AcceptedSteps(trackers, count, ack, n - 1)
      && (added.Ok? <==> n == |trackers| + 1 && StepAccepted(trackers, count, ack, n - 1))
    decreases |trackers| + 1 - k
  {
    if k <= |trackers| && ack(k).Ok? {
      assert StepAccepted(trackers, count, ack, k);
      AddFromStops(trackers, count, ack, k + 1);
    }
  }

  /** A registration sends its commands up to the first refusal: every reply but
    * the last let it go on, and it succeeds exactly when it sent all `|trackers| + 3`
    * commands and the last was accepted too. */
  lemma RegistrationStops(trackers: seq<TrackerEntry>, count: nat -> Result<int>, ack: nat -> Result<()>)
    ensures var (n, r) := RegistrationOf(trackers, count, ack);
      1 <= n <= |trackers| + 3
      && AcceptedSteps(trackers, count, ack, n - 1)
      && (r.Ok? <==> n == |trackers| + 3 && StepAccepted(trackers, count, ack, n - 1))
  {
    if count(0).Ok? {
      assert StepAccepted(trackers, count, ack, 0);
      AddFromStops(trackers, count, ack, 1);
    }
  }

  /** How the tracker judges the `k`-th reply of a script. */
  function CountAt(replies: seq<string>, expected: SemVer.Version): nat -> Result<int>
  {
    (k: nat) => TrackerCountOf(Reply(replies, k), expected)
  }

  function AckAt(replies: seq<string>): nat -> Result<()>
  {
    (k: nat) => Acknowledged(Reply(replies, k), "added")
  }

  /** The first `n` commands of a registration. */
  function RegisterCommands(trackers: seq<TrackerEntry>, n: nat): (cs: seq<string>)
    ensures |cs| == n
  {
    if n == 0 then [] else RegisterCommands(trackers, n - 1) + [RegisterCommand(trackers, n - 1)]
  }

  lemma Step(sent: seq<string>, trackers: seq<TrackerEntry>, n: nat)
    ensures sent + RegisterCommands(trackers, n) + [RegisterCommand(trackers, n)] == sent + RegisterCommands(trackers, n + 1)
  {
    Assoc(sent, RegisterCommands(trackers, n), [RegisterCommand(trackers, n)]);
  }

  lemma DropOneMore(replies: seq<string>, k: nat)
    ensures Drop(Drop(replies, k), 1) == Drop(replies, k + 1)
  {
  }

  class VRDriver {
    const bridge: Bridge
    /** `utils::GetBridgeDriverVersion()`: the driver version this build expects. */
    const expected: SemVer.Version

    constructor(bridge: Bridge, expected: SemVer.Version)
      ensures this.bridge == bridge && this.expected == expected
    {
      this.bridge := bridge;
      this.expected := expected;
    }

    /** "updatepose id pose time smoothing", acknowledged with "updated". */
    method UpdateTracker(id: int, pose: Pose, frameTime: real, smoothing: real) returns (r: Result<()>)
      modifies bridge
      ensures bridge.sent == old(bridge.sent) + [ClientCommand("updatepose", [Int(id), PoseArg(pose), Real(frameTime), Real(smoothing)])]
      ensures bridge.replies == Drop(old(bridge.replies), 1)
      ensures r == Acknowledged(Reply(old(bridge.replies), 0), "updated")
    {
      var res := bridge.SendRecv(ClientCommand("updatepose", [Int(id), PoseArg(pose), Real(frameTime), Real(smoothing)]));
      r := Acknowledged(res, "updated");
    }

    /** "updatestation id pose", acknowledged with "updated". */
    method CmdUpdateStation(id: int, pose: Pose) returns (r: Result<()>)
      modifies bridge
      ensures bridge.sent == old(bridge.sent) + [ClientCommand("updatestation", [Int(id), PoseArg(pose)])]
      ensures bridge.replies == Drop(old(bridge.replies), 1)
      ensures r == Acknowledged(Reply(old(bridge.replies), 0), "updated")
    {
      var res := bridge.SendRecv(ClientCommand("updatestation", [Int(id), PoseArg(pose)]));
      r := Acknowledged(res, "updated");
    }

    /** "settings 120 factor additional", acknowledged with "changed". */
    method SetSmoothing(factor: real, additional: real) returns (r: Result<()>)
      modifies bridge
      ensures bridge.sent == old(bridge.sent) + [ClientCommand("settings", [Int(120), Real(factor), Real(additional)])]
      ensures bridge.replies == Drop(old(bridge.replies), 1)
      ensures r == Acknowledged(Reply(old(bridge.replies), 0), "changed")
    {
      var saved := 120;
      var res := bridge.SendRecv(ClientCommand("settings", [Int(saved), Real(factor), Real(additional)]));
      r := Acknowledged(res, "changed");
    }

    /** "numtrackers", answered with the count and the driver's version. */
    method CmdGetTrackerCount() returns (r: Result<int>)
      modifies bridge
      ensures bridge.sent == old(bridge.sent) + [ClientCommand("numtrackers", [])]
      ensures bridge.replies == Drop(old(bridge.replies), 1)
      ensures r == TrackerCountOf(Reply(old(bridge.replies), 0), expected)
    {
      var res := bridge.SendRecv(ClientCommand("numtrackers", []));
      r := TrackerCountOf(res, expected);
    }

    /** "addtracker name role", acknowledged with "added". */
    method CmdAddTracker(name: string, role: string) returns (r: Result<()>)
      modifies bridge
      ensures bridge.sent == old(bridge.sent) + [ClientCommand("addtracker", [Word(name), Word(role)])]
      ensures bridge.replies == Drop(old(bridge.replies), 1)
      ensures r == Acknowledged(Reply(old(bridge.replies), 0), "added")
    {
      var res := bridge.SendRecv(ClientCommand("addtracker", [Word(name), Word(role)]));
      r := Acknowledged(res, "added");
    }

    /** "addstation", acknowledged with "added". */
    method CmdAddStation() returns (r: Result<()>)
      modifies bridge
      ensures bridge.sent == old(bridge.sent) + [ClientCommand("addstation", [])]
      ensures bridge.replies == Drop(old(bridge.replies), 1)
      ensures r == Acknowledged(Reply(old(bridge.replies), 0), "added")
    {
      var res := bridge.SendRecv(ClientCommand("addstation", []));
      r := Acknowledged(res, "added");
    }

    /** "gettrackerpose id offset", answered with the echoed id, the pose and its status. */
    method GetTracker(id: int, timeOffset: real) returns (r: Result<(Pose, bool)>)
      modifies bridge
      ensures bridge.sent == old(bridge.sent) + [ClientCommand("gettrackerpose", [Int(id), Real(timeOffset)])]
      ensures bridge.replies == Drop(old(bridge.replies), 1)
      ensures r == TrackerOf(id, Reply(old(bridge.replies), 0))
    {
      var res := bridge.SendRecv(ClientCommand("gettrackerpose", [Int(id), Real(timeOffset)]));
      r := TrackerOf(id, res);
    }

    /** The loop of the constructor that takes the configured trackers: one
      * "addtracker" per tracker, in order, stopping at the first refusal. It
      * carries on a registration that has sent its count query. */
    method AddTrackers(trackers: seq<TrackerEntry>, ghost sent0: seq<string>, ghost replies0: seq<string>,
                       ghost ack: nat -> Result<()>)
      returns (r: Result<()>)
      requires bridge.sent == sent0 + RegisterCommands(trackers, 1) && bridge.replies == Drop(replies0, 1)
      requires forall k: nat {:trigger Reply(replies0, k)} :: ack(k) == Acknowledged(Reply(replies0, k), "added")
      modifies bridge
      ensures var (n, added) := AddFrom(trackers, ack, 1);
        bridge.sent == sent0 + RegisterCommands(trackers, n) && bridge.replies == Drop(replies0, n) && r == added
        && (r.Ok? ==> n == |trackers| + 1)
    {
      var index := 0;
      while index < |trackers|
        invariant 0 <= index <= |trackers|
        invariant bridge.sent == sent0 + RegisterCommands(trackers, index + 1)
        invariant bridge.replies == Drop(replies0, index + 1)
        invariant AddFrom(trackers, ack, index + 1) == AddFrom(trackers, ack, 1)
      {
        var added := CmdAddTracker(trackers[index].name, trackers[index].role);
        assert added == ack(index + 1);
        Step(sent0, trackers, index + 1);
        DropOneMore(replies0, index + 1);
        if added.Err? {
          return added;
        }
        index := index + 1;
      }
      return Ok(());
    }

    /** The end of the constructor that takes the configured trackers, once every
      * tracker was added: the count query again, then "addstation". */
    method Confirm(trackers: seq<TrackerEntry>, ghost sent0: seq<string>, ghost replies0: seq<string>)
      returns (r: Result<()>)
      requires bridge.sent == sent0 + RegisterCommands(trackers, |trackers| + 1)
      requires bridge.replies == Drop(replies0, |trackers| + 1)
      modifies bridge
      ensures var (n, res) := ConfirmOf(trackers, CountAt(replies0, expected), AckAt(replies0));
        bridge.sent == sent0 + RegisterCommands(trackers, n) && bridge.replies == Drop(replies0, n) && r == res
    {
      ghost var n := |trackers| + 1;
      var count := CmdGetTrackerCount();
      assert count == CountAt(replies0, expected)(n);
      Step(sent0, trackers, n);
      DropOneMore(replies0, n);
      if count.Err? {
        return Err(count.msg);
      }
      if |trackers| != count.value {
        return Err(NotAllRegistered);
      }
      r := CmdAddStation();
      assert r == AckAt(replies0)(n + 1);
      Step(sent0, trackers, n + 1);
      DropOneMore(replies0, n + 1);
    }

    /** The constructor that takes the configured trackers: check the driver,
      * register every tracker in order, insist that the driver now counts exactly
      * the configured trackers, and add the station; it stops at the first
      * refusal (see `RegistrationStops`). */
    method Register(trackers: seq<TrackerEntry>) returns (r: Result<()>)
      modifies bridge
      ensures var (n, res) := RegistrationOf(trackers, CountAt(old(bridge.replies), expected), AckAt(old(bridge.replies)));
        bridge.sent == old(bridge.sent) + RegisterCommands(trackers, n)
        && bridge.replies == Drop(old(bridge.replies), n) && r == res
    {
      ghost var sent0, replies0 := bridge.sent, bridge.replies;
      var first := CmdGetTrackerCount();
      assert first == CountAt(replies0, expected)(0);
      assert RegisterCommands(trackers, 1) == [RegisterCommand(trackers, 0)];
      if first.Err? {
        return Err(first.msg);
      }
      var added := AddTrackers(trackers, sent0, replies0, AckAt(replies0));
      if added.Err? {
        return added;
      }
      r := Confirm(trackers, sent0, replies0);
    }
  }
}
