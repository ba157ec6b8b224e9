/** The debug driver: a stand-in for the OpenVR driver that answers the tracker
  * program's commands, keeps the registered trackers and stations, and draws
  * them. Modelled here: the command handler with its state, the name-to-id rule,
  * message polling, the moving average and the end-of-frame wait. */
module DebugDriver {
  import opened Wrappers
  import Text
  import CInt
  import SemVer
  import opened CommandStream
  import VRDriver

  // ---------------------------------------------------------------------------
  // Tracker names
  // ---------------------------------------------------------------------------

  const NamePrefix: string := "ApriltagTracker"

  /** `GetIdFromName`: the name must start with "ApriltagTracker" and the rest must
    * be read entirely by `from_chars` as an `int` that is not negative. */
  function GetIdFromName(name: string): (r: Result<int>)
    ensures r.Ok? <==> |name| >= |NamePrefix| && name[..|NamePrefix|] == NamePrefix
                       && Text.WholeNonNegative(name[|NamePrefix|..]).Some?
    ensures r.Ok? ==> r.value == Text.WholeNonNegative(name[|NamePrefix|..]).value
    ensures |name| < |NamePrefix| ==> r == Err("short tracker name: " + name)
    ensures |name| >= |NamePrefix| && name[..|NamePrefix|] != NamePrefix ==> r == Err("invalid tracker name: " + name)
  {
    if |name| < |NamePrefix| then Err("short tracker name: " + name)
    else if name[..|NamePrefix|] != NamePrefix then Err("invalid tracker name: " + name)
    else
      var digits := name[|NamePrefix|..];
      match Text.FromChars(digits)
      case Parsed(v, k) =>
        if k != |digits| then Err("invalid tracker id: " + name)
        else if v < 0 then Err("negative tracker id: " + name)
        else Ok(v)
      case _ => Err("invalid tracker id: " + name)
  }

  /** A name of the form `GetIdFromName` reads: the prefix and the decimal id. */
  function TrackerName(i: nat): string
  {
    NamePrefix + Text.NatToString(i)
  }

  /** The name of id `i` yields `i` back. */
  lemma IdOfTrackerName(i: nat)
    requires i <= Text.INT_MAX
    ensures GetIdFromName(TrackerName(i)) == Ok(i)
  {
    var name := TrackerName(i);
    assert name[..|NamePrefix|] == NamePrefix;
    assert name[|NamePrefix|..] == Text.NatToString(i);
    Text.NatToStringAccepted(i);
  }

  /** A suffix `from_chars` reads as a negative number is refused as negative. */
  lemma NegativeIdRefused()
    ensures var name := "ApriltagTracker-1"; GetIdFromName(name) == Err("negative tracker id: " + name)
  {
    var name := "ApriltagTracker-1";
    assert name[..|NamePrefix|] == NamePrefix;
    assert name[|NamePrefix|..] == "-1";
    MinusOneParsed();
    NegativeSuffixRefused(name);
  }

  /** A name whose whole suffix `from_chars` reads as a negative `int` is refused. */
  lemma NegativeSuffixRefused(name: string)
    requires |name| >= |NamePrefix| && name[..|NamePrefix|] == NamePrefix
    requires var digits := name[|NamePrefix|..];
             var p := Text.FromChars(digits);
             p.Parsed? && p.consumed == |digits| && p.value < 0
    ensures GetIdFromName(name) == Err("negative tracker id: " + name)
  {
  }

  /** `from_chars` reads "-1" whole, as the value -1. */
  lemma MinusOneParsed()
    ensures Text.FromChars("-1") == Text.Parsed(-1, 2)
  {
    assert "-1"[1..] == "1";
    assert Text.LeadingDigits("1") == 1 by { assert "1"[1..] == []; }
    assert "1"[..1] == "1";
  }

  // ---------------------------------------------------------------------------
  // The driver's state
  // ---------------------------------------------------------------------------

  /** `TrackerStatus`: Invalid = -1, Valid = 0, Late = 1. */
  const StatusValid: int := 0

  /** A registered tracker: its name and role as sent, its last pose, status and
    * times (seconds). */
  datatype TrackerDevice = TrackerDevice(name: string, role: string, pose: Pose, status: int,
                                         lastUpdate: real, timeOffset: real)

  datatype Station = Station(pose: Pose)

  /** A new tracker: identity pose, valid, never updated. */
  function NewTracker(name: string, role: string): TrackerDevice
  {
    TrackerDevice(name, role, Ident, StatusValid, 0.0, 0.0)
  }

  /** The values the command handler reads and writes. */
  datatype Driver = Driver(maxSavedFrames: int, smoothingFactor: real, additionalSmoothing: real,
                           trackers: seq<TrackerDevice>, stations: seq<Station>)

  const Initial: Driver := Driver(0, 0.0, 0.0, [], [])

  /** The text of `std::out_of_range` thrown by `vector::at`, which the standard
    * library chooses. */
  const OutOfRange: string := "vector::at: index out of range"

  /** The commands the handler knows. */
  const Commands: set<string> := {"updatepose", "settings", "gettrackerpose", "updatestation",
                                  "numtrackers", "addtracker", "addstation"}

  /** The command word of a message and the stream after it. */
  function Command(msg: string): (string, Stream)
  {
    ReadWord(Stream(msg, true), [])
  }

  /** The out-arguments each command extracts after its name, with the values
    * they hold before extraction: the settings are read in place, so a failed
    * read keeps or zeroes them as the stream does. */
  function Outs(name: string, d: Driver): seq<Value>
  {
    if name == "updatepose" then [IntV(0), PoseV(Ident), RealV(0.0), RealV(0.0)]
    else if name == "settings" then [IntV(d.maxSavedFrames), RealV(d.smoothingFactor), RealV(d.additionalSmoothing)]
    else if name == "gettrackerpose" then [IntV(0), RealV(0.0)]
    else if name == "updatestation" then [IntV(0), PoseV(Ident)]
    else if name == "addtracker" then [WordV([]), WordV([])]
    else []
  }

  /** Values of the kinds a command extracts. */
  predicate Extracted(name: string, d: Driver, vs: seq<Value>)
  {
    var outs := Outs(name, d);
    |vs| == |outs| && forall k :: 0 <= k < |vs| ==> SameKind(vs[k], outs[k])
  }

  /** `HandleMessage`: one command and its reply, or the error it throws. */
  function Respond(d: Driver, version: string, msg: string, now: real): (Driver, Result<string>)
  {
    var (name, args) := Command(msg);
    Handle(d, version, name, ReadAll(args, Outs(name, d)).0, now)
  }

  /** The handler once the command word `name` and its out-arguments `vs` are
    * read. Only what a command changes is replaced, and a failing command
    * changes nothing. */
  function Handle(d: Driver, version: string, name: string, vs: seq<Value>, now: real): (r: (Driver, Result<string>))
    requires Extracted(name, d, vs)
    ensures r.1.Err? ==> r.0 == d
    ensures name !in Commands ==> r == (d, Err("unexpected command: " + name))
  {
    if name == "updatepose" then
      UpdatePose(d, vs[0].i, vs[1].p, vs[2].x, now)
    else if name == "settings" then
      (d.(maxSavedFrames := vs[0].i, smoothingFactor := vs[1].x, additionalSmoothing := vs[2].x), Ok("changed"))
    else if name == "gettrackerpose" then
      (d, TrackerPose(d, vs[0].i))
    else if name == "updatestation" then
      UpdateStation(d, vs[0].i, vs[1].p)
    else if name == "numtrackers" then
      (d, Ok(VRDriver.CountReply(|d.trackers|, version)))
    else if name == "addtracker" then
      AddTracker(d, vs[0].w, vs[1].w)
    else if name == "addstation" then
      (d.(stations := d.stations + [Station(Ident)]), Ok("added"))
    else
      (d, Err("unexpected command: " + name))
  }

  /** "updatepose id pose time smoothing": stores the pose, the time offset and
    * the time of the update for an existing tracker; the smoothing is ignored. */
  function UpdatePose(d: Driver, id: int, pose: Pose, offset: real, now: real): (r: (Driver, Result<string>))
    ensures r.1.Err? ==> r.0 == d
    ensures r.0.stations == d.stations && |r.0.trackers| == |d.trackers|
    ensures forall i :: 0 <= i < |d.trackers| ==> r.0.trackers[i].name == d.trackers[i].name
  {
    if !(0 <= id < |d.trackers|) then (d, Err(OutOfRange))
    else
      var t := d.trackers[id].(pose := pose, timeOffset := offset, lastUpdate := now);
      (d.(trackers := d.trackers[id := t]), Ok("updated"))
  }

  /** "gettrackerpose id offset": "trackerpose id pose status" for an existing tracker. */
  function TrackerPose(d: Driver, id: int): Result<string>
  {
    if !(0 <= id < |d.trackers|) then Err(OutOfRange)
    else Ok(VRDriver.PoseReply(id, d.trackers[id].pose, d.trackers[id].status))
  }

  /** "updatestation id pose": stores the pose of an existing station. */
  function UpdateStation(d: Driver, id: int, pose: Pose): (r: (Driver, Result<string>))
    ensures r.1.Err? ==> r.0 == d
    ensures r.0.trackers == d.trackers && |r.0.stations| == |d.stations|
  {
    if !(0 <= id < |d.stations|) then (d, Err(OutOfRange))
    else (d.(stations := d.stations[id := Station(pose)]), Ok("updated"))
  }

  /** "addtracker name role": the id in the name must be the number of trackers
    * registered so far. */
  function AddTracker(d: Driver, name: string, role: string): (r: (Driver, Result<string>))
    ensures r.1.Err? ==> r.0 == d
    ensures r.1.Ok? ==> GetIdFromName(name) == Ok(|d.trackers|) && r.0 == d.(trackers := d.trackers + [NewTracker(name, role)])
  {
    match GetIdFromName(name)
    case Err(m) => (d, Err(m))
    case Ok(id) =>
      if id != |d.trackers| then (d, Err("out of order tracker id: " + Text.IntToString(id)))
      else (d.(trackers := d.trackers + [NewTracker(name, role)]), Ok("added"))
  }

  // ---------------------------------------------------------------------------
  // Properties of the handler
  // ---------------------------------------------------------------------------

  /** Every registered tracker is named after its own position. */
  predicate IdsInOrder(d: Driver)
  {
    forall i :: 0 <= i < |d.trackers| ==> GetIdFromName(d.trackers[i].name) == Ok(i)
  }

  /** Trackers are only ever added at the next id, so whatever the messages, the
    * i-th tracker carries the name of id i; no command removes a tracker or a
    * station, and each adds at most one. */
  lemma HandleKeepsIdsInOrder(d: Driver, version: string, name: string, vs: seq<Value>, now: real)
    requires IdsInOrder(d) && Extracted(name, d, vs)
    ensures var d' := Handle(d, version, name, vs, now).0;
      IdsInOrder(d')
      && |d.trackers| <= |d'.trackers| <= |d.trackers| + 1
      && |d.stations| <= |d'.stations| <= |d.stations| + 1
  {
    var d' := Handle(d, version, name, vs, now).0;
    if name == "updatepose" {
      assert d' == UpdatePose(d, vs[0].i, vs[1].p, vs[2].x, now).0;
      forall i | 0 <= i < |d'.trackers| ensures GetIdFromName(d'.trackers[i].name) == Ok(i) {
        assert d'.trackers[i].name == d.trackers[i].name;
      }
    } else if name == "addtracker" {
      assert d' == AddTracker(d, vs[0].w, vs[1].w).0;
    } else {
      assert d'.trackers == d.trackers;
    }
  }

  /** "addtracker" succeeds exactly for the next id, appending a new tracker with
    * the name and role as sent; otherwise it fails with the reason. */
  lemma AddTrackerInOrder(d: Driver, name: string, role: string)
    ensures AddTracker(d, name, role).1.Ok? <==> GetIdFromName(name) == Ok(|d.trackers|)
    ensures AddTracker(d, name, role).1.Ok? ==>
      AddTracker(d, name, role) == (d.(trackers := d.trackers + [NewTracker(name, role)]), Ok("added"))
    ensures GetIdFromName(name).Ok? && GetIdFromName(name).value != |d.trackers| ==>
      AddTracker(d, name, role).1 == Err("out of order tracker id: " + Text.NatToString(GetIdFromName(name).value))
  {
  }

  /** The pose commands refuse an id outside the lists and change nothing then;
    * within them exactly that entry is replaced. */
  lemma PoseCommandsInRange(d: Driver, id: int, pose: Pose, offset: real, now: real)
    ensures UpdatePose(d, id, pose, offset, now).1.Ok? <==> 0 <= id < |d.trackers|
    ensures UpdatePose(d, id, pose, offset, now).1.Ok? ==>
      var d' := UpdatePose(d, id, pose, offset, now).0;
      |d'.trackers| == |d.trackers| && d'.stations == d.stations
      && (forall j :: 0 <= j < |d.trackers| && j != id ==> d'.trackers[j] == d.trackers[j])
      && d'.trackers[id].pose == pose && d'.trackers[id].name == d.trackers[id].name
    ensures TrackerPose(d, id).Ok? <==> 0 <= id < |d.trackers|
    ensures UpdateStation(d, id, pose).1.Ok? <==> 0 <= id < |d.stations|
    ensures UpdateStation(d, id, pose).1.Ok? ==> UpdateStation(d, id, pose).0.stations[id] == Station(pose)
  {
  }

  // ---------------------------------------------------------------------------
  // The two ends of the connection
  // ---------------------------------------------------------------------------

  /** A message made of a command word and written arguments splits into the
    * word and the arguments as read. */
  lemma CommandOfWritten(name: string, args: seq<Arg>, d: Driver)
    requires name != [] && SpaceFree(name) && AllFit(args, Outs(name, d))
    ensures Command(name + ArgsText(args)) == (name, Stream(ArgsText(args), true))
    ensures ReadAll(Stream(ArgsText(args), true), Outs(name, d)).0 == AllReceived(args)
  {
    assert Boundary(ArgsText(args));
    ReadWordBack(name, ArgsText(args), []);
    ReadAllBack(args, Outs(name, d), []);
    assert ArgsText(args) + [] == ArgsText(args);
  }

  /** What a reader obtains from written arguments is of the kinds they fit. */
  lemma ReceivedFits(args: seq<Arg>, outs: seq<Value>)
    requires AllFit(args, outs)
    ensures |AllReceived(args)| == |outs|
    ensures forall k :: 0 <= k < |outs| ==> SameKind(AllReceived(args)[k], outs[k])
  {
    forall k | 0 <= k < |outs| ensures SameKind(AllReceived(args)[k], outs[k]) {
      assert Fits(args[k], outs[k]);
    }
  }

  /** Polling drops the one leading space of a command the tracker program sends. */
  lemma TrimmedClientCommand(name: string, args: seq<Arg>)
    requires name != [] && name[0] != ' '
    ensures Trimmed(ClientCommand(name, args)) == name + ArgsText(args)
  {
    var c := ClientCommand(name, args);
    var m := name + ArgsText(args);
    Assoc(" ", name, ArgsText(args));
    DropPrefix(" ", m);
    assert c[1..] == m;
    assert LeadingBlanks(c) == 1 by { assert c[0] == ' ' && c[1..][0] != ' '; }
  }

  /** A message the tracker program sends, without its leading space, is
    * handled as the command with the arguments as printing keeps them. */
  lemma RespondToClient(d: Driver, version: string, name: string, args: seq<Arg>, now: real)
    requires name != [] && SpaceFree(name) && AllFit(args, Outs(name, d))
    ensures Trimmed(ClientCommand(name, args)) == name + ArgsText(args)
    ensures Extracted(name, d, AllReceived(args))
    ensures Respond(d, version, name + ArgsText(args), now) == Handle(d, version, name, AllReceived(args), now)
  {
    TrimmedClientCommand(name, args);
    ReceivedFits(args, Outs(name, d));
    CommandOfWritten(name, args, d);
  }

  /** A tracker name and a one-word role fit the words "addtracker" reads. */
  lemma WordsFit(d: Driver, i: nat, role: string)
    requires role != [] && SpaceFree(role)
    ensures AllFit([Word(TrackerName(i)), Word(role)], Outs("addtracker", d))
    ensures SpaceFree("addtracker")
  {
    var digits := Text.NatToString(i);
    assert SpaceFree(TrackerName(i)) by {
      forall k | 0 <= k < |TrackerName(i)| ensures !Text.IsSpace(TrackerName(i)[k]) {
        if k >= |NamePrefix| { assert TrackerName(i)[k] == digits[k - |NamePrefix|]; }
      }
    }
  }

  /** The tracker program's "addtracker" for a tracker named with id `i`,
    * once the driver has `i` trackers, is accepted: the driver appends the
    * tracker under that name and role, and its reply is the acknowledgement
    * the program expects. */
  lemma ClientAddTrackerAccepted(d: Driver, version: string, i: nat, roleName: string, now: real)
    requires |d.trackers| == i <= Text.INT_MAX
    requires roleName != [] && SpaceFree(roleName)
    ensures var name := TrackerName(i);
      Respond(d, version, Trimmed(VRDriver.AddTrackerCommand(VRDriver.TrackerEntry(name, roleName))), now)
        == (d.(trackers := d.trackers + [NewTracker(name, roleName)]), Ok("added"))
      && VRDriver.Acknowledged("added", "added") == Ok(())
  {
    var name := TrackerName(i);
    var args := [Word(name), Word(roleName)];
    WordsFit(d, i, roleName);
    RespondToClient(d, version, "addtracker", args, now);
    WordsReceived(name, roleName);
    HandleAddTracker(d, version, [WordV(name), WordV(roleName)], now);
    IdOfTrackerName(i);
    AddedAcknowledged();
  }

  lemma WordsReceived(a: string, b: string)
    ensures AllReceived([Word(a), Word(b)]) == [WordV(a), WordV(b)]
  {
    assert AllReceived([Word(a), Word(b)])[1..] == AllReceived([Word(b)]);
  }

  lemma HandleAddTracker(d: Driver, version: string, vs: seq<Value>, now: real)
    requires Extracted("addtracker", d, vs)
    ensures Handle(d, version, "addtracker", vs, now) == AddTracker(d, vs[0].w, vs[1].w)
  {
  }

  /** The reply "added" is the acknowledgement the tracker program waits for. */
  lemma AddedAcknowledged()
    ensures VRDriver.Acknowledged("added", "added") == Ok(())
  {
    assert SpaceFree("added");
    VRDriver.ParseServerReply("added", [], []);
  }

  /** The driver's "numtrackers" reply is read by the tracker program as the
    * driver's tracker count, accepted exactly when the versions are compatible. */
  lemma ClientReadsCount(d: Driver, version: string, msg: string, now: real, expected: SemVer.Version)
    requires Command(msg).0 == "numtrackers" && |d.trackers| <= Text.INT_MAX
    requires version != [] && SpaceFree(version)
    ensures Respond(d, version, msg, now).1.Ok?
    ensures VRDriver.TrackerCountOf(Respond(d, version, msg, now).1.value, expected)
      == if SemVer.Compatible(SemVer.Scan(version, SemVer.Zero, 0), expected) then Ok(|d.trackers|)
         else Err("incompatible bridge driver: " + version + " expected: " + SemVer.ToString(expected))
  {
    VRDriver.TrackerCountAccepted(|d.trackers|, version, expected);
  }

  /** The driver's "trackerpose" reply is read by the tracker program as the
    * stored pose, as printing keeps it, valid while the status is Valid. */
  lemma ClientReadsPose(d: Driver, id: int)
    requires 0 <= id < |d.trackers| <= Text.INT_MAX
    requires Text.INT_MIN <= d.trackers[id].status <= Text.INT_MAX
    ensures TrackerPose(d, id).Ok?
    ensures VRDriver.TrackerOf(id, TrackerPose(d, id).value)
      == Ok((RoundedPose(d.trackers[id].pose), d.trackers[id].status == StatusValid))
  {
    VRDriver.TrackerReplyRead(id, id, d.trackers[id].pose, d.trackers[id].status);
  }

  // ---------------------------------------------------------------------------
  // Polling
  // ---------------------------------------------------------------------------

  /** Number of leading ' ' characters (only the space character, not other
    * white space). */
  function LeadingBlanks(s: string): (n: nat)
    ensures n <= |s|
    ensures forall i :: 0 <= i < n ==> s[i] == ' '
    ensures n < |s| ==> s[n] != ' '
  {
    if s == [] || s[0] != ' ' then 0 else 1 + LeadingBlanks(s[1..])
  }

  /** `received.erase(0, find_first_not_of(' '))`, which erases nothing when the
    * text is spaces only. */
  function Trimmed(s: string): (t: string)
    ensures |t| <= |s| && t == s[|s| - |t|..]
    ensures t != [] && t != s ==> t[0] != ' '
    ensures (exists i :: 0 <= i < |s| && s[i] != ' ') ==> t == [] || t[0] != ' '
  {
    var n := LeadingBlanks(s);
    if n < |s| then s[n..] else s
  }

  /** The reply to a handled message: the command's own reply, or a report that
    * quotes the command and the error. */
  function ReplyText(msg: string, r: Result<string>): string
  {
    match r
    case Ok(reply) => reply
    case Err(e) => "command '" + msg + "' error: " + e
  }

  /** What `PollMessage` sends back for a handled message. */
  function Reported(msg: string, r: Result<string>): Option<string>
  {
    Some(ReplyText(msg, r))
  }

  /** `PollMessage`'s reply with the waiting message `received` (empty when
    * none): nothing for no message, otherwise the reply to the message without
    * its leading spaces. The message has been moved into the stream before the
    * handler runs, and a moved-from string is empty, so an error report quotes
    * an empty command. */
  function PollReply(d: Driver, version: string, received: string, now: real): (r: Option<string>)
    ensures r.None? <==> received == []
  {
    if received == [] then None else Reported([], Respond(d, version, Trimmed(received), now).1)
  }

  /** The reply the report was evidently meant to be: an error report quotes
    * the trimmed message. */
  function PollReplyCorrected(d: Driver, version: string, received: string, now: real): (r: Option<string>)
    ensures r.None? <==> received == []
  {
    if received == [] then None else Reported(Trimmed(received), Respond(d, version, Trimmed(received), now).1)
  }

  /** The message " bogus" names an unknown command. */
  lemma BogusIsUnknown(d: Driver, version: string, now: real)
    ensures Trimmed(" bogus") == "bogus"
    ensures Respond(d, version, "bogus", now).1 == Err("unexpected command: " + "bogus")
  {
    assert LeadingBlanks(" bogus") == 1 by { assert " bogus"[1..] == "bogus"; }
    CommandOfWritten("bogus", [], d);
    assert "bogus" + ArgsText([]) == "bogus";
  }

  /** As written, the report of a failed command leaves out the command. */
  lemma PollReplyDropsCommand()
    ensures PollReply(Initial, "1.0.0", " bogus", 0.0) == Some("command '' error: " + ("unexpected command: " + "bogus"))
    ensures PollReplyCorrected(Initial, "1.0.0", " bogus", 0.0) == Some("command '" + "bogus" + "' error: " + ("unexpected command: " + "bogus"))
  {
    BogusIsUnknown(Initial, "1.0.0", 0.0);
    var r := Respond(Initial, "1.0.0", "bogus", 0.0).1;
    assert PollReplyCorrected(Initial, "1.0.0", " bogus", 0.0) == Reported("bogus", r);
    assert PollReply(Initial, "1.0.0", " bogus", 0.0) == Reported([], r);
    EmptyQuote();
  }

  lemma EmptyQuote()
    ensures "command '" + [] + "' error: " == "command '' error: "
  {
  }

  /** The corrected report of a failed command holds the message between the
    * quotes, so the command can be read back from it; a successful command's
    * reply is its own reply either way. */
  lemma ReportedQuotesCommand(msg: string, r: Result<string>)
    ensures r.Err? ==> var t := Reported(msg, r).value;
      |t| >= 9 + |msg| && t[9..9 + |msg|] == msg && (msg != [] ==> Reported([], r).value != t)
    ensures r.Ok? ==> Reported(msg, r) == Reported([], r) == Some(r.value)
  {
    if r.Err? && msg != [] {
      var t := Reported(msg, r).value;
      assert t == "command '" + msg + "' error: " + r.msg;
      assert t[9..9 + |msg|] == msg;
      assert |Reported([], r).value| < |t|;
    }
  }

  /** The state a driver keeps while serving messages. */
  class OpenVRDriver {
    const version: string
    var maxSavedFrames: int
    var smoothingFactor: real
    var additionalSmoothing: real
    var trackers: seq<TrackerDevice>
    var stations: seq<Station>

    function State(): Driver
      reads this
    {
      Driver(maxSavedFrames, smoothingFactor, additionalSmoothing, trackers, stations)
    }

    constructor(version: string)
      ensures this.version == version && State() == Initial
    {
      this.version := version;
      maxSavedFrames := 0;
      smoothingFactor := 0.0;
      additionalSmoothing := 0.0;
      trackers := [];
      stations := [];
    }

    /** `HandleMessage` on the stored state. */
    method HandleMessage(msg: string, now: real) returns (r: Result<string>)
      modifies this
      ensures (State(), r) == Respond(old(State()), version, msg, now)
    {
      var (d, res) := Respond(State(), version, msg, now);
      maxSavedFrames, smoothingFactor, additionalSmoothing, trackers, stations, r :=
        d.maxSavedFrames, d.smoothingFactor, d.additionalSmoothing, d.trackers, d.stations, res;
    }

    /** `PollMessage` with the waiting message `received` (empty when none): the
      * leading spaces are dropped, the message is moved into the stream and
      * handled, and the reply to send is returned. */
    method PollMessage(received: string, now: real) returns (reply: Option<string>)
      modifies this
      ensures received == [] ==> reply.None? && State() == old(State())
      ensures received != [] ==> State() == Respond(old(State()), version, Trimmed(received), now).0
      ensures reply == PollReply(old(State()), version, received, now)
    {
      if received == [] { return None; }
      var msg := Trimmed(received);
      var r := HandleMessage(msg, now);
      var movedFrom: string := [];
      reply := Reported(movedFrom, r);
    }
  }

  // ---------------------------------------------------------------------------
  // Moving average
  // ---------------------------------------------------------------------------

  const WindowSize: nat := 10

  function Sum(xs: seq<int>): int
  {
    if xs == [] then 0 else Sum(xs[..|xs| - 1]) + xs[|xs| - 1]
  }

  /** The integral average of a window: its total divided by the window size,
    * truncated toward zero. */
  function Mean(xs: seq<int>): int
  {
    CInt.TruncDiv(Sum(xs), WindowSize)
  }

  lemma {:induction false} SumBounds(xs: seq<int>, lo: int, hi: int)
    requires forall i :: 0 <= i < |xs| ==> lo <= xs[i] <= hi
    ensures |xs| * lo <= Sum(xs) <= |xs| * hi
  {
    if xs != [] {
      SumBounds(xs[..|xs| - 1], lo, hi);
    }
  }

  /** The average of a full window lies between its smallest and largest values. */
  lemma MeanBetween(xs: seq<int>, lo: int, hi: int)
    requires |xs| == WindowSize
    requires forall i :: 0 <= i < |xs| ==> lo <= xs[i] <= hi
    ensures lo <= Mean(xs) <= hi
  {
    SumBounds(xs, lo, hi);
  }

  /** A window holding one value throughout averages to that value. */
  lemma MeanOfConstant(xs: seq<int>, x: int)
    requires |xs| == WindowSize && forall i :: 0 <= i < |xs| ==> xs[i] == x
    ensures Mean(xs) == x
  {
    SumBounds(xs, x, x);
  }

  /** `Average<int, 10>`: a ring of the last ten values written. */
  class Average {
    const values: array<int>
    var index: int

    ghost predicate Valid()
      reads this
    {
      values.Length == WindowSize && 0 <= index < WindowSize
    }

    /** Fills the window with `initial`. */
    constructor(initial: int)
      ensures Valid() && fresh(values) && index == 0
      ensures forall i :: 0 <= i < WindowSize ==> values[i] == initial
    {
      values := new int[WindowSize](_ => initial);
      index := 0;
    }

    /** `operator=`: overwrites the oldest value; the write position wraps to 0. */
    method Assign(rhs: int)
      requires Valid()
      modifies this, values
      ensures Valid()
      ensures values[..] == old(values[..])[old(index) := rhs]
      ensures index == (old(index) + 1) % WindowSize
    {
      values[index] := rhs;
      index := index + 1;
      if index >= WindowSize { index := 0; }
    }

    /** `operator T`: the integral average of the window. */
    method Value() returns (avg: int)
      requires Valid()
      ensures avg == Mean(values[..])
    {
      var total := 0;
      var i := 0;
      while i < values.Length
        invariant 0 <= i <= values.Length
        invariant total == Sum(values[..i])
      {
        assert values[..i + 1][..i] == values[..i];
        total := total + values[i];
        i := i + 1;
      }
      assert values[..i] == values[..];
      avg := CInt.TruncDiv(total, WindowSize);
    }
  }

  // ---------------------------------------------------------------------------
  // End of frame
  // ---------------------------------------------------------------------------

  /** What `WaitEndOfFrame` asks of `cv::waitKey`: nothing, or a wait with that
    * delay in milliseconds, where a delay of 0 waits until a key is pressed. */
  datatype Wait = NoWait | WaitKey(delayMs: int)

  /** The longest the frame may stall, or None when it may stall forever. */
  function WaitBound(w: Wait): Option<int>
  {
    match w
    case NoWait => Some(0)
    case WaitKey(ms) => if ms <= 0 then None else Some(ms)
  }

  /** `WaitEndOfFrame`: nothing when no time is left, otherwise the remaining
    * time (nanoseconds) truncated to whole milliseconds, which is 0 for less
    * than a millisecond left. */
  function WaitEndOfFrame(frameTimeNs: int, targetNs: int): (w: Wait)
    ensures targetNs <= frameTimeNs <==> w == NoWait
    ensures w.WaitKey? ==> 0 <= w.delayMs * 1_000_000 <= targetNs - frameTimeNs < (w.delayMs + 1) * 1_000_000
  {
    var left := targetNs - frameTimeNs;
    if left <= 0 then NoWait else WaitKey(left / 1_000_000)
  }

  /** A frame with less than a millisecond to spare stalls until a key is pressed. */
  lemma WaitEndOfFrameStalls()
    ensures WaitEndOfFrame(15_500_000, 16_000_000) == WaitKey(0)
    ensures WaitBound(WaitEndOfFrame(15_500_000, 16_000_000)).None?
  {
  }

  /** The wait evidently meant: at least one millisecond whenever time is
    * left, so the wait always ends. */
  function WaitEndOfFrameCorrected(frameTimeNs: int, targetNs: int): (w: Wait)
    ensures targetNs <= frameTimeNs <==> w == NoWait
    ensures WaitBound(w).Some?
    ensures w.WaitKey? ==> 1 <= w.delayMs && (w.delayMs - 1) * 1_000_000 < targetNs - frameTimeNs
  {
    var left := targetNs - frameTimeNs;
    if left <= 0 then NoWait else WaitKey(if left < 1_000_000 then 1 else left / 1_000_000)
  }

  /** The corrected wait is the written one whenever a millisecond or more is left. */
  lemma WaitAgreesFromOneMillisecond(frameTimeNs: int, targetNs: int)
    requires targetNs - frameTimeNs >= 1_000_000 || targetNs <= frameTimeNs
    ensures WaitEndOfFrameCorrected(frameTimeNs, targetNs) == WaitEndOfFrame(frameTimeNs, targetNs)
  {
  }
}
