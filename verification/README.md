# AprilTag Trackers in Dafny

A Dafny model of AprilTag Trackers, a program that tracks AprilTag markers
with a camera and feeds their poses to SteamVR as virtual full-body trackers.
It covers the program's core, its PlayStation Eye driver and the Python
scripts that install its SteamVR driver. Each Dafny module models one source
file, or a small group of them.

- **Values and text.** C integer arithmetic (`CInt`), digits and integer
  parsing (`Text`), `Option`/`Result` (`Wrappers`), semantic versions
  (`SemVer`), enum reflection (`EnumReflect`, `TrackerRoleConfig`) and ratio-typed
  quantities (`StrongType`).
- **Configuration.** Validated and proxied settings (`Validated`,
  `ValidatorProxy`, `ConfigList`, `Config`). The serialisation tree and its
  readers and writers (`SerialTree`, `CustomSerial`, `ReaderWriter`). The
  legacy parameter files (`Parameter`, `ParametersFile`, `LegacyParameters`,
  `LegacyConfig`).
- **The driver protocol.** Building commands and reading replies
  (`CommandStream`), the tracker program's side (`VRDriver`, `DriverConnection`)
  and the debug driver's side (`DebugDriver`). The message queue
  (`MessageQueue`), the event queue (`EventQueue`) and the batched log
  (`LogBatch`).
- **Tracking.** Tracker units and their markers (`TrackerUnit`). The camera
  and tracking threads' state machines (`TrackerLoop`, `LegacyTracker`,
  `MainLoop`). Playspace calibration (`Playspace`, `PlayspaceCalibrator`,
  `ManualCalib`). Geometry (`Quaternions`, `Helpers`, `LegacyHelpers`,
  `MarkerHelpers`, `CvHelpers`, `Median`), drawing (`ImageDrawing`), the
  steady timer (`SteadyTimer`) and camera opening (`VideoCapture`).
- **The PlayStation Eye.** The camera driver's registers and controls
  (`Ps3EyeCamera`), its frame transfer and ring of frame buffers
  (`Ps3EyeFrames`), the C API's context and handle table (`Ps3EyeCApi`) and
  the OpenCV capture on top of it (`PsEyeCapture`). The repository holds two
  copies of the camera header, `AprilTagTrackers/ps3eyed/ps3eye.h` and
  `AprilTagTrackers/ps3eye/ps3eye.h`; their `PS3EYECam` classes are the same
  apart from layout and a licence comment, and `Ps3EyeCamera` models both,
  citing the first.
- **The installer.** `installer.py`, `install.py` and `uninstaller.py` over a
  file system modelled as a map from paths to entries (`Installer`, `Env`).

Code that changes state step by step is modelled as classes with `modifies`
clauses, or as methods with loops. Each such method is proved against a
specification function, and the lemmas beside those functions state what
the source promises: round trips, preserved invariants, bounds and
error cases. Clocks, user answers, the file system's contents, the USB
transport and the mathematical functions (`sqrt`, trigonometry) are
parameters.

## Model

| member | source | states |
|---|---|---|
| CInt.TruncDiv | AprilTagTrackers/ps3eyed/PSEyeVideoCapture.cpp:649 | C++ `/` truncates toward zero: it agrees with Dafny's division for a non-negative dividend and positive divisor, negates the magnitude quotient for a negative dividend, and with `TruncRem` recomposes the dividend |
| CInt.TruncRem | AprilTagTrackers/ps3eyed/PSEyeVideoCapture.cpp:653 | C++ `%`: the remainder is below the divisor's magnitude and takes the sign of the dividend |
| CInt.TruncDivExact | AprilTagTrackers/utils/StrongType.hpp:69-95 | multiplying by a non-zero factor and dividing by it again gives the value back, which the ratio conversion's round trip needs |
| CInt.RealToInt | AprilTagTrackers/ps3eyed/PSEyeVideoCapture.cpp:351 | `(int)` of a `double` drops the fraction: the result lies within one of the value, on the side of zero |
| Text.DigitChar | AprilTagTrackers/tracker/VideoCapture.cpp:27 | every digit value has a decimal digit character that reads back as that value |
| Text.AccumulateSnoc | AprilTagTrackers/tracker/VideoCapture.cpp:27 | appending a digit multiplies the value read so far by ten and adds the digit, as `from_chars` accumulates |
| Text.AccumulateIsDecimal | AprilTagTrackers/tracker/VideoCapture.cpp:27 | the left-to-right accumulation equals the positional value of the digits |
| Text.NatToString | AprilTagTrackers/Connection.cpp:54 | `std::to_string` of a non-negative number is a non-empty digit string, one digit long exactly for numbers below ten |
| Text.IntToString | AprilTagTrackers/Connection.cpp:235 | printing a signed number gives a non-empty text that starts with `-` exactly when the number is negative |
| Text.NatToStringValue | AprilTagTrackers/Connection.cpp:54 | the printed digits read back as the printed number |
| Text.LeadingDigits | AprilTagTrackers/tracker/VideoCapture.cpp:27 | the greedy digit run: every character before the returned length is a digit and the one after it is not |
| Text.FromChars | AprilTagTrackers/tracker/VideoCapture.cpp:27 | `std::from_chars` into an `int`: a parsed value lies in the `int` range, consumes at least one character, and is negative exactly when the text starts with `-` and the value is non-zero |
| Text.WholeNonNegative | AprilTagTrackers/tracker/VideoCapture.cpp:22-31 | the text is accepted only when `from_chars` reads all of it without error and the value is not negative; an accepted value fits an `int` |
| Text.WholeNonNegativeAccepts | AprilTagTrackers/tracker/VideoCapture.cpp:22-31 | an accepted text is non-empty and is either all digits, valued as written, or the text `-0` valued 0 |
| Text.NatToStringAccepted | AprilTagTrackers/debug_driver/main.cpp:483-493 | every number of `int` size printed without a sign is accepted back as itself |
| Text.LeadingSpace | AprilTagTrackers/debug_driver/main.cpp:549 | the white space `operator>>` skips: every character before the returned length is a space and the next is not |
| Text.LeadingWord | AprilTagTrackers/debug_driver/main.cpp:549 | the word `operator>>` takes: no character before the returned length is a space and the next one is |
| Text.NextWord | AprilTagTrackers/debug_driver/main.cpp:549 | `stream >> word` skips white space and takes a space-free word; the word is empty exactly when only white space remained, and otherwise the stream shrinks |
| Text.Words | AprilTagTrackers/debug_driver/main.cpp:549-558 | every word extracted from a stream is non-empty |
| Text.WordsOfJoin | AprilTagTrackers/Connection.cpp:235-244 | reading the words of a space-joined list of space-free words gives the list back |
| Text.NextWordOfJoin | AprilTagTrackers/debug_driver/main.cpp:549 | the first word read from a joined list is its first element, and the rest of the stream is the joined tail |
| Text.WordsSkipSpace | AprilTagTrackers/debug_driver/main.cpp:549 | a leading space does not change the words read |
| CommandStream.Pow10 | AprilTagTrackers/tracker/VRDriver.cpp:37 | ten to a power is at least one |
| CommandStream.Pow10Add | AprilTagTrackers/tracker/VRDriver.cpp:37 | powers of ten multiply by adding their exponents |
| CommandStream.RoundHalfEven | AprilTagTrackers/tracker/VRDriver.cpp:37 | the rounded integer lies within one half of the value, as `printf` rounds the last printed digit |
| CommandStream.Pad6 | AprilTagTrackers/tracker/VRDriver.cpp:37 | the six decimals of `setprecision(6)`: exactly six digits, zero-padded, that denote the number given |
| CommandStream.ZeroPad | AprilTagTrackers/tracker/VRDriver.cpp:37 | left zero-padding reaches the width asked for, keeps every character a digit and keeps the value |
| CommandStream.Fixed6 | AprilTagTrackers/tracker/VRDriver.cpp:36-38 | `std::fixed` with six decimals prints at least eight characters starting with a sign or a digit |
| CommandStream.Rounded6Close | AprilTagTrackers/tracker/VRDriver.cpp:36-38 | printing with six decimals moves a value by at most half a millionth |
| CommandStream.SkipSpace | AprilTagTrackers/tracker/VRDriver.cpp:56-61 | skipping white space leaves a suffix that does not start with a space |
| CommandStream.ReadWord | AprilTagTrackers/tracker/VRDriver.cpp:58 | `ss >> name`: on success the word is non-empty and holds no space |
| CommandStream.ReadInt | AprilTagTrackers/tracker/VRDriver.cpp:61 | `ss >> i` into an `int`: a value read while the stream stays good lies in the `int` range |
| CommandStream.ScanInt | AprilTagTrackers/tracker/VRDriver.cpp:61 | the same bound once the leading white space is skipped |
| CommandStream.Read | AprilTagTrackers/tracker/VRDriver.cpp:61 | reading one out-argument keeps its kind (word, int, real or pose) |
| CommandStream.ReadAll | AprilTagTrackers/tracker/VRDriver.cpp:61 | the fold `((ss >> outArgs), ...)`: one value per out-argument, each of the argument's kind, and a failed stream leaves all of them and itself unchanged |
| CommandStream.AllReceived | AprilTagTrackers/tracker/VRDriver.cpp:38 | the values a command's arguments arrive as: one per argument, each the value its printing keeps |
| CommandStream.ReadWordBack | AprilTagTrackers/tracker/VRDriver.cpp:33-58 | a word written into a command is read back whole, leaving the rest of the line |
| CommandStream.FromCharsDigits | AprilTagTrackers/tracker/VRDriver.cpp:61 | digits followed by a non-digit are parsed as their decimal value, consuming exactly the digits |
| CommandStream.FromCharsNegDigits | AprilTagTrackers/tracker/VRDriver.cpp:61 | a minus sign and digits are parsed as the negated value |
| CommandStream.ReadDigits | AprilTagTrackers/tracker/VRDriver.cpp:61 | digits followed by a boundary are read as one `int`, leaving the rest |
| CommandStream.ReadNegDigits | AprilTagTrackers/tracker/VRDriver.cpp:61 | a minus sign and digits followed by a boundary are read as one negative `int` |
| CommandStream.ReadIntBack | AprilTagTrackers/tracker/VRDriver.cpp:33-61 | an `int` written into a command is read back exactly |
| CommandStream.FixedMagnitude | AprilTagTrackers/tracker/VRDriver.cpp:61 | integer digits, a point and six decimals followed by a boundary scan as one magnitude with their decimal value |
| CommandStream.ReadMagnitude | AprilTagTrackers/tracker/VRDriver.cpp:61 | such a magnitude is read by `>>` into a `double` as that value |
| CommandStream.ReadNegMagnitude | AprilTagTrackers/tracker/VRDriver.cpp:61 | after a minus sign it is read as the negated value |
| CommandStream.MillionthsSplit | AprilTagTrackers/tracker/VRDriver.cpp:37 | a count of millionths equals its integer part plus its six decimals |
| CommandStream.IntDigits | AprilTagTrackers/tracker/VRDriver.cpp:37 | the integer part printed in fixed notation is a non-empty digit string |
| CommandStream.FracDigits | AprilTagTrackers/tracker/VRDriver.cpp:37 | the fraction printed is exactly six digits |
| CommandStream.Fixed6Parts | AprilTagTrackers/tracker/VRDriver.cpp:36-38 | a printed real is an optional minus sign, the integer digits, a point and six decimals, and those digits denote the rounded value |
| CommandStream.ReadPosFixed | AprilTagTrackers/tracker/VRDriver.cpp:61 | unsigned fixed-notation text followed by a boundary is read as its value |
| CommandStream.ReadNegFixed | AprilTagTrackers/tracker/VRDriver.cpp:61 | the same text after a minus sign is read as the negated value |
| CommandStream.ReadRealBack | AprilTagTrackers/tracker/VRDriver.cpp:33-61 | a real printed with six decimals is read back as the printed (rounded) value, leaving the rest of the line |
| CommandStream.ReadSignedFixed | AprilTagTrackers/tracker/VRDriver.cpp:61 | fixed-notation text with or without its minus sign is read as its signed value |
| CommandStream.ReadPoseBack | AprilTagTrackers/tracker/VRDriver.cpp:12-27 | a pose written by `operator<<` is read back by `operator>>` as its seven rounded fields, in order |
| CommandStream.Later | AprilTagTrackers/tracker/VRDriver.cpp:14-20 | the six fields written after the first |
| CommandStream.ReadFirstField | AprilTagTrackers/tracker/VRDriver.cpp:25 | the first extraction of a written pose gives its rounded x position and leaves the other six fields |
| CommandStream.ReadLaterField | AprilTagTrackers/tracker/VRDriver.cpp:25-26 | each later extraction gives the next rounded field and leaves the ones after it |
| CommandStream.ReadPoseSteps | AprilTagTrackers/tracker/VRDriver.cpp:23-27 | `operator>>` of a pose is its seven extractions in order |
| CommandStream.ReadSpacedBack | AprilTagTrackers/tracker/VRDriver.cpp:38 | the first of several space-separated printed reals is read back and leaves the others |
| CommandStream.ReadRealAfterSpace | AprilTagTrackers/tracker/VRDriver.cpp:38 | a real after its separating space is read back as its rounded value |
| CommandStream.ReadRealSpace | AprilTagTrackers/tracker/VRDriver.cpp:61 | leading white space does not change what `>>` reads into a real |
| CommandStream.ReadIntSpace | AprilTagTrackers/tracker/VRDriver.cpp:61 | leading white space does not change what `>>` reads into an `int` |
| CommandStream.ReadWordSpace | AprilTagTrackers/tracker/VRDriver.cpp:58 | leading white space does not change what `>>` reads into a word |
| CommandStream.ReadPoseSpace | AprilTagTrackers/tracker/VRDriver.cpp:25 | leading white space does not change what `>>` reads into a pose |
| CommandStream.ReadArgBack | AprilTagTrackers/tracker/VRDriver.cpp:33-61 | one written argument, after its space, is read back into an out-argument of its kind as the value its printing keeps |
| CommandStream.ReadAllBack | AprilTagTrackers/tracker/VRDriver.cpp:33-62 | the arguments of a built command, read into out-arguments they fit, arrive in order with the values their printing keeps, and the stream stays good |
| CommandStream.Fixed6Of | AprilTagTrackers/tracker/VRDriver.cpp:37 | the text of a non-negative value with a given number of millionths: the integer part, a point and the six padded decimals |
| CommandStream.Fixed6OnePointOne | AprilTagTrackers/tracker/VRDriver.cpp:45 | `1.1` prints as `1.100000` |
| CommandStream.Fixed6FloatOnePointOne | AprilTagTrackers/tracker/VRDriver.cpp:46 | the `float` nearest to 1.1 prints as `1.100000` too |
| CommandStream.Fixed6RoundsUp | AprilTagTrackers/tracker/VRDriver.cpp:47 | `10.1234559` prints as `10.123456`: the seventh decimal rounds the sixth up |
| CommandStream.Fixed6Zero | AprilTagTrackers/tracker/VRDriver.cpp:50 | zero prints as `0.000000` |
| CommandStream.Fixed6One | AprilTagTrackers/tracker/VRDriver.cpp:50 | one prints as `1.000000` |
| CommandStream.Fixed6OneTenth | AprilTagTrackers/tracker/VRDriver.cpp:50 | 0.1 prints as `0.100000` |
| CommandStream.Fixed6TwoTenths | AprilTagTrackers/tracker/VRDriver.cpp:50 | 0.2 prints as `0.200000` |
| CommandStream.Fixed6ThreeTenths | AprilTagTrackers/tracker/VRDriver.cpp:50 | 0.3 prints as `0.300000` |
| CommandStream.SpacedStep | AprilTagTrackers/tracker/VRDriver.cpp:38 | printing space-separated reals after earlier text joins the first value's text to what was printed |
| CommandStream.PoseArgStep | AprilTagTrackers/tracker/VRDriver.cpp:14-38 | a pose argument after earlier text prints its first field, then the other six space-separated |
| CommandStream.BuildCommandPose | AprilTagTrackers/tracker/VRDriver.cpp:49-50 | a pose argument prints as its seven fields with six decimals, in order |
| CommandStream.BuildCommandNameOnly | AprilTagTrackers/tracker/VRDriver.cpp:43 | a command without arguments is a space and its name |
| CommandStream.BuildCommandInt | AprilTagTrackers/tracker/VRDriver.cpp:44 | an `int` argument prints in decimal after a space |
| CommandStream.BuildCommandWords | AprilTagTrackers/tracker/VRDriver.cpp:48 | string and `int` arguments print space-separated in order |
| CommandStream.BuildCommandReal | AprilTagTrackers/tracker/VRDriver.cpp:45 | a `double` argument prints with six decimals |
| CommandStream.BuildCommandFloat | AprilTagTrackers/tracker/VRDriver.cpp:46 | a `float` argument prints with six decimals |
| CommandStream.BuildCommandRounded | AprilTagTrackers/tracker/VRDriver.cpp:47 | a `double` argument is rounded at the sixth decimal |
| Config.DefaultUserConfig | AprilTagTrackers/Config.hpp:40-69 | the defaults obey every validation rule, and include three trackers, one video stream, a 5 cm marker, smoothing 0.5 and 45 markers per tracker |
| Config.Validate | AprilTagTrackers/Config.hpp:46-68 | reading a user configuration applies each validated field's rule (lower bound or clamp) and leaves the other fields as read; the result obeys every rule |
| Config.ValidateFixesValid | AprilTagTrackers/Config.hpp:46-68 | validation changes nothing exactly when every rule already holds |
| Config.ValidateIdempotent | AprilTagTrackers/Config.hpp:46-68 | validating twice is validating once, and the defaults survive validation |
| Config.DefaultCalibrationConfig | AprilTagTrackers/Config.hpp:28-31 | the calibration file starts with one camera and as many trackers as the user configuration |
| Config.DefaultArucoConfig | AprilTagTrackers/Config.hpp:79-85 | the ArUco defaults detect inverted markers and refine corners by contour |
| ConfigList.Resized | AprilTagTrackers/config/List.hpp:22 | `std::vector::resize`: the new length, the surviving prefix unchanged, new slots null |
| ConfigList.List.constructor | AprilTagTrackers/config/List.hpp:18 | a list of `count` elements, each a default-constructed element |
| ConfigList.List.Resize | AprilTagTrackers/config/List.hpp:20-27 | the new size; a surviving non-null element is kept and every other slot holds a default element |
| ConfigList.List.Size | AprilTagTrackers/config/List.hpp:30 | the number of slots |
| ConfigList.List.At | AprilTagTrackers/config/List.hpp:29 | the element stored at the index |
| ConfigList.ShrinkThenGrow | AprilTagTrackers/config/List.hpp:20-27 | shrinking and growing back keeps the elements below the smaller size and refills the rest with defaults |
| DriverConnection.Run | AprilTagTrackers/Connection.cpp:49-56 | one mapping loop appends exactly as many entries as its count, none for a count of zero or less |
| DriverConnection.MappingPositions | AprilTagTrackers/Connection.cpp:47-110 | in every branch the driver id is the entry's position, and the entries are the configured trackers, tracker 0 skipped when it is ignored |
| DriverConnection.IgnoredTrackerZeroRoles | AprilTagTrackers/Connection.cpp:47-71 | with tracker 0 ignored, names follow the tracker ids; of three trackers the two left are the feet, any other count gives waists |
| DriverConnection.TrackerRoles | AprilTagTrackers/Connection.cpp:72-110 | without it, three trackers are waist, left and right foot and two are the feet, each named after its own id; any other count gives waists named after the next id |
| DriverConnection.Greet | AprilTagTrackers/Connection.cpp:179-194 | the greeting is accepted only with the configured driver version; a refusal is a driver error or a version mismatch |
| DriverConnection.AddFrom | AprilTagTrackers/Connection.cpp:196-205 | the registration loop sends at most one command per remaining entry and its only error is "something wrong" |
| DriverConnection.GreetCountReply | AprilTagTrackers/Connection.cpp:179-194 | the driver's own count reply is accepted with its count exactly when its version is the configured one; otherwise the reported version is the error message |
| DriverConnection.HandshakeRefusesOtherReply | AprilTagTrackers/Connection.cpp:179-185 | a reply that does not begin with "numtrackers", an empty one included, is a driver error and nothing more is sent |
| DriverConnection.AddedRead | AprilTagTrackers/Connection.cpp:199-200 | reading "added" leaves "added", whatever was read before |
| DriverConnection.Missing | AprilTagTrackers/Connection.cpp:196-198 | the registrations of the entries from the driver's count on, in order; none from a negative count |
| DriverConnection.RegisterAcknowledged | AprilTagTrackers/Connection.cpp:196-212 | once every registration is acknowledged, the missing trackers, the station and the settings are sent and no error is set |
| DriverConnection.HandshakeRegistersMissing | AprilTagTrackers/Connection.cpp:179-212 | a driver that reports the configured version and acknowledges every registration is sent exactly the trackers it lacks, then the station and the settings, with no error |
| DriverConnection.ReaderAcknowledges | AprilTagTrackers/Connection.cpp:199 | replies that are all "added" leave "added", and an exhausted reply keeps the word read before |
| DriverConnection.AddFromStep | AprilTagTrackers/Connection.cpp:196-205 | one pass of the registration loop: a refusal ends the loop with the error, an acknowledgement continues it with the next entry |
| DriverConnection.AddFromSendsMissing | AprilTagTrackers/Connection.cpp:196-205 | trackers the driver already counts are not added again: with every reply acknowledged, exactly the entries from its count on are sent, in order, without error |
| DriverConnection.AddFromStopsAtRefusal | AprilTagTrackers/Connection.cpp:196-205 | a refusal stops the loop at that tracker: the commands sent are the entries up to it and the error is set |
| DriverConnection.Connection.constructor | AprilTagTrackers/Connection.cpp:11-22 | a new connection is disconnected, with no error and no trackers |
| DriverConnection.Connection.GetAndResetErrorState | AprilTagTrackers/Connection.hpp:73-78 | returns the stored code and clears it to OK, changing nothing else |
| DriverConnection.Connection.SetError | AprilTagTrackers/Connection.cpp:215-222 | records a code other than OK and its message and marks the connection disconnected |
| DriverConnection.Connection.MapTrackers | AprilTagTrackers/Connection.cpp:45-110 | the tracker list is cleared and refilled with the mapping of the configuration's tracker count |
| DriverConnection.Connection.AppendRun | AprilTagTrackers/Connection.cpp:49-56 | one mapping loop appended to the cleared list |
| DriverConnection.Connection.Connect | AprilTagTrackers/Connection.cpp:42-213 | after the mapping: with OpenVR disabled the connection is up at once; an OpenVR start error or a missing action manifest sets the matching error; otherwise the handshake decides |
| DriverConnection.Connection.RunHandshake | AprilTagTrackers/Connection.cpp:176-212 | the commands sent and the replies used are those of the handshake on the driver's replies; with no error the connection is up, otherwise the handshake's error is set |
| DriverConnection.Connection.Proceed | AprilTagTrackers/Connection.cpp:181-212 | the rest of the handshake once the greeting is read, with the same outcome |
| DriverConnection.Connection.RegisterAll | AprilTagTrackers/Connection.cpp:196-212 | the missing trackers, then the station and the settings; the outcome is that of the registration |
| DriverConnection.Connection.AddOne | AprilTagTrackers/Connection.cpp:198-199 | one registration command is sent and the word its reply leaves is read |
| DriverConnection.Connection.AddMissing | AprilTagTrackers/Connection.cpp:196-205 | the loop sends the commands and returns the error of the registration function, using one reply per command |
| DriverConnection.Connection.StartConnection | AprilTagTrackers/Connection.cpp:24-40 | the error is cleared; a waiting or connected link is refused with ALREADY_WAITING or ALREADY_CONNECTED and marked disconnected; otherwise it connects |
| DriverConnection.Connection.ButtonStates | AprilTagTrackers/Connection.cpp:278-297 | 0 while disconnected or with OpenVR disabled; otherwise 1 for the camera button, which wins, 2 for the trackers button alone, else 0 |
| DriverConnection.Connection.SendTracker | AprilTagTrackers/Connection.cpp:231-249 | one pose update is sent as text and its reply is returned |
| DriverConnection.Connection.SendStation | AprilTagTrackers/Connection.cpp:251-267 | one station pose is sent as text and its reply is returned |
| DriverConnection.TrackerTextIsCommand | AprilTagTrackers/Connection.cpp:235-244 | the older pose update is the newer command builder's text for the same arguments, followed by a newline |
| DriverConnection.StationTextIsCommand | AprilTagTrackers/Connection.cpp:255-262 | the older station update is the newer command builder's text, followed by a newline |
| DriverConnection.PoseSpaced | AprilTagTrackers/Connection.cpp:236-242 | a pose printed as one argument is its seven fields printed with six decimals, space-separated |
| CustomSerial.Resized | AprilTagTrackers/serial/CustomSerial.hpp:75 | resizing keeps the common prefix and fills new slots with the element's default value, to exactly the requested length |
| CustomSerial.ParsedList | AprilTagTrackers/serial/CustomSerial.hpp:70-84 | an empty node leaves the list as it was; a fixed-size list of another length throws the size error; otherwise the list has the node's length and slot i holds element i read over the old slot i |
| CustomSerial.ListRef.constructor | AprilTagTrackers/serial/CustomSerial.hpp:66-69 | the list holds the given elements, resizability and default element |
| CustomSerial.ListRef.Parse | AprilTagTrackers/serial/CustomSerial.hpp:70-84 | the list becomes what the parse specification gives, and on the size error it throws that message with the list unchanged |
| CustomSerial.FormatList | AprilTagTrackers/serial/CustomSerial.hpp:85-94 | the writer's output grows by the opening bracket (compact for integers), every element's tokens in order, and the closing bracket |
| CustomSerial.ListRoundTrip | AprilTagTrackers/serial/CustomSerial.hpp:70-94 | a written list decodes, and reading it into any list gives that list back, except that an empty list leaves the target unchanged |
| CustomSerial.ListParses | AprilTagTrackers/serial/CustomSerial.hpp:70-84 | a resizable list reads the nodes of any non-empty list back as exactly that list |
| CustomSerial.ParsePtr | AprilTagTrackers/serial/CustomSerial.hpp:100-104 | a null pointer is given a default element that is then read over; a set pointer's element is read over |
| CustomSerial.FormatPtr | AprilTagTrackers/serial/CustomSerial.hpp:105-108 | a null pointer writes nothing; a set pointer writes its element |
| CustomSerial.PtrRoundTrip | AprilTagTrackers/serial/CustomSerial.hpp:98-109 | a written set pointer decodes as its element's node and reads back as that element into a null or set pointer |
| CustomSerial.ReadKey | AprilTagTrackers/serial/FileStorage.hpp:189-195 | a missing or empty key leaves the value unchanged; a present one is read over the value |
| CustomSerial.ParseRecord | AprilTagTrackers/serial/CustomSerial.hpp:42-57 | every field keeps its name and is read by that name, in declaration order |
| CustomSerial.RecordDecodes | AprilTagTrackers/serial/CustomSerial.hpp:58-63 | a written record decodes completely as the map of its fields' encodings |
| CustomSerial.RecordParses | AprilTagTrackers/serial/CustomSerial.hpp:54-57 | reading the map of a record's encodings into any record of the same fields gives the record |
| CustomSerial.RecordRoundTrip | AprilTagTrackers/serial/CustomSerial.hpp:42-64 | a written record reads back as itself, into any value of the same type |
| CustomSerial.ParseBoard | AprilTagTrackers/serial/CustomSerial.hpp:142-151 | a null board is created empty; ids and corners are each kept when their key is missing and otherwise parsed as resizable lists |
| CustomSerial.BoardDecodes | AprilTagTrackers/serial/CustomSerial.hpp:152-158 | a written board decodes completely as the map holding its ids and its corners |
| CustomSerial.BoardChildren | AprilTagTrackers/serial/CustomSerial.hpp:149-150 | the ids and corners keys of a written board find its two lists |
| CustomSerial.BoardParses | AprilTagTrackers/serial/CustomSerial.hpp:142-151 | reading the map of a board with markers gives that board back, whatever board it is read into |
| CustomSerial.BoardRoundTrip | AprilTagTrackers/serial/CustomSerial.hpp:140-159 | a written board with markers decodes and reads back as itself into a null board or any other |
| SerialTree.Child | AprilTagTrackers/serial/FileStorage.hpp:191-192 | looking a key up gives an empty node unless the node is a map with an entry of that name, and then it gives such an entry's node |
| SerialTree.FirstNamed | AprilTagTrackers/serial/FileStorage.hpp:191 | the lookup finds an entry carrying the name when there is one, and an empty node when there is none |
| SerialTree.Elements | AprilTagTrackers/serial/FileStorage.hpp:197-202 | a sequence iterates its items, a scalar itself, and only an empty node iterates nothing |
| SerialTree.ConcatSnoc | AprilTagTrackers/serial/FileStorage.hpp:89-159 | writing one more piece appends exactly its tokens to the output |
| SerialTree.DecodeNode | AprilTagTrackers/serial/FileStorage.hpp:166-202 | a decoded node is never empty and always consumes at least one token |
| SerialTree.DecodeItems | AprilTagTrackers/serial/FileStorage.hpp:197-202 | decoding a sequence's items gives a sequence node and consumes input |
| SerialTree.DecodeFields | AprilTagTrackers/serial/FileStorage.hpp:185-195 | decoding a map's entries gives a map node and consumes input |
| SerialTree.Writer.constructor | AprilTagTrackers/serial/FileStorage.hpp:92 | a new writer has written nothing |
| SerialTree.Writer.Emit | AprilTagTrackers/serial/FileStorage.hpp:94-159 | the output grows by exactly the given tokens |
| SerialTree.DecodeItemsOf | AprilTagTrackers/serial/FileStorage.hpp:139-154 | the concatenated encodings of items followed by the closing bracket decode one after another as those items, leaving the rest |
| SerialTree.SeqEncodes | AprilTagTrackers/serial/FileStorage.hpp:139-154 | bracketing encoded items encodes the sequence of their nodes, compact or not |
| SerialTree.PutEncodes | AprilTagTrackers/serial/FileStorage.hpp:94-106 | a scalar is written as one token that decodes as itself |
| SerialTree.DecodeFieldsOf | AprilTagTrackers/serial/FileStorage.hpp:111-137 | the concatenated named entries followed by the closing brace decode one after another as the named nodes, leaving the rest |
| SerialTree.MapEncodes | AprilTagTrackers/serial/FileStorage.hpp:111-137 | bracing named encoded entries encodes the map of those names and nodes |
| SerialTree.FirstNamedDistinct | AprilTagTrackers/serial/FileStorage.hpp:191 | with distinct names, looking up an entry's name finds that entry's node |
| ReaderWriter.ReadRoute | AprilTagTrackers/serial/ReaderWriter.hpp:92-102 | a type's own reader wins, then the reflectable reader, then the list reader, then stream extraction, each exactly when the earlier ones do not apply |
| ReaderWriter.WriteRoute | AprilTagTrackers/serial/ReaderWriter.hpp:110-125 | the same precedence with the type's own writer, each route exactly when the earlier ones do not apply |
| ReaderWriter.OwnMethodsPaired | AprilTagTrackers/serial/ReaderWriter.hpp:92-125 | a type with both its own reader and writer, or with neither, is read and written by the same route |
| ReaderWriter.ReadIterableSpec | AprilTagTrackers/serial/ReaderWriter.hpp:211-224 | an empty node changes nothing; a resizable list takes the node's length, a fixed-size one keeps its own; every slot reads the element at its position |
| ReaderWriter.ReadIterable | AprilTagTrackers/serial/ReaderWriter.hpp:211-224 | the loop leaves the list as the reading specification gives |
| ReaderWriter.IterableAgreesWithParse | AprilTagTrackers/serial/ReaderWriter.hpp:211-224 | where the newer list parser succeeds the older reader gives the same list; the parser fails exactly for a fixed-size list shorter than a non-empty node, which the older reader fills from the node's first elements |
| ReaderWriter.WriteIterable | AprilTagTrackers/serial/ReaderWriter.hpp:225-237 | the output grows by the list's tokens, compact for lists of lists or of integers |
| ReaderWriter.MemberTokens | AprilTagTrackers/serial/ReaderWriter.hpp:133-155 | a member writes nothing exactly when it is a deprecated key |
| ReaderWriter.ReadMember | AprilTagTrackers/serial/ReaderWriter.hpp:127-160 | a value member is read by its own key, a comment reads nothing, a deprecated key overwrites its target; no other member changes and the layout is kept |
| ReaderWriter.ReadMembers | AprilTagTrackers/serial/ReaderWriter.hpp:239-246 | reading every member keeps the layout, the names and every comment and deprecated key |
| ReaderWriter.DecodeMembers | AprilTagTrackers/serial/ReaderWriter.hpp:247-254 | the members' tokens decode as the map of the value members only, comments skipped |
| ReaderWriter.LookupLive | AprilTagTrackers/serial/ReaderWriter.hpp:127-132 | in a written record a value member's name finds its encoding, and any other name finds nothing |
| ReaderWriter.ReadMemberRestores | AprilTagTrackers/serial/ReaderWriter.hpp:127-160 | reading member i of what was written restores that member and leaves every other member as it was |
| ReaderWriter.ReadMembersRestores | AprilTagTrackers/serial/ReaderWriter.hpp:239-246 | reading what was written restores every member, whatever values the target held |
| ReaderWriter.RecordDecodes | AprilTagTrackers/serial/ReaderWriter.hpp:114-119 | a written reflectable value decodes completely as the map of its value members |
| ReaderWriter.RecordRoundTrip | AprilTagTrackers/serial/ReaderWriter.hpp:114-119 | a written reflectable value reads back as itself into any value of the same type; a deprecated key, never written, does not overwrite its target |
| ReaderWriter.DeprecatedKeyCopied | AprilTagTrackers/serial/ReaderWriter.hpp:156-160 | a file still holding a deprecated key has its value read into the target member |
| CvHelpers.ConstrainSizeScales | AprilTagTrackers/math/CVHelpers.hpp:65-74 | the shorter side (the width on a tie) becomes the bound and the other side is the exactly scaled length truncated, so within one below it, and the orientation is kept |
| CvHelpers.LongerSide | AprilTagTrackers/math/CVHelpers.hpp:69-72 | the truncated scaled longer side is within one below the exact quotient and never below the bound |
| CvHelpers.ConstrainSizeToFillFits | AprilTagTrackers/math/CVHelpers.hpp:75-78 | fitting into a size bounds the shorter side by the smaller of its two sides, and equals one of them |
| CvHelpers.IndexVec | AprilTagTrackers/math/CVHelpers.hpp:151-178 | a component is returned exactly when the index is within the vector; any other index is the failed assertion |
| CvHelpers.VecCompClamp | AprilTagTrackers/math/CVHelpers.hpp:180-189 | every component is clamped into the range, the length kept |
| CvHelpers.VecCompMin | AprilTagTrackers/math/CVHelpers.hpp:190-199 | every component becomes the smaller of itself and the cap |
| CvHelpers.VecCompMax | AprilTagTrackers/math/CVHelpers.hpp:200-209 | every component becomes the larger of itself and the floor |
| CvHelpers.CheckMarkerCorners | AprilTagTrackers/math/CVHelpers.hpp:211-218 | the check passes exactly for four corners |
| DebugDriver.GetIdFromName | AprilTagTrackers/debug_driver/main.cpp:483-493 | a name is accepted exactly when it starts with the prefix and its whole suffix reads as a non-negative int, which is the id; a short name and a wrong prefix give their own errors |
| DebugDriver.IdOfTrackerName | AprilTagTrackers/debug_driver/main.cpp:483-493 | the name built from a non-negative id reads back as that id |
| DebugDriver.NegativeIdRefused | AprilTagTrackers/debug_driver/main.cpp:491 | the name with suffix -1 is refused as a negative id |
| DebugDriver.NegativeSuffixRefused | AprilTagTrackers/debug_driver/main.cpp:489-491 | any name whose whole suffix reads as a negative int is refused as a negative id |
| DebugDriver.MinusOneParsed | AprilTagTrackers/debug_driver/main.cpp:488 | from_chars reads the text -1 whole as the value -1 |
| DebugDriver.Handle | AprilTagTrackers/debug_driver/main.cpp:546-623 | a failing command leaves the driver unchanged and an unknown command word is refused by name |
| DebugDriver.UpdatePose | AprilTagTrackers/debug_driver/main.cpp:552-565 | only tracker poses change, the stations, the tracker count and every name are kept, and a failure changes nothing |
| DebugDriver.UpdateStation | AprilTagTrackers/debug_driver/main.cpp:585-594 | only station poses change, the trackers and the station count are kept, and a failure changes nothing |
| DebugDriver.AddTracker | AprilTagTrackers/debug_driver/main.cpp:602-612 | success means the name's id is the current tracker count and exactly one tracker with that name and role is appended; a failure changes nothing |
| DebugDriver.AddTrackerInOrder | AprilTagTrackers/debug_driver/main.cpp:602-612 | the command succeeds exactly for the next id, appending the tracker and replying added; any other valid id is refused as out of order with that id |
| DebugDriver.HandleKeepsIdsInOrder | AprilTagTrackers/debug_driver/main.cpp:546-623 | whatever the command, tracker i carries the name of id i, and no command removes an entry or adds more than one tracker or station |
| DebugDriver.PoseCommandsInRange | AprilTagTrackers/debug_driver/main.cpp:552-565 | a pose update succeeds exactly for an existing tracker id and then replaces only that tracker's pose, keeping its name |
| DebugDriver.CommandOfWritten | AprilTagTrackers/debug_driver/main.cpp:548-549 | a message of a command word and written arguments splits into that word and reads back the arguments |
| DebugDriver.ReceivedFits | AprilTagTrackers/debug_driver/main.cpp:556-560 | what the reader extracts from written arguments has the kinds of the variables they are read into |
| DebugDriver.TrimmedClientCommand | AprilTagTrackers/debug_driver/main.cpp:525-526 | polling drops the leading space of a command the tracker program sends |
| DebugDriver.RespondToClient | AprilTagTrackers/debug_driver/main.cpp:520-544 | a message from the tracker program is handled as its command word with its arguments as printed |
| DebugDriver.WordsFit | AprilTagTrackers/debug_driver/main.cpp:604-606 | a tracker name and a one-word role are read whole as the two words of addtracker |
| DebugDriver.ClientAddTrackerAccepted | AprilTagTrackers/debug_driver/main.cpp:602-612 | the tracker program's addtracker for the next id is accepted, appends that tracker, and the reply is the acknowledgement the program waits for |
| DebugDriver.AddedAcknowledged | AprilTagTrackers/debug_driver/main.cpp:611 | the reply added is accepted by the tracker program as the acknowledgement |
| DebugDriver.ClientReadsCount | AprilTagTrackers/debug_driver/main.cpp:596-600 | the numtrackers reply is read by the tracker program as the tracker count, accepted exactly when the versions are compatible |
| DebugDriver.ClientReadsPose | AprilTagTrackers/debug_driver/main.cpp:575-583 | the trackerpose reply is read by the tracker program as the stored pose as printed, valid exactly while the status is Valid |
| DebugDriver.LeadingBlanks | AprilTagTrackers/debug_driver/main.cpp:525 | the count is of the leading space characters exactly, stopping at the first other character |
| DebugDriver.Trimmed | AprilTagTrackers/debug_driver/main.cpp:525-526 | the result is a suffix of the message that does not start with a space unless the message is spaces only, which is kept whole |
| DebugDriver.PollReply | AprilTagTrackers/debug_driver/main.cpp:520-544 | there is a reply exactly when a message was waiting |
| DebugDriver.PollReplyCorrected | AprilTagTrackers/debug_driver/main.cpp:534-538 | there is a reply exactly when a message was waiting, and an error report quotes the trimmed message |
| DebugDriver.BogusIsUnknown | AprilTagTrackers/debug_driver/main.cpp:623 | a message with an unknown word is refused as an unexpected command naming it |
| DebugDriver.PollReplyDropsCommand | AprilTagTrackers/debug_driver/main.cpp:527-538 | as written, the error report for the message bogus quotes an empty command, where the corrected report quotes bogus |
| DebugDriver.ReportedQuotesCommand | AprilTagTrackers/debug_driver/main.cpp:534-538 | the corrected error report holds the message between its quotes, distinguishable from the written one for any non-empty message; a success reply is the same either way |
| DebugDriver.OpenVRDriver.constructor | AprilTagTrackers/debug_driver/main.cpp:518 | a new driver has no trackers and no stations and keeps its version |
| DebugDriver.OpenVRDriver.HandleMessage | AprilTagTrackers/debug_driver/main.cpp:546-623 | the new state and the reply are those the command handler gives for the old state |
| DebugDriver.OpenVRDriver.PollMessage | AprilTagTrackers/debug_driver/main.cpp:520-544 | no waiting message changes nothing and sends nothing; otherwise the trimmed message is handled and the reply is the polling reply |
| DebugDriver.MeanBetween | AprilTagTrackers/debug_driver/main.cpp:113-124 | the integral average of a full window lies between its smallest and largest values |
| DebugDriver.MeanOfConstant | AprilTagTrackers/debug_driver/main.cpp:113-124 | a window holding one value throughout averages to that value |
| DebugDriver.Average.constructor | AprilTagTrackers/debug_driver/main.cpp:103-106 | every slot of the window holds the initial value and writing starts at slot 0 |
| DebugDriver.Average.Assign | AprilTagTrackers/debug_driver/main.cpp:107-112 | the value replaces the slot at the write position, which then advances and wraps to 0 |
| DebugDriver.Average.Value | AprilTagTrackers/debug_driver/main.cpp:113-124 | the summing loop gives the window's sum divided by its size, truncated toward zero |
| DebugDriver.WaitEndOfFrame | AprilTagTrackers/debug_driver/main.cpp:358-365 | there is no wait exactly when no time is left; otherwise the wait is the time left truncated to whole milliseconds |
| DebugDriver.WaitEndOfFrameStalls | AprilTagTrackers/debug_driver/main.cpp:361-363 | half a millisecond left gives a wait of 0, which waits for a key without bound |
| DebugDriver.WaitEndOfFrameCorrected | AprilTagTrackers/debug_driver/main.cpp:358-365 | no wait exactly when no time is left; otherwise a bounded wait of at least one millisecond, rounded up |
| DebugDriver.WaitAgreesFromOneMillisecond | AprilTagTrackers/debug_driver/main.cpp:358-365 | with a millisecond or more left the corrected wait is the written one |
| EnumReflect.FindOuterComma | AprilTagTrackers/utils/Enum.hpp:42-59 | the depth-counting loop returns the position the first-outer-comma function gives |
| EnumReflect.NextOuterCommaIsFirst | AprilTagTrackers/utils/Enum.hpp:42-59 | the position is just after the first comma outside parentheses from the start, or the end of the text when there is none |
| EnumReflect.NextOuterComma | AprilTagTrackers/utils/Enum.hpp:42-59 | the position never moves backwards and never passes the end of the text |
| EnumReflect.FindIdent | AprilTagTrackers/utils/Enum.hpp:68 | the position is within the text from the start on, and holds an identifier character unless it is the end |
| EnumReflect.FindIdentIsFirst | AprilTagTrackers/utils/Enum.hpp:68 | every character skipped is outside identifiers, so the position is the first identifier character |
| EnumReflect.FindNotIdent | AprilTagTrackers/utils/Enum.hpp:69 | the position is within the text from the start on, and holds a non-identifier character unless it is the end |
| EnumReflect.FindNotIdentIsFirst | AprilTagTrackers/utils/Enum.hpp:69 | every character skipped is an identifier character |
| EnumReflect.NextKey | AprilTagTrackers/utils/Enum.hpp:68-73 | a key found is a run of identifier characters and the resume position stays within the text |
| EnumReflect.KeyRun | AprilTagTrackers/utils/Enum.hpp:68-72 | the run from an identifier character to the next non-identifier one is a key |
| EnumReflect.ScanKeys | AprilTagTrackers/utils/Enum.hpp:66-74 | n turns of the scan give exactly n keys, each a run of identifier characters |
| EnumReflect.ScanStep | AprilTagTrackers/utils/Enum.hpp:66-74 | one more turn appends the key at the first identifier character and resumes after the next outer comma |
| EnumReflect.ScanMissing | AprilTagTrackers/utils/Enum.hpp:68 | a turn that finds no identifier character stops the scan |
| EnumReflect.NoKeyStops | AprilTagTrackers/utils/Enum.hpp:66-74 | once a key is missing every longer scan stays stopped |
| EnumReflect.ParseEnumKeys | AprilTagTrackers/utils/Enum.hpp:61-76 | the loop returns the keys of the scan, exactly size of them when every turn found one, and nothing when a turn ran past the end |
| EnumReflect.MapEnumValues | AprilTagTrackers/utils/Enum.hpp:78-89 | an explicit value is kept, a missing one is the previous value plus one, the first defaults to 0, and the length is kept |
| EnumReflect.IsSequential | AprilTagTrackers/utils/Enum.hpp:137-147 | the verdict is true exactly when every value is its index plus the first value |
| EnumReflect.IsUnique | AprilTagTrackers/utils/Enum.hpp:152-159 | the verdict is true exactly when no value occurs twice |
| EnumReflect.SequentialIsUnique | AprilTagTrackers/utils/Enum.hpp:161-162 | a sequential enum never repeats a value |
| EnumReflect.IndexOf | AprilTagTrackers/utils/Enum.hpp:167 | the index is of the first equal element, or the length when there is none |
| EnumReflect.FromString | AprilTagTrackers/utils/Enum.hpp:164-171 | there is a value exactly when the name is a key, and it is the value paired with the first key equal to the name |
| EnumReflect.ToString | AprilTagTrackers/utils/Enum.hpp:173-179 | there is a name exactly when the value is one of the enum's values, and it is one of the keys |
| EnumReflect.FromStringOfToString | AprilTagTrackers/utils/Enum.hpp:164-179 | with distinct keys, the name of every value of a sequential enum reads back as that value |
| EnumReflect.ToStringOfFromString | AprilTagTrackers/utils/Enum.hpp:164-179 | every key of a sequential enum reads as a value whose name is that key again |
| EnumReflect.IsAnyOf | AprilTagTrackers/utils/Enum.hpp:181-185 | the verdict is true exactly when the value equals one of the candidates |
| EnumReflect.KeyIndex | AprilTagTrackers/utils/Enum.hpp:96-109 | the index is of the first pair with that key, or the length when there is none |
| EnumReflect.Map | AprilTagTrackers/utils/Enum.hpp:96-109 | there is a result exactly when some pair has the value as key, and it is the partner of the first such pair |
| Env.StringToBool | AprilTagTrackers/utils/Env.cpp:10-17 | the empty text, the text 0 and any text starting with f or F are false, everything else is true |
| Env.StringToBoolZeros | AprilTagTrackers/utils/Env.cpp:14-16 | a text starting with 0 is true unless it is exactly 0 |
| Env.GetVarAsString | AprilTagTrackers/utils/Env.cpp:55-62 | there is a value exactly when the variable is set, and it is the variable's value |
| Env.GetVarAsBool | AprilTagTrackers/utils/Env.cpp:64-71 | an unset variable reads as false, a set one as its text read as a boolean |
| Env.ParsePath | AprilTagTrackers/utils/Env.cpp:79 | the parsed path is well formed and absolute exactly when the text starts with a separator |
| Env.Normalize | AprilTagTrackers/utils/Env.cpp:80 | the normalised path is in normal form and keeps whether the path is absolute |
| Env.NormalizeFixesNormal | AprilTagTrackers/utils/Env.cpp:80 | a path already in normal form is left unchanged |
| Env.NormalizeIdempotent | AprilTagTrackers/utils/Env.cpp:80 | normalising twice is normalising once |
| Env.NormalizeDotDot | AprilTagTrackers/utils/Env.cpp:80 | a/./b/.. normalises to a/ |
| Env.NormalizeRootDotDot | AprilTagTrackers/utils/Env.cpp:80 | /../x normalises to /x |
| Env.Format | AprilTagTrackers/utils/Env.cpp:80 | a path's text is never empty and starts with a separator when the path is absolute |
| Env.LexicallyNormal | AprilTagTrackers/utils/Env.cpp:79-80 | the normalised text is empty exactly when the text is empty |
| Env.GetVarAsPath | AprilTagTrackers/utils/Env.cpp:73-87 | there is a path exactly when the variable is set, and it is the variable's text normalised |
| EventQueue.EmptyPtr | AprilTagTrackers/event/EventQueue.hpp:37 | a default pointer has id -1 and holds no event |
| EventQueue.Emplace | AprilTagTrackers/event/EventQueue.hpp:43-58 | the pointer records the event type's id and holds the event |
| EventQueue.Get | AprilTagTrackers/event/EventQueue.hpp:59-71 | with the type the pointer was emplaced with, the event it holds is returned |
| EventQueue.Destroy | AprilTagTrackers/event/EventQueue.hpp:72-84 | the event is destroyed and the id is left as it was |
| EventQueue.GetAfterEmplace | AprilTagTrackers/event/EventQueue.hpp:43-71 | getting with the same type gives back the event that was emplaced |
| EventQueue.Handle | AprilTagTrackers/event/EventQueue.hpp:138-160 | a handler calls its function on the held event and then destroys it, keeping the id |
| EventQueue.TryEmplace | AprilTagTrackers/event/EventQueue.hpp:202-213 | an id that already has a handler keeps it, a new id gets the new one, and every other id is unchanged |
| EventQueue.Erase | AprilTagTrackers/event/EventQueue.hpp:219 | the id loses its handler and every other id is unchanged |
| EventQueue.BindAll | AprilTagTrackers/event/EventQueue.hpp:199-214 | binding more handlers never replaces one already bound |
| EventQueue.FirstBindWins | AprilTagTrackers/event/EventQueue.hpp:199-214 | the first handler bound for an id stays whatever is bound after it |
| EventQueue.RebindAfterUnbind | AprilTagTrackers/event/EventQueue.hpp:199-220 | unbinding and then binding installs the new handler |
| EventQueue.Dispatch | AprilTagTrackers/event/EventQueue.hpp:222-230 | one call per event, each to the handler of the event's id with that event |
| EventQueue.DispatchSnoc | AprilTagTrackers/event/EventQueue.hpp:222-230 | one more event adds one call, at the end, to its id's handler |
| EventQueue.EventQueue.constructor | AprilTagTrackers/event/EventQueue.hpp:232-234 | a new queue holds no events and no handlers |
| EventQueue.EventQueue.Push | AprilTagTrackers/event/EventQueue.hpp:181-197 | a pointer holding the event under its type's id is appended to the queue |
| EventQueue.EventQueue.Bind | AprilTagTrackers/event/EventQueue.hpp:199-214 | the handler table becomes the try-emplace of the new handler |
| EventQueue.EventQueue.Unbind | AprilTagTrackers/event/EventQueue.hpp:216-220 | the handler table loses the id's entry |
| EventQueue.EventQueue.ProcessEvents | AprilTagTrackers/event/EventQueue.hpp:222-230 | the queue is emptied and the calls made are every queued event, in order, to its id's handler |
| Helpers.DegRadInverse | AprilTagTrackers/Helpers.hpp:16-18 | the degree and radian factors are inverse to each other |
| Helpers.Length1 | AprilTagTrackers/Helpers.hpp:49-53 | the length of one number is its absolute value |
| Helpers.SumSqNegated | AprilTagTrackers/Helpers.hpp:59-63 | the squared length is unchanged when every component is negated |
| Helpers.Length3 | AprilTagTrackers/Helpers.hpp:59-63 | the length is the non-negative number whose square is the sum of the squares |
| Helpers.Length | AprilTagTrackers/Helpers.hpp:64-68 | a vector's length is non-negative and zero for the zero vector |
| Helpers.Distance | AprilTagTrackers/Helpers.hpp:79-88 | a distance is non-negative and zero between equal vectors |
| Helpers.DistanceSymmetric | AprilTagTrackers/Helpers.hpp:79-88 | the distance from a to b is the distance from b to a |
| Helpers.EulerAnglesOffsetOnly | AprilTagTrackers/Helpers.hpp:90-102 | the angles depend only on the offset from the origin: seen from the origin itself, or with both points shifted alike, they are the same |
| Helpers.FlipOVR | AprilTagTrackers/Helpers.hpp:128-136 | component 0 is negated, component 2 too when there are three or more, and every other component is kept |
| Helpers.FlipOVRInvolution | AprilTagTrackers/Helpers.hpp:128-136 | transforming a vector twice gives it back |
| Helpers.CoordTransformOVR | AprilTagTrackers/Helpers.hpp:130-136 | the array is transformed in place to the flipped vector |
| Helpers.CvQuat.constructor | AprilTagTrackers/Helpers.hpp:139-140 | the quaternion holds the four given components |
| Helpers.CvQuat.CoordTransformOVR | AprilTagTrackers/Helpers.hpp:137-144 | x and z are negated, w and y kept |
| Helpers.QuatTransformTwice | AprilTagTrackers/Helpers.hpp:137-144 | transforming a quaternion twice restores every component |
| ImageDrawing.Line | AprilTagTrackers/ImageDrawing.cpp:28-32 | the line has exactly the requested number of points, point j at position j |
| ImageDrawing.CreateXyGridLines | AprilTagTrackers/ImageDrawing.cpp:16-46 | there are gridSizeX + gridSizeY + 2 lines, the vertical ones first with constant x and y running over the height in steps of one subdivision, then the horizontal ones likewise, every point at depth z |
| ImageDrawing.AlongSpan | AprilTagTrackers/ImageDrawing.cpp:30 | a family of lines runs from minus half the size to half the size in steps of one over the subdivision count |
| ImageDrawing.OffsetMirror | AprilTagTrackers/ImageDrawing.cpp:27 | the grid is centred: line i and line size - i of a family are mirror images |
| ImageDrawing.GridDepth | AprilTagTrackers/ImageDrawing.cpp:31 | every point of a grid lies in the plane at depth z |
| ImageDrawing.SampledIndices | AprilTagTrackers/ImageDrawing.cpp:80-87 | the sampling reads indices 0 to 3 for the camera matrix and then one per distortion coefficient, in order |
| ImageDrawing.CalibrationSamples | AprilTagTrackers/ImageDrawing.cpp:77-88 | the assertion fails exactly when deviations are present and fewer than four more than the coefficients; otherwise every index read is within the deviations |
| Installer.SplitComponents | Installer/installer.py:39 | no component of a split path holds a separator |
| Installer.JoinSplit | Installer/installer.py:39 | joining the components of a path string gives the string back |
| Installer.SplitAppend | Installer/installer.py:39 | appending a separator and a relative path appends its components |
| Installer.SplitName | Installer/installer.py:80 | a name without a separator is one component |
| Installer.Slashes | Installer/installer.py:28 | every backslash becomes a forward slash and every other character is kept |
| Installer.Lower | Installer/installer.py:44 | each ASCII capital letter is lowered and every other character kept, the length unchanged |
| Installer.AncestorIsDir | Installer/installer.py:80 | in a well-formed tree every folder above an entry is a directory |
| Installer.CopiedEntry | Installer/installer.py:84 | each entry of the source tree has its copy at the same place under the destination |
| Installer.CopySource | Installer/installer.py:84 | each copied entry lies under the destination and comes from the same place in the source tree |
| Installer.MissingEntry | Installer/installer.py:84 | the folders created are exactly the absent ones strictly above the destination, each a directory |
| Installer.AbsentHasNothingBelow | Installer/installer.py:84 | in a well-formed tree nothing lies below an absent path |
| Installer.ParentIsDir | Installer/installer.py:84 | the folder holding an entry of a well-formed tree is a directory |
| Installer.CopyTreeKeeps | Installer/installer.py:84 | copying never overwrites, the destination then holds the source tree, and every new entry is at or under the destination or a folder above it |
| Installer.DirAboveCopy | Installer/installer.py:84 | after a copy every folder above the destination is a directory |
| Installer.CopiedParent | Installer/installer.py:84 | the folder holding a copied entry below the destination is a copied directory |
| Installer.CopyTreeWellFormed | Installer/installer.py:84 | a copy leaves the tree well formed |
| Installer.RemovedEntry | Installer/uninstaller.py:75 | exactly the entries at or below the folder go, the rest keep their contents |
| Installer.RemovedWellFormed | Installer/uninstaller.py:75 | removing a tree leaves the rest well formed |
| Installer.WrittenWellFormed | Installer/installer.py:98-99 | writing a file into a directory, where no directory is, keeps the tree well formed |
| Installer.MoveKeeps | Installer/install.py:78 | moving keeps everything outside the source, leaves nothing below it, holds the old source tree at the target, and adds nothing else but directories above the target, which `copytree` creates when missing |
| Installer.DirAboveMove | Installer/install.py:78 | after a move every folder above the target is a directory, missing ones having been created |
| Installer.MoveWellFormed | Installer/install.py:78 | a move leaves the tree well formed |
| Installer.NotBelowAbsent | Installer/install.py:78 | in a well-formed tree no entry lies below an absent path |
| Installer.MovedTargetParent | Installer/install.py:78 | after a move the folder holding the target is a directory |
| Installer.FlagUpdateOnlyFlag | Installer/installer.py:91-95 | an update is needed exactly when the flag is absent or equal to False, and it sets only that flag to true |
| Installer.FlagUpdateIdempotent | Installer/installer.py:91-95 | after one update a second one writes nothing |
| Installer.DriverInDrivers | Installer/installer.py:80 | the driver folder is the payload's name inside the SteamVR drivers folder |
| Installer.SteamRootMeaning | Installer/installer.py:28-34 | the run goes on exactly with the default Steam folder when it is a directory, or else with a non-empty folder the user picked |
| Installer.SteamVrAsksOnlyWhenMissing | Installer/installer.py:39-52 | a present default SteamVR folder is taken without asking; an absent one leads to the question, a refusal or no choice stops, and a choice is taken |
| Installer.SteamVrInvertedAsWritten | Installer/install.py:41 | as written, install.py stops a user whose SteamVR folder exists and who answers no, and goes on with the default folder when it does not exist, the reverse of installer.py |
| Installer.LocateMeaning | Installer/installer.py:56-60 | a located settings file is a file in the tree holding the settings read, under the Steam folder found; a stop while finding Steam keeps its reason |
| Installer.FileSystem.constructor | Installer/installer.py:1-3 | the file system holds the given well-formed tree |
| Installer.FileSystem.CopyFolder | Installer/installer.py:84 | the copy succeeds exactly when the tree copy is defined, and then the tree is the copy; nothing changes on failure and nothing existing is overwritten |
| Installer.FileSystem.MoveFolder | Installer/install.py:78 | the move succeeds exactly when the tree move is defined, and then the tree is the moved one; nothing changes on failure |
| Installer.FileSystem.RemoveFolder | Installer/uninstaller.py:75 | the tree loses exactly the entries at or below the folder |
| Installer.FileSystem.WriteSettings | Installer/installer.py:98-99 | the write succeeds exactly when the file's folder is a directory and the file is not one, and then only that file changes, to the settings |
| Installer.ActivateFlag | Installer/installer.py:90-103 | a missing section stops with nothing written, a flag already set writes nothing, otherwise the settings file is replaced by the updated settings or, on a failed write, nothing changes |
| Installer.CopyDriver | Installer/installer.py:79-87 | an existing driver folder is kept untouched; otherwise the payload is copied there, nothing existing overwritten, and a failure changes nothing |
| Installer.RunInstaller | Installer/installer.py:28-105 | a failed lookup or a missing payload stops with nothing changed and a failed copy changes nothing; only the settings file is ever replaced; a finished run leaves the driver folder a directory holding the payload and the flag set; with both already in place nothing changes |
| Installer.MoveDriver | Installer/install.py:73-81 | an existing driver folder is kept; otherwise the payload is moved into the drivers folder, a missing payload fails, a payload folder is moved whenever no folder above the target is a file (missing ones are created), and everything outside the payload is kept |
| Installer.RunMoveInstaller | Installer/install.py:29-99 | a failed lookup stops with nothing changed, a failed move changes nothing, and a missing payload with no driver folder stops the move, while a payload folder with no driver folder is moved, the missing SteamVR folders created, whenever the target can be created outside the payload; nothing outside the payload except the settings file changes; a finished move holds the payload in the drivers folder, or as the drivers folder when there was none |
| Installer.RunUninstaller | Installer/uninstaller.py:28-79 | a failed lookup stops with nothing changed; otherwise the run finishes, having removed the driver folder exactly when it was a directory |
| LegacyConfig.MarkerSizeRule | AprilTagTrackers/Config.h:33-35 | the marker size is clamped into [0, 1], a value already there kept |
| LegacyConfig.TrackerCalibDistanceRule | AprilTagTrackers/Config.h:60-63 | a distance below 0.5 becomes 0.5, any other is kept |
| LegacyConfig.CameraCalibSamplesRule | AprilTagTrackers/Config.h:64-67 | a sample count below 15 becomes 15, any other is kept |
| LegacyConfig.MarkersPerTrackerRule | AprilTagTrackers/Config.h:76-79 | a count of zero or less is reset to 45, a positive one is kept |
| LegacyConfig.CalibScaleRule | AprilTagTrackers/Config.h:80-83 | a scale below 0.5 is reset to 1.0, any other is kept |
| LegacyConfig.RulesIdempotent | AprilTagTrackers/Config.h:33-83 | every rule leaves its own results unchanged |
| LegacyConfig.ResetsAreNotClamps | AprilTagTrackers/Config.h:76-83 | a marker count of 0 becomes 45 here where the newer configuration makes it 1, and a scale of 0.4 becomes 1.0 rather than 0.5 |
| LegacyConfig.DefaultUserConfig | AprilTagTrackers/Config.h:20-86 | the defaults satisfy every rule, with version 0.5.5, one tracker, marker size 0.05 and camera 0 |
| LegacyConfig.Validate | AprilTagTrackers/Config.h:20-86 | a read configuration satisfies every rule, one that already did is kept whole, and unvalidated fields are kept |
| LegacyConfig.DefaultArucoConfig | AprilTagTrackers/Config.h:112-118 | the detector parameters the constructor sets are those of the newer configuration |
| LegacyHelpers.Candidates | AprilTagTrackers/Helpers.h:179-182 | the four candidates from the diagonal add up to one for every matrix |
| LegacyHelpers.RootsSquares | AprilTagTrackers/Helpers.h:184-187 | each root is non-negative and squares to its candidate clamped at zero |
| LegacyHelpers.WithSign | AprilTagTrackers/Helpers.h:191-213 | multiplying by the copied sign keeps the magnitude, and a positive value turns negative exactly when the sign source is negative |
| LegacyHelpers.Branch | AprilTagTrackers/Helpers.h:188-215 | the branch taken is the first component at least as large as the other three |
| LegacyHelpers.SomeCandidateLargest | AprilTagTrackers/Helpers.h:216-219 | one component is always at least as large as the others, so the fatal branch is never taken |
| LegacyHelpers.SignRootsMagnitudes | AprilTagTrackers/Helpers.h:188-215 | the sign changes alter no magnitude |
| LegacyHelpers.NormUpToSigns | AprilTagTrackers/Helpers.h:188-215 | sign changes keep the norm |
| LegacyHelpers.SignRootsSigns | AprilTagTrackers/Helpers.h:188-215 | the largest root is kept as it is and each other component is negative only when its off-diagonal difference or sum is |
| LegacyHelpers.Max0Sum | AprilTagTrackers/Helpers.h:184-187 | the clamped candidates add up to at least one, and to exactly one when none was negative |
| LegacyHelpers.SignedNorm | AprilTagTrackers/Helpers.h:179-215 | before normalising the norm is at least one, so normalising never divides by zero, and exactly one when no candidate is negative |
| LegacyHelpers.SignedSigns | AprilTagTrackers/Helpers.h:179-215 | the largest candidate keeps its non-negative root, and each other component is negative only when its off-diagonal difference or sum is |
| LegacyHelpers.Normalize | AprilTagTrackers/Helpers.h:221 | the normalised quaternion has norm one |
| LegacyHelpers.RotationMatrixToQuat | AprilTagTrackers/Helpers.h:128-222 | every matrix gives a unit quaternion |
| LegacyHelpers.IdentityMatrixQuat | AprilTagTrackers/Helpers.h:128-222 | the identity matrix gives the identity quaternion |
| LegacyParameters.Lookup | AprilTagTrackers/Parameters.h:75-84 | there is a parameter exactly when some entry carries the name, and it is such an entry's parameter |
| LegacyParameters.LookupDistinct | AprilTagTrackers/Parameters.h:115 | with distinct names, looking up an entry's name finds that entry |
| LegacyParameters.Child | AprilTagTrackers/Parameters.h:138 | the sub-node of a map under a present name is that entry's node; anything else is an empty node |
| LegacyParameters.Deserialize | AprilTagTrackers/Parameters.h:38-47 | a present leaf node is read and then validated when there is a validator, a map node counting as present and read as OpenCV converts it; an absent one resets the value to the default; a nested node reads every child from the sub-node of its name, keeping the names |
| LegacyParameters.EmptyResetsAll | AprilTagTrackers/Parameters.h:45-46 | reading from an empty node resets every leaf of the tree to its default |
| LegacyParameters.Tree | AprilTagTrackers/Parameters.h:125-133 | the intended file holds a scalar per leaf and a map per nested node with the children's names |
| LegacyParameters.Serialize | AprilTagTrackers/Parameters.h:34-37 | a leaf writes one entry, its value under its name |
| LegacyParameters.SerializeCorrected | AprilTagTrackers/Parameters.h:125-133 | a named nested node opens a map under its own name holding its children |
| LegacyParameters.RoundTrip | AprilTagTrackers/Parameters.h:34-47 | reading back the intended file of a well-formed tree gives the tree back |
| LegacyParameters.NestedRoundTripFailsAsWritten | AprilTagTrackers/Parameters.h:129-132 | as written, a node n holding a leaf a = 5 writes a at the top level and no n, so reading it back resets the leaf to its default 0 |
| LegacyParameters.NestedRoundTripCorrected | AprilTagTrackers/Parameters.h:125-139 | the same tree written with the map opened under its name reads back unchanged |
| LegacyParameters.Inserted | AprilTagTrackers/Parameters.h:112 | inserting under a used name changes nothing, a new name is appended, and the names stay distinct |
| LegacyParameters.AddKeepsFirst | AprilTagTrackers/Parameters.h:108-113 | adding under a used name keeps the first parameter, and a new name finds the parameter added |
| LegacyParameters.ParamNode.constructor | AprilTagTrackers/Parameters.h:59 | a new node holds no parameters |
| LegacyParameters.ParamNode.Add | AprilTagTrackers/Parameters.h:108-113 | the node's parameters become the insertion of a leaf starting at its default |
| LegacyParameters.ParamNode.Get | AprilTagTrackers/Parameters.h:74-84 | there is a parameter exactly when the name is present, and it is that entry's |
| LegacyParameters.ParamNode.ValidateLeaf | AprilTagTrackers/Parameters.h:86-91 | only the named leaf changes, to its value passed through its validator |
| LegacyParameters.ParamNode.Read | AprilTagTrackers/Parameters.h:134-139 | the loop leaves the children as deserialising the node from the file gives |
| LegacyTracker.Tracker.constructor | AprilTagTrackers/AprilTagTrackers.cpp:74-78 | a new tracker has neither thread running and its trackers uncalibrated |
| LegacyTracker.Tracker.StartCamera | AprilTagTrackers/AprilTagTrackers.cpp:80-110 | a running camera is stopped with nothing shown or launched; otherwise the camera runs exactly when it opened, a failure shows the camera error and a success launches the camera loop; the main thread's flag is never touched |
| LegacyTracker.Tracker.StartCameraCalib | AprilTagTrackers/AprilTagTrackers.cpp:158-174 | a running calibration is stopped; otherwise it starts exactly when the camera runs, with no message when it does not |
| LegacyTracker.Tracker.StartTrackerCalib | AprilTagTrackers/AprilTagTrackers.cpp:269-296 | a running thread is stopped; otherwise the first failing readiness check (camera running, camera calibrated) is shown and tracker calibration launches exactly when none fails |
| LegacyTracker.Tracker.Start | AprilTagTrackers/AprilTagTrackers.cpp:298-340 | a running thread is stopped; otherwise the first failing of the four checks is shown, and detection launches exactly when the checks other than the driver connection pass |
| LegacyTracker.StartWithoutConnection | AprilTagTrackers/AprilTagTrackers.cpp:329-339 | with only the driver connection missing, the message shown is the connection error, and without it nothing would be shown |
| LegacyTracker.Zeros | AprilTagTrackers/AprilTagTrackers.cpp:539-542 | the window has `n` entries, all zero |
| LegacyTracker.InitialWindows | AprilTagTrackers/AprilTagTrackers.cpp:533-546 | one entry per tracker, each of six windows of `numOfPrevValues` zeros (none for a non-positive count) |
| LegacyTracker.Missed | AprilTagTrackers/AprilTagTrackers.cpp:628-637 | each of the six windows of a lost board drops its oldest value, an empty one staying empty |
| LegacyTracker.Found | AprilTagTrackers/AprilTagTrackers.cpp:640-658 | each value is appended to its window, the oldest dropped when the window outgrows `n`, and the value used is the upper median of the new window |
| LegacyTracker.FullWindowStaysFull | AprilTagTrackers/AprilTagTrackers.cpp:647-651 | a full window stays full after a found frame: it loses its oldest value and gains the new one last |
| LegacyTracker.Place | AprilTagTrackers/AprilTagTrackers.cpp:618-622 | the list grows to cover tracker `t` with copies of the centre, stores the centre at `t` and leaves every other old slot alone |
| LegacyTracker.UpdateMaskCenters | AprilTagTrackers/AprilTagTrackers.cpp:614-623 | the list after the loop is the detections placed one by one in order, each at its tracker `id / 45` |
| LegacyTracker.PlacedAllLength | AprilTagTrackers/AprilTagTrackers.cpp:614-623 | the list never shrinks, covers every detected tracker, and grows only as far as the largest detected tracker |
| LegacyTracker.PlacedAllLatest | AprilTagTrackers/AprilTagTrackers.cpp:614-623 | a detected tracker's slot holds the centre of its last detection in the frame |
| LegacyTracker.PlacedAllUntouched | AprilTagTrackers/AprilTagTrackers.cpp:614-623 | a tracker not detected in the frame keeps its old centre |
| LegacyTracker.Reverse | AprilTagTrackers/AprilTagTrackers.cpp:748-751 | the sequence read from the last element to the first |
| LegacyTracker.ReversedCorners | AprilTagTrackers/AprilTagTrackers.cpp:746-751 | the loop over `j` from 3 down to 0 collects the detection's corners in reverse order |
| LegacyTracker.DetectMarkersApriltag | AprilTagTrackers/AprilTagTrackers.cpp:717-756 | the three output lists are cleared and hold one entry per detection in the detector's order: its id, its centre, and its corners reversed |
| LogBatch.NewEntry | AprilTagTrackers/utils/LogBatch.hpp:21-26 | a new entry has an empty buffer, the "no previous value" hash and no pending repeat |
| LogBatch.AppendRepeat | AprilTagTrackers/utils/LogBatch.hpp:28-35 | a positive pending count is written as " x<n>" and cleared; otherwise the entry is unchanged; the timer and previous hash are kept |
| LogBatch.Record | AprilTagTrackers/utils/LogBatch.hpp:47-57 | the same hash as the previous value only adds one to the count; a new one flushes the pending count, appends a comma and the value, and becomes the previous hash |
| LogBatch.Step | AprilTagTrackers/utils/LogBatch.hpp:39-75 | a line is emitted exactly when the recorded buffer reaches 200 characters or the timer reaches 15 seconds, and then the entry starts over empty with its timer restarted now |
| LogBatch.EmittedLine | AprilTagTrackers/utils/LogBatch.hpp:68-70 | the emitted line is the name, ": ", every recorded value and the final pending count |
| LogBatch.RepeatKeepsBuffer | AprilTagTrackers/utils/LogBatch.hpp:48-51 | repeating the previous value changes only the count, and emits nothing |
| LogBatch.RepeatNonNegative | AprilTagTrackers/utils/LogBatch.hpp:26-74 | the pending count of an entry never goes negative |
| LogBatch.Batches.constructor | AprilTagTrackers/utils/LogBatch.hpp:41 | the map of entries starts empty |
| LogBatch.Batches.Log | AprilTagTrackers/utils/LogBatch.hpp:39-75 | only the named entry changes, created on first use, by one step, whose emitted line is returned; every other entry is kept |
| MainLoop.WindowStep | AprilTagTrackers/tracker/MainLoopRunner.hpp:54-66 | the first unit not seen last frame bumps the counter once; past 20 the window is a strip for this frame; whenever the window is a strip the counter restarts at 0; with no lost unit the counter is kept, or reset when the configuration asks for strips |
| MainLoop.LostFramesCount | AprilTagTrackers/tracker/MainLoopRunner.hpp:57-66 | from a count of `c`, each of the next `20 - c` frames with a lost unit keeps the circular window and counts one more |
| MainLoop.LostUnitGetsFullSearch | AprilTagTrackers/tracker/MainLoopRunner.hpp:62-66 | the frame after that searches a strip and restarts the count, so a unit lost for good gets a strip search every 21 frames |
| MainLoop.DriverInCameraRoundTrip | AprilTagTrackers/tracker/MainLoopRunner.hpp:81-84 | a pose moved into the room and back out by the inverse playspace transform is the camera pose it started from |
| MainLoop.MaskCenter | AprilTagTrackers/tracker/MainLoopRunner.hpp:99-121 | a unit seen last frame is searched where the camera saw it, one only the driver tracks where the driver puts it, and one neither saw at the point (0, 0) |
| MainLoop.MaskRules | AprilTagTrackers/tracker/MainLoopRunner.hpp:98-142 | masking records whether the driver saw the unit and its driver pose; a unit is marked visible only when its mask centre is inside the image and it was seen by the driver or the camera, and always when the driver saw it with the centre inside |
| MainLoop.ShapeAt | AprilTagTrackers/tracker/MainLoopRunner.hpp:126-137 | a circular window masks a disc of the search radius around the centre; otherwise a strip `2 * radius` wide around the centre's truncated column |
| MainLoop.ShapesEmpty | AprilTagTrackers/tracker/MainLoopRunner.hpp:123-150 | at most one mask per unit, and no mask at all (the whole frame searched) exactly when no unit's centre is inside the image |
| MainLoop.MaskedAll | AprilTagTrackers/tracker/MainLoopRunner.hpp:78-143 | the first `trackerNum` units are masked from their driver samples and the others keep their state |
| MainLoop.MaskUnit | AprilTagTrackers/tracker/MainLoopRunner.hpp:80-142 | the unit's new state is its masked state; its mask is the shape around its centre when that lies inside the image and none otherwise; its markers, ids and role are kept |
| MainLoop.MaskUnits | AprilTagTrackers/tracker/MainLoopRunner.hpp:78-143 | after the first loop the units' states are all masked and the masks are those of the units whose centres lie inside the image, in order |
| MainLoop.BlendWeight | AprilTagTrackers/tracker/MainLoopRunner.hpp:192-194 | the estimate's weight lies in [0.1, 1], and is 1 when the depth error is at least 0.9 times the smoothing |
| MainLoop.BlendedDistanceBetween | AprilTagTrackers/tracker/MainLoopRunner.hpp:196 | the blended depth lies between the estimate's and the driver's, and is the estimate's when its weight is 1 or they agree |
| MainLoop.BlendAtAgreement | AprilTagTrackers/tracker/MainLoopRunner.hpp:185-199 | when the driver's depth equals the estimate's, smoothing leaves the position as it was |
| MainLoop.BlendKeepsSide | AprilTagTrackers/tracker/MainLoopRunner.hpp:185-199 | smoothing moves the estimate along its ray: it is behind the camera exactly when the estimate was |
| MainLoop.OnAxisInView | AprilTagTrackers/tracker/MainLoopRunner.hpp:212-235 | a point on the camera's axis is never rejected as out of view |
| MainLoop.VerdictRules | AprilTagTrackers/tracker/MainLoopRunner.hpp:172-248 | no estimate means not estimated; an estimate behind the camera is rejected; an estimate is used exactly when in front and in view, and then goes to multicam calibration exactly when that is on and the driver saw the unit, and is sent otherwise |
| MainLoop.DetectedPositionSide | AprilTagTrackers/tracker/MainLoopRunner.hpp:161-206 | the position checked is behind the camera exactly when the raw estimate scaled by the playspace is |
| MainLoop.CheckEstimate | AprilTagTrackers/tracker/MainLoopRunner.hpp:159-245 | the unit keeps its driver part, markers, ids and role; its pose becomes the scaled and smoothed estimate, visible exactly when it is used; the pose sent, if any, is that pose moved into the room, with the frame's time offset and the configured smoothing factor |
| MainLoop.SendIndicesExact | AprilTagTrackers/tracker/MainLoopRunner.hpp:157-249 | exactly the units that qualify are sent, each once, in increasing index order |
| MainLoop.DetectStep | AprilTagTrackers/tracker/MainLoopRunner.hpp:157-249 | one unit detected and its pose, if any, appended keeps the second loop's invariant |
| MainLoop.Detect | AprilTagTrackers/tracker/MainLoopRunner.hpp:159-248 | only the unit at `index` changes, by the detection rules; it is sent exactly when it qualifies, under its index and, without multicam calibration, with its pose moved into the room by the fixed playspace, which then is untouched; a pose sent carries the frame's time offset and the configured smoothing factor |
| MainLoop.DetectAll | AprilTagTrackers/tracker/MainLoopRunner.hpp:157-249 | every unit is detected by the rules, the sent poses are those of the qualifying units in index order, each with the frame's time offset and the configured smoothing factor, and without multicam calibration neither the playspace nor the calibration form changes |
| MainLoop.MainLoopRunner.constructor | AprilTagTrackers/tracker/MainLoopRunner.hpp:21-36 | the playspace is set from the stored manual calibration and the station pose it implies is sent to the driver |
| MainLoop.MainLoopRunner.UpdateSearchWindow | AprilTagTrackers/tracker/MainLoopRunner.hpp:54-66 | the counter and window follow one window step from the old counter, the units' visibility and the configured window |
| MainLoop.MainLoopRunner.MaskFrame | AprilTagTrackers/tracker/MainLoopRunner.hpp:54-143 | the window steps once and every unit with a driver sample is masked, the masks being those of its first loop |
| MainLoop.MainLoopRunner.Calibrate | AprilTagTrackers/tracker/MainLoopRunner.hpp:152 | while manual calibration is enabled the playspace is reset from the stored calibration and its station pose sent; otherwise neither changes |
| MainLoop.MainLoopRunner.Update | AprilTagTrackers/tracker/MainLoopRunner.hpp:38-249 | one frame: the masks come from the state at the start of the frame, the calibrator runs between the loops, and the second loop detects every unit and sends the qualifying poses moved into the room by the playspace as the frame ends, each with the time offset `-frameTimeAfterDetect - latency` (the frame's age after detection and the stream's latency, both inputs) and the configured smoothing factor |
| ManualCalib.ScaleRule | AprilTagTrackers/config/ManualCalib.hpp:51 | the stored scale is always clamped into [80, 120] |
| ManualCalib.AsReal | AprilTagTrackers/config/ManualCalib.hpp:31-37 | centimetres become metres and degrees radians; a valid percentage becomes a multiplier in [0.8, 1.2] |
| ManualCalib.FromReal | AprilTagTrackers/config/ManualCalib.hpp:38-43 | metres become centimetres and radians degrees; the scale passes its clamp, so the result is always valid, and an in-range multiplier is stored as its percentage |
| ManualCalib.FromRealAsReal | AprilTagTrackers/config/ManualCalib.hpp:31-43 | storing the real form of a valid calibration gives the same calibration back |
| ManualCalib.AsRealFromReal | AprilTagTrackers/config/ManualCalib.hpp:31-43 | a real form whose scale is in range survives being stored and read back |
| ManualCalib.ManualCalib.constructor | AprilTagTrackers/config/ManualCalib.hpp:47-51 | both offsets start at zero and the scale at 100 percent |
| ManualCalib.ManualCalib.GetAsReal | AprilTagTrackers/config/ManualCalib.hpp:31-37 | returns the real form of the stored fields |
| ManualCalib.ManualCalib.SetFromReal | AprilTagTrackers/config/ManualCalib.hpp:38-43 | the stored fields become the stored form of the real one, which is valid |
| ManualCalib.ManualCalib.AssignScale | AprilTagTrackers/config/ManualCalib.hpp:51 | assigning the scale stores it clamped and leaves the offsets alone |
| ManualCalib.SetFromOwnReal | AprilTagTrackers/config/ManualCalib.hpp:31-43 | writing back a calibration's own real form leaves it unchanged |
| MarkerHelpers.ApplyScale | AprilTagTrackers/Helpers.cpp:71-73 | applying a matrix commutes with scaling a vector |
| MarkerHelpers.MapInv | AprilTagTrackers/Helpers.cpp:73 | a rigid transform undoes its inverse |
| MarkerHelpers.TransformMarkerSpace | AprilTagTrackers/Helpers.cpp:10-81 | one output corner per model corner, each placed by the marker's pose and then by the inverse of the board's pose |
| MarkerHelpers.TransformMarkerSpaceRoundTrip | AprilTagTrackers/Helpers.cpp:70-77 | placed back by the board's pose, a transformed corner is where the marker's pose puts the model corner |
| MarkerHelpers.Column | AprilTagTrackers/Helpers.cpp:92-97 | one coordinate of corner `j` of every marker, in the markers' order |
| MarkerHelpers.Gather | AprilTagTrackers/Helpers.cpp:88-97 | the inner loop fills the three coordinate lists with the columns of corner `j` |
| MarkerHelpers.GetMedianMarker | AprilTagTrackers/Helpers.cpp:83-104 | one point per corner of the first marker, each coordinate the element at `n / 2` of that corner's sorted coordinates over the `n` markers |
| MarkerHelpers.MedianPoint | AprilTagTrackers/Helpers.cpp:86-103 | one pass of the outer loop yields the median corner `j` |
| MarkerHelpers.MedianCornerInBox | AprilTagTrackers/Helpers.cpp:98-102 | the median corner lies in every box holding all observations of that corner |
| MarkerHelpers.MedianCornerAgreement | AprilTagTrackers/Helpers.cpp:98-102 | when every marker saw the corner at the same point, the median corner is that point |
| MarkerHelpers.AxisAngleUnit | AprilTagTrackers/Helpers.cpp:111-120 | the quaternion built from the normalised axis and a sine and cosine with `s² + c² = 1` has norm one |
| MarkerHelpers.AxisAngleAlong | AprilTagTrackers/Helpers.cpp:115-117 | its vector part is parallel to the rotation vector |
| MarkerHelpers.Rodr2QuatUnit | AprilTagTrackers/Helpers.cpp:106-123 | `rodr2quat` of a non-zero rotation vector is a unit quaternion |
| MarkerHelpers.Rodr2QuatAxis | AprilTagTrackers/Helpers.cpp:106-123 | the vector part of `rodr2quat` points along the rotation vector |
| Median.InsertSorted | AprilTagTrackers/AprilTagTrackers.cpp:654 | inserting into a sorted window keeps it sorted and adds exactly the value |
| Median.SortSorted | AprilTagTrackers/AprilTagTrackers.cpp:654 | the sort's result is sorted and a permutation of its input |
| Median.SortedRank | AprilTagTrackers/AprilTagTrackers.cpp:656 | in any sorted permutation, index `size / 2` holds one of the values, with nothing larger before it and nothing smaller after it |
| Median.UpperMedianRank | AprilTagTrackers/AprilTagTrackers.cpp:653-656 | the median is one of the window's values and splits the sorted window at `size / 2` |
| Median.UpperMedianBetween | AprilTagTrackers/AprilTagTrackers.cpp:653-656 | the median lies between any lower and upper bound of the window |
| Median.SortedUnique | AprilTagTrackers/AprilTagTrackers.cpp:654 | two sorted sequences with the same elements are equal, so the sort has one result |
| Median.UpperMedianOrderFree | AprilTagTrackers/AprilTagTrackers.cpp:653-656 | the median does not depend on the order of the window |
| Median.UpperMedianConstant | AprilTagTrackers/AprilTagTrackers.cpp:653-656 | a window of one repeated value has that value as its median |
| MessageQueue.MessageQueue.constructor | AprilTagTrackers/event/MessageQueue.hpp:16 | both queues start empty |
| MessageQueue.MessageQueue.Enqueue | AprilTagTrackers/event/MessageQueue.hpp:29-33 | the message goes to the end of the write queue |
| MessageQueue.MessageQueue.Process | AprilTagTrackers/event/MessageQueue.hpp:37-50 | the handler runs once per pending message in enqueue order, nothing runs for an empty queue, and both queues end empty |
| MessageQueue.EnqueueTwiceThenProcess | AprilTagTrackers/event/MessageQueue.hpp:18-50 | two messages enqueued in turn are handled in that order, and the queue may then be destroyed |
| Parameter.WithoutDefault | AprilTagTrackers/Parameter.h:35-36 | the value is value-initialised, there is no default, and the validator is kept |
| Parameter.WithDefault | AprilTagTrackers/Parameter.h:37-38 | the value starts at the default, which is recorded, and the validator is kept |
| Parameter.Validate | AprilTagTrackers/Parameter.h:48-51 | the validator is applied to the value when there is one, and nothing changes otherwise |
| Parameter.Deserialize | AprilTagTrackers/Parameter.h:56-67 | a present node is read and then validated; an absent one restores the default when there is one and otherwise changes nothing; the default and validator are never touched |
| Parameter.DeserializeWritten | AprilTagTrackers/Parameter.h:52-67 | reading back what a parameter wrote leaves it unchanged when its validator keeps its value |
| Parameter.DeserializeIdempotent | AprilTagTrackers/Parameter.h:52-67 | writing out a value just read and reading it again changes nothing, for validators that keep their own results |
| Parameter.DeserializeAll | AprilTagTrackers/Parameter.h:129-135 | every parameter of the node, and no other name, is read from the file entry of its own name, absent when the file has none |
| Parameter.ParamNode.constructor | AprilTagTrackers/Parameter.h:157 | a node starts with no parameters |
| Parameter.ParamNode.Add | AprilTagTrackers/Parameter.h:139-144 | an unused name gets a parameter without default and with the given validator |
| Parameter.ParamNode.AddWithDefault | AprilTagTrackers/Parameter.h:146-151 | an unused name gets a parameter starting at its default |
| Parameter.ParamNode.Get | AprilTagTrackers/Parameter.h:92-97 | returns the value of the registered parameter of that name |
| Parameter.ParamNode.SetRef | AprilTagTrackers/Parameter.h:84-89 | assigning through the reference changes only that parameter's value, which then reads back |
| Parameter.ParamNode.ValidateOne | AprilTagTrackers/Parameter.h:99-103 | only the named parameter changes, by its validator |
| Parameter.ParamNode.Serialize | AprilTagTrackers/Parameter.h:119-128 | the file holds exactly the node's names, each with its parameter's value |
| Parameter.ParamNode.ReadFrom | AprilTagTrackers/Parameter.h:129-135 | every registered parameter reads the file entry of its name, once |
| Parameter.RoundTrip | AprilTagTrackers/Parameter.h:119-135 | reading a node back from what it wrote leaves it unchanged when every validator keeps its parameter's value |
| Parameter.EmptyFileRestoresDefaults | AprilTagTrackers/Parameter.h:58-66 | an empty file resets every parameter with a default and keeps the rest |
| Parameter.AddThenLoad | AprilTagTrackers/Parameter.h:129-150 | a parameter registered and then read from a file holding its name ends with the validated entry |
| ParametersFile.FieldOrder | AprilTagTrackers/Parameters.cpp:179-225 | the 47 plain fields in the order the file lists them |
| ParametersFile.ArucoOrder | AprilTagTrackers/Parameters.cpp:149-177 | the 29 detector parameters in the order the file lists them |
| ParametersFile.Lookup | AprilTagTrackers/Parameters.cpp:22 | a found entry is one of the map's entries with that name; nothing is found exactly when no entry has the name |
| ParametersFile.LookupUniform | AprilTagTrackers/Parameters.cpp:22-25 | when every entry with the name holds the same value, looking the name up finds it |
| ParametersFile.Children | AprilTagTrackers/Parameters.cpp:113-131 | iterating a map visits its values in file order, and a sequence its items |
| ParametersFile.Normalize | AprilTagTrackers/Parameters.cpp:16-18 | a non-positive `markersPerTracker` becomes 45, a `trackerCalibDistance` below 0.5 becomes 0.5 and a `cameraCalibSamples` below 15 becomes 15; values within the rules are kept, and every result obeys them |
| ParametersFile.ReadField | AprilTagTrackers/Parameters.cpp:56-107 | a field is read from the file entry of its name, or takes its type's empty value when absent, and then passes its rule |
| ParametersFile.ReadFields | AprilTagTrackers/Parameters.cpp:56-107 | the fields afterwards are the old ones together with the listed ones |
| ParametersFile.ReadFieldsLookup | AprilTagTrackers/Parameters.cpp:56-107 | every listed field is read from the file and every other field is kept |
| ParametersFile.ReadAruco | AprilTagTrackers/Parameters.cpp:25-54 | the parameters afterwards are the old ones together with the listed ones |
| ParametersFile.ReadArucoLookup | AprilTagTrackers/Parameters.cpp:25-54 | a listed parameter present in the node is read from it, an absent one becomes its zero, and an unlisted one is kept |
| ParametersFile.ArucoBase | AprilTagTrackers/Parameters.cpp:19-21 | the library defaults, with inverted markers detected and corner refinement method 2 |
| ParametersFile.ReadRotation | AprilTagTrackers/Parameters.cpp:87-109 | a non-empty stored matrix gives the rotation as its first four entries (w, x, y, z); otherwise the rotation held is kept |
| ParametersFile.BoardOf | AprilTagTrackers/Parameters.cpp:116-133 | a board takes the ids under `trackerIds`, none when absent, and one corner list per child of `trackerCorners`, none when absent |
| ParametersFile.ReadBoards | AprilTagTrackers/Parameters.cpp:110-136 | one board per child of `trackers`, in file order, and none without that node |
| ParametersFile.KnownKeys | AprilTagTrackers/Parameters.cpp:14-107 | the names that `Load` tests and normalises are among the listed fields and detector parameters |
| ParametersFile.LoadAruco | AprilTagTrackers/Parameters.cpp:19-55 | without `arucoParams` the detector parameters are the base set; with it, exactly the defaults and the listed names |
| ParametersFile.LoadState | AprilTagTrackers/Parameters.cpp:10-141 | a file without `cameraAddr` changes nothing but possibly the language; otherwise the fields, detector parameters and rotation are read, the read boards are appended to those held, and the Chinese table is chosen when `languageSelection` is 1 and otherwise kept |
| ParametersFile.LoadAppliesRules | AprilTagTrackers/Parameters.cpp:16-98 | after a load from a file with `cameraAddr`, the three normalised fields obey their rules |
| ParametersFile.CornerEntries | AprilTagTrackers/Parameters.cpp:236-240 | one `trackerCorners_<j>` entry per corner list, in order |
| ParametersFile.BoardRoundTrip | AprilTagTrackers/Parameters.cpp:116-133 | reading a written board gives it back |
| ParametersFile.TrackerEntries | AprilTagTrackers/Parameters.cpp:226-244 | one `tracker_<i>` entry per board, in order |
| ParametersFile.ArucoEntries | AprilTagTrackers/Parameters.cpp:147-178 | one entry per detector parameter, under its name and in file order |
| ParametersFile.SaveFile | AprilTagTrackers/Parameters.cpp:143-244 | the file holds exactly the plain fields, `arucoParams`, `wrotation` and `trackers`, each with what the object holds, the rotation as a 4x1 matrix |
| ParametersFile.PlainKeys | AprilTagTrackers/Parameters.cpp:179-225 | the names of exactly the plain fields |
| ParametersFile.EntriesUniform | AprilTagTrackers/Parameters.cpp:147-178 | the saved detector entries hold one value per name |
| ParametersFile.ArucoRoundTripOver | AprilTagTrackers/Parameters.cpp:19-54 | reading saved detector entries over defaults with the same names gives the parameters back |
| ParametersFile.ArucoRoundTripAt | AprilTagTrackers/Parameters.cpp:25-54 | each listed parameter reads back from the saved entries |
| ParametersFile.FieldsRoundTripOver | AprilTagTrackers/Parameters.cpp:56-107 | fields the file holds under their own names and within their rules read back unchanged |
| ParametersFile.BoardsRoundTrip | AprilTagTrackers/Parameters.cpp:110-136 | reading the saved boards gives them back |
| ParametersFile.SaveLoadFields | AprilTagTrackers/Parameters.cpp:56-107 | the saved plain fields read back over fields with the same names |
| ParametersFile.SaveLoadAruco | AprilTagTrackers/Parameters.cpp:19-55 | the saved detector parameters read back over defaults with the same names |
| ParametersFile.SaveLoadRotation | AprilTagTrackers/Parameters.cpp:108-109 | the saved rotation matrix is readable and reads back as the rotation |
| ParametersFile.SaveLoadRoundTrip | AprilTagTrackers/Parameters.cpp:10-249 | loading what was saved into an object with the same fields and no boards restores its state |
| ParametersFile.InitialState | AprilTagTrackers/Parameter.h:185-244 | a new object holds every listed field at its initial value, the library's detector defaults, no boards and the default language |
| ParametersFile.ReadArucoNode | AprilTagTrackers/Parameters.cpp:25-54 | the loop over `arucoParams` reads every listed parameter from the node |
| ParametersFile.ReadFieldsInOrder | AprilTagTrackers/Parameters.cpp:56-107 | the plain field reads, in order, read every listed field |
| ParametersFile.ReadBoard | AprilTagTrackers/Parameters.cpp:116-133 | one board's loop reads its ids and pushes each corner child in order |
| ParametersFile.ReadTrackers | AprilTagTrackers/Parameters.cpp:110-136 | the loop over `trackers` pushes each read board after the ones held |
| ParametersFile.WriteAruco | AprilTagTrackers/Parameters.cpp:147-178 | the `arucoParams` block written holds the detector entries |
| ParametersFile.WriteBoard | AprilTagTrackers/Parameters.cpp:230-242 | one `tracker_<i>` block holds the board's ids and corner entries |
| ParametersFile.WriteTrackers | AprilTagTrackers/Parameters.cpp:226-244 | the `trackers` block holds one entry per board |
| ParametersFile.Parameters.constructor | AprilTagTrackers/Parameters.cpp:5-8 | a new object is the initial state loaded from the file |
| ParametersFile.Parameters.Load | AprilTagTrackers/Parameters.cpp:10-141 | the object's state becomes the load of its old state from the file |
| ParametersFile.Parameters.ReadFile | AprilTagTrackers/Parameters.cpp:15-136 | the fields, detector parameters and rotation are read, the boards appended, and the language left alone |
| ParametersFile.Parameters.Save | AprilTagTrackers/Parameters.cpp:143-249 | the file written is the save of the state, and the Chinese table is then chosen exactly when `languageSelection` is 1 |
| ParametersFile.ConstructedLanguage | AprilTagTrackers/Parameters.cpp:139-140 | after construction the Chinese table is chosen exactly when `languageSelection` is 1 |
| ParametersFile.LoadWithoutAddress | AprilTagTrackers/Parameters.cpp:14 | a file without `cameraAddr` leaves every member but the language alone |
| Playspace.FlipVec | AprilTagTrackers/Helpers.hpp:131-138 | a position into the OpenVR frame is the same flip as on a plain vector: x and z negated |
| Playspace.FlipPoseInvolution | AprilTagTrackers/Helpers.hpp:131-144 | flipping a pose into the OpenVR frame twice gives it back |
| Playspace.TransposeUndoes | AprilTagTrackers/tracker/PlayspaceCalib.hpp:22 | for an orthonormal matrix the transpose undoes it, which is what the inverse transform relies on |
| Playspace.ApplyAdd | AprilTagTrackers/tracker/PlayspaceCalib.hpp:20 | a matrix distributes over a sum of vectors |
| Playspace.InvMap | AprilTagTrackers/tracker/PlayspaceCalib.hpp:22 | the inverse of a rigid transform undoes it |
| Playspace.InverseMulLeft | AprilTagTrackers/tracker/PlayspaceCalib.hpp:23 | multiplying by the inverse of a unit quaternion undoes multiplying by it |
| Playspace.PlayspaceCalib.constructor | AprilTagTrackers/tracker/PlayspaceCalib.hpp:66-71 | identity transforms, zero quaternions and a zero scale until the first `Set` |
| Playspace.PlayspaceCalib.Set | AprilTagTrackers/tracker/PlayspaceCalib.hpp:17-25 | the transform is the rotation of the Euler angles and the offset, the rotation its normalised quaternion, the inverses are stored and the scale is kept |
| Playspace.PlayspaceCalib.SetCalib | AprilTagTrackers/tracker/PlayspaceCalib.hpp:26-29 | setting from a real calibration is `Set` of its offsets and scale |
| Playspace.PlayspaceCalib.TransformPoint | AprilTagTrackers/tracker/PlayspaceCalib.hpp:40 | a point is transformed as the position of a pose is |
| Playspace.PlayspaceCalib.GetStationPose | AprilTagTrackers/tracker/PlayspaceCalib.hpp:56 | the station sits at the transform's image of the origin, turned by the rotation |
| Playspace.PlayspaceCalib.GetStationPoseOVR | AprilTagTrackers/tracker/PlayspaceCalib.hpp:57-63 | the station pose in the OpenVR frame flips back to the station pose |
| Playspace.InvTransformTransform | AprilTagTrackers/tracker/PlayspaceCalib.hpp:32-39 | once set, the inverse transform undoes the transform |
| Playspace.InvTransformFromOVRRoundTrip | AprilTagTrackers/tracker/PlayspaceCalib.hpp:42-54 | a pose sent into the OpenVR frame and brought back from it is unchanged |
| PlayspaceCalibrator.ScaleFor | AprilTagTrackers/tracker/PlayspaceCalib.hpp:176 | the new scale times the distance recorded at the grab is the controller's current distance |
| PlayspaceCalibrator.FollowPos | AprilTagTrackers/tracker/PlayspaceCalib.hpp:150-164 | following the controller moves only the position offset, and not its height when the height is locked |
| PlayspaceCalibrator.FollowAngle | AprilTagTrackers/tracker/PlayspaceCalib.hpp:166-178 | following the controller turns the yaw; the pitch and scale follow only when the height is not locked; the position and roll are kept |
| PlayspaceCalibrator.ClampPitch | AprilTagTrackers/tracker/PlayspaceCalib.hpp:181 | the pitch is clamped into [91°, 269°], leaving everything else, and a pitch already in range, alone |
| PlayspaceCalibrator.AdjustedPitchInRange | AprilTagTrackers/tracker/PlayspaceCalib.hpp:150-181 | whatever the grabs do, the adjusted pitch is in [91°, 269°] |
| PlayspaceCalibrator.LockHeightKeeps | AprilTagTrackers/tracker/PlayspaceCalib.hpp:157-181 | with the height locked, the height and scale stay and the pitch changes only by the clamp |
| PlayspaceCalibrator.InactiveOnlyClamps | AprilTagTrackers/tracker/PlayspaceCalib.hpp:150-181 | with neither grab active only the pitch clamp applies |
| PlayspaceCalibrator.PosGrabKeepsCamera | AprilTagTrackers/tracker/PlayspaceCalib.hpp:108-164 | following the controller from where the position was grabbed puts the camera back where it was |
| PlayspaceCalibrator.AngleGrabKeepsCamera | AprilTagTrackers/tracker/PlayspaceCalib.hpp:129-178 | following the controller from where the angle was grabbed leaves the calibration as it was |
| PlayspaceCalibrator.Calibrator.constructor | AprilTagTrackers/tracker/PlayspaceCalib.hpp:245-252 | neither grab active, both offsets zero and the timer started now |
| PlayspaceCalibrator.Calibrator.Press | AprilTagTrackers/tracker/PlayspaceCalib.hpp:103-148 | a press of a grab button after the 200 ms debounce toggles that grab, and a grab that starts records its offset from the calibration shown |
| PlayspaceCalibrator.Calibrator.Follow | AprilTagTrackers/tracker/PlayspaceCalib.hpp:150-181 | the calibration after the follow step is the adjusted one; grabs and offsets are kept |
| PlayspaceCalibrator.Calibrator.Update | AprilTagTrackers/tracker/PlayspaceCalib.hpp:77-191 | disabled, only the timer restarts; enabled, a minute without a press hides manual calibration, a press restarts the timer and toggles its grab after the debounce, the adjusted calibration is stored while a grab is active, and the playspace is set from what is stored and its station pose sent |
| PlayspaceCalibrator.LimitStep | AprilTagTrackers/tracker/PlayspaceCalib.hpp:226-233 | a y or z step larger than 0.1 in either direction becomes 0.1 in that direction; a smaller one is kept |
| PlayspaceCalibrator.LimitStepX | AprilTagTrackers/tracker/PlayspaceCalib.hpp:222-225 | the x step as written: any step above 0.01 becomes a full 0.1 with its sign, a smaller one is kept |
| PlayspaceCalibrator.LimitStepXOvershoots | AprilTagTrackers/tracker/PlayspaceCalib.hpp:222-233 | a 5 cm error moves y or z by 5 mm but x by the full 10 cm, twice the error |
| PlayspaceCalibrator.RefinedScale | AprilTagTrackers/tracker/PlayspaceCalib.hpp:239 | when the driver's distance equals the estimate's the scale is kept |
| PlayspaceCalibrator.PositionStep | AprilTagTrackers/tracker/PlayspaceCalib.hpp:218-233 | each step is at most 0.1, y and z at most a tenth of their error, and zero when estimate and driver agree |
| PlayspaceCalibrator.PositionStepCorrected | AprilTagTrackers/tracker/PlayspaceCalib.hpp:218-233 | with x limited like y and z, no coordinate moves further than a tenth of its error or than 0.1 |
| PlayspaceCalibrator.PositionStepDiffersInX | AprilTagTrackers/tracker/PlayspaceCalib.hpp:222 | the written and corrected steps agree in y and z, and differ in x exactly when the x step lies strictly between 0.01 and 0.1 |
| PlayspaceCalibrator.AngleStep | AprilTagTrackers/tracker/PlayspaceCalib.hpp:238 | a tenth of the pitch and yaw error, no roll step, and zero when the angles agree |
| PlayspaceCalibrator.Refined | AprilTagTrackers/tracker/PlayspaceCalib.hpp:204-239 | one refinement step moves each position coordinate by at most 0.1 and never the roll |
| PlayspaceCalibrator.Nudge | AprilTagTrackers/tracker/PlayspaceCalib.hpp:237-239 | the calibration moves by exactly the given position and angle steps |
| PlayspaceCalibrator.NudgeNothing | AprilTagTrackers/tracker/PlayspaceCalib.hpp:237-239 | zero steps and the same scale leave the calibration as it is |
| PlayspaceCalibrator.NudgeAtAgreement | AprilTagTrackers/tracker/PlayspaceCalib.hpp:218-239 | equal estimates give zero steps and keep the scale |
| PlayspaceCalibrator.RefinedAtAgreement | AprilTagTrackers/tracker/PlayspaceCalib.hpp:204-239 | when the estimate agrees with the driver, refinement changes nothing |
| PlayspaceCalibrator.UpdateMulticam | AprilTagTrackers/tracker/PlayspaceCalib.hpp:193-243 | the stored calibration becomes the refined one, and the playspace is set from the refined calibration before it is clamped |
| Ps3EyeCamera.GainRegisterEncoding | AprilTagTrackers/ps3eyed/ps3eye.h:87-107 | the gain register keeps the gain's low nibble, its high nibble is a run of ones as long as the two-bit gain range, and bits 6-7 of the gain are ignored |
| Ps3EyeCamera.GainRegisterMonotone | AprilTagTrackers/ps3eyed/ps3eye.h:87-107 | over gains 0 to 63 a larger gain always writes a larger register value |
| Ps3EyeCamera.ExposureRoundTrip | AprilTagTrackers/ps3eyed/ps3eye.h:109-113 | the two exposure registers together hold every bit of the exposure |
| Ps3EyeCamera.FlipRegisterRoundTrip | AprilTagTrackers/ps3eyed/ps3eye.h:152-160 | the flip register keeps bits 0-5 of what it held, and bits 6 and 7 are clear exactly when the horizontal and vertical flips are on |
| Ps3EyeCamera.RateTable | AprilTagTrackers/ps3eyed/ps3eye.cpp:1227-1233 | the rate table is chosen by the frame width alone and is never empty |
| Ps3EyeCamera.TablesDecreasing | AprilTagTrackers/ps3eyed/ps3eye.cpp:1186-1225 | both rate tables list strictly decreasing frame rates |
| Ps3EyeCamera.RateIndexFirst | AprilTagTrackers/ps3eyed/ps3eye.cpp:1234-1238 | every entry the search passes is faster than the request, and it stops at one that is not, or at the last entry |
| Ps3EyeCamera.RateIndexBest | AprilTagTrackers/ps3eyed/ps3eye.cpp:1234-1238 | in a decreasing table the search finds the fastest rate not above the request, or the slowest when every rate is above it |
| Ps3EyeCamera.ChosenRateIsBest | AprilTagTrackers/ps3eyed/ps3eye.cpp:1176-1248 | the rate chosen is the fastest supported one not above the request, and the slowest when the request is below every rate |
| Ps3EyeCamera.RateIndexOfEntry | AprilTagTrackers/ps3eyed/ps3eye.cpp:1234-1238 | requesting a supported rate finds that entry |
| Ps3EyeCamera.ChosenRateIdempotent | AprilTagTrackers/ps3eyed/ps3eye.cpp:1176-1248 | choosing again from a chosen rate changes nothing |
| Ps3EyeCamera.SearchRate | AprilTagTrackers/ps3eyed/ps3eye.cpp:1227-1238 | the loop with its pre-decremented counter stops at the entry the search specifies |
| Ps3EyeCamera.StatusOutcomeMeaning | AprilTagTrackers/ps3eyed/ps3eye.cpp:1289-1304 | success exactly when some read within five returns 0x00 before any read returns 0x00 or 0x04 |
| Ps3EyeCamera.SccbCheckStatus | AprilTagTrackers/ps3eyed/ps3eye.cpp:1284-1305 | the loop's result is the outcome of the status reads |
| Ps3EyeCamera.OutputBytesPerPixel | AprilTagTrackers/ps3eyed/ps3eye.cpp:1100-1111 | one byte per pixel in Bayer format, three otherwise, never zero |
| Ps3EyeCamera.AutomaticWritesApply | AprilTagTrackers/ps3eyed/ps3eye.h:64-107 | the automatic gain, white balance and gain setters leave their controls in the sensor whatever it held, and write no other register |
| Ps3EyeCamera.PictureWritesApply | AprilTagTrackers/ps3eyed/ps3eye.h:109-134 | the hue, exposure, brightness, contrast and sharpness setters leave their controls in the sensor and write no other register |
| Ps3EyeCamera.PictureWritesKeep | AprilTagTrackers/ps3eyed/ps3eye.h:109-134 | the picture setters keep the automatic controls in the sensor |
| Ps3EyeCamera.BalanceAndFlipWritesApply | AprilTagTrackers/ps3eyed/ps3eye.h:136-160 | the balance and flip setters leave their controls in the sensor and write no other register |
| Ps3EyeCamera.BalanceAndFlipWritesKeep | AprilTagTrackers/ps3eyed/ps3eye.h:136-160 | the balance and flip setters keep the automatic and picture controls in the sensor |
| Ps3EyeCamera.ControlWritesApply | AprilTagTrackers/ps3eyed/ps3eye.cpp:1020-1031 | writing the stored controls leaves every control in the sensor, whatever it held, and touches no other register |
| Ps3EyeCamera.Camera.constructor | AprilTagTrackers/ps3eyed/ps3eye.cpp:898-924 | the default controls, not streaming, and no handle or buffer yet; the sensor starts at the values a reset gives it |
| Ps3EyeCamera.Camera.RowBytes | AprilTagTrackers/ps3eyed/ps3eye.h:207 | a row holds one byte per pixel in Bayer format and three otherwise |
| Ps3EyeCamera.Camera.SensorWrite | AprilTagTrackers/ps3eyed/ps3eye.cpp:1307-1317 | writing a sensor register changes that register only |
| Ps3EyeCamera.Camera.SetFrameRateRegisters | AprilTagTrackers/ps3eyed/ps3eye.cpp:1176-1248 | returns the chosen rate; a dry run writes nothing, otherwise the two sensor rate registers and the bridge rate register get the entry's values |
| Ps3EyeCamera.Camera.Init | AprilTagTrackers/ps3eyed/ps3eye.cpp:938-1005 | succeeds exactly when a handle was there or the device opens; on success the mode is valid, VGA exactly when the size asks for it, a buffer is allocated, the sensor is reset and holds the init table's bytes over its reset values whatever it held before, the bridge holds the table's frame-rate byte and the stream byte 0x09, and the rate registers form the VGA table's 60 fps entry rather than the stored rate's; on failure the mode, the sensor and the bridge are unchanged, and a device that opened but failed to claim keeps its handle |
| Ps3EyeCamera.Camera.SetMode | AprilTagTrackers/ps3eyed/ps3eye.cpp:951-965 | the buffer is allocated, the mode is 640x480 exactly when the size is zero or above 320x240 and 320x240 otherwise, and the rate is validated by a dry run that leaves the sensor and the bridge as they were |
| Ps3EyeCamera.Camera.SendInitData | AprilTagTrackers/ps3eyed/ps3eye.cpp:967-1002 | after the bridge and sensor resets and both tables, the sensor holds the table's bytes over its reset values, and of the followed bridge registers only the frame-rate byte (0x04) and the stream byte (0x09) change |
| Ps3EyeCamera.Camera.SendSensorInitData | AprilTagTrackers/ps3eyed/ps3eye.cpp:151-190 | the table starts with a reset, so afterwards every register it does not write holds its reset value, and the rate, automatic-control, white-balance, flip and QVGA de-noise registers hold the table's last byte for them |
| Ps3EyeCamera.Camera.WriteSettings | AprilTagTrackers/ps3eyed/ps3eye.cpp:1018-1031 | the rate registers of the stored rate and every stored control are written again, the controls themselves unchanged |
| Ps3EyeCamera.Camera.ApplyControls | AprilTagTrackers/ps3eyed/ps3eye.cpp:1020-1031 | every stored control is in the sensor afterwards and no other register changes |
| Ps3EyeCamera.Camera.ApplyAutomatic | AprilTagTrackers/ps3eyed/ps3eye.h:64-107 | the automatic setters write the automatic registers for the stored controls |
| Ps3EyeCamera.Camera.ApplyPicture | AprilTagTrackers/ps3eyed/ps3eye.h:109-134 | the picture setters write the picture registers for the stored controls |
| Ps3EyeCamera.Camera.ApplyBalanceAndFlip | AprilTagTrackers/ps3eyed/ps3eye.h:136-160 | the balance and flip setters write their registers for the stored controls |
| Ps3EyeCamera.Camera.Start | AprilTagTrackers/ps3eyed/ps3eye.cpp:1006-1040 | nothing happens while streaming; otherwise the rate and every control are written, the stream is switched on, the transfers are set up for frames of width times height bytes, and one more camera is active |
| Ps3EyeCamera.Camera.SwitchOn | AprilTagTrackers/ps3eyed/ps3eye.cpp:1018-1039 | on an idle camera the rate and every control end up in the registers, the stream byte is 0x00, the transfers are set up for frames of width times height bytes and one more camera is active |
| Ps3EyeCamera.Camera.SubmitStream | AprilTagTrackers/ps3eyed/ps3eye.cpp:1034-1039 | only the stream byte of the bridge changes, to 0x00; the camera streams with fresh transfers for the current mode and one more camera is active |
| Ps3EyeCamera.Camera.Stop | AprilTagTrackers/ps3eyed/ps3eye.cpp:1041-1054 | nothing happens unless streaming; otherwise the stream is switched off, the transfers are closed and one fewer camera is active |
| Ps3EyeCamera.Camera.SetWidth | AprilTagTrackers/ps3eyed/ps3eye.h:174-186 | refused while streaming; otherwise VGA exactly when the width is 0 or above 320, and QVGA otherwise |
| Ps3EyeCamera.Camera.SetHeight | AprilTagTrackers/ps3eyed/ps3eye.h:188-200 | refused while streaming; otherwise VGA exactly when the height is 0 or above 240, and QVGA otherwise |
| Ps3EyeCamera.Camera.SetFrameRate | AprilTagTrackers/ps3eyed/ps3eye.h:202-206 | refused while streaming; otherwise the chosen supported rate is stored, with nothing written to the camera |
| Ps3EyeCamera.Camera.SetAutogain | AprilTagTrackers/ps3eyed/ps3eye.h:64-77 | switches automatic gain, exposure and white balance in the sensor; turning it off writes the stored gain and exposure again |
| Ps3EyeCamera.Camera.SetAutoWhiteBalance | AprilTagTrackers/ps3eyed/ps3eye.h:78-85 | stores the flag and writes 0xe0 or 0xAA to the white-balance register |
| Ps3EyeCamera.Camera.SetGain | AprilTagTrackers/ps3eyed/ps3eye.h:87-107 | stores the gain unchanged and writes its encoding |
| Ps3EyeCamera.Camera.SetExposure | AprilTagTrackers/ps3eyed/ps3eye.h:109-113 | stores the exposure and writes its high bit and its low seven bits shifted |
| Ps3EyeCamera.Camera.SetSharpness | AprilTagTrackers/ps3eyed/ps3eye.h:115-119 | stores the sharpness and writes it to both noise registers |
| Ps3EyeCamera.Camera.SetContrast | AprilTagTrackers/ps3eyed/ps3eye.h:121-124 | stores the contrast and writes its register |
| Ps3EyeCamera.Camera.SetBrightness | AprilTagTrackers/ps3eyed/ps3eye.h:126-129 | stores the brightness and writes its register |
| Ps3EyeCamera.Camera.SetHue | AprilTagTrackers/ps3eyed/ps3eye.h:131-134 | stores the hue and writes its register |
| Ps3EyeCamera.Camera.SetRedBalance | AprilTagTrackers/ps3eyed/ps3eye.h:136-139 | stores the red balance and writes its register |
| Ps3EyeCamera.Camera.SetBlueBalance | AprilTagTrackers/ps3eyed/ps3eye.h:141-144 | stores the blue balance and writes its register |
| Ps3EyeCamera.Camera.SetGreenBalance | AprilTagTrackers/ps3eyed/ps3eye.h:146-149 | stores the green balance and writes its register |
| Ps3EyeCamera.Camera.SetFlip | AprilTagTrackers/ps3eyed/ps3eye.h:152-160 | stores both flags and rewrites the flip register read-modify-write |
| Ps3EyeFrames.EnqueueRing | AprilTagTrackers/ps3eyed/ps3eye.cpp:451-480 | the producer moves to the next slot and one more frame is available only while fewer than `num_frames - 1` frames wait; otherwise the ring is unchanged; the consumer's slot never moves |
| Ps3EyeFrames.DequeueRing | AprilTagTrackers/ps3eyed/ps3eye.cpp:502-504 | the oldest frame leaves: one fewer frame is available and the producer's slot is kept |
| Ps3EyeFrames.ProducerSlotIsFree | AprilTagTrackers/ps3eyed/ps3eye.cpp:461-466 | the slot the producer writes never holds a frame waiting for the consumer |
| Ps3EyeFrames.EnqueueThenDequeue | AprilTagTrackers/ps3eyed/ps3eye.cpp:451-504 | a frame enqueued into an empty ring is the next one dequeued |
| Ps3EyeFrames.FrameQueue.constructor | AprilTagTrackers/ps3eyed/ps3eye.cpp:431-439 | a buffer of two frames, both indices at zero and nothing available |
| Ps3EyeFrames.FrameQueue.SlotInBuffer | AprilTagTrackers/ps3eyed/ps3eye.cpp:465-474 | every slot lies inside the buffer |
| Ps3EyeFrames.FrameQueue.Enqueue | AprilTagTrackers/ps3eyed/ps3eye.cpp:451-480 | the ring takes one enqueue step, and the pointer returned is the start of the producer's slot |
| Ps3EyeFrames.FrameQueue.Dequeue | AprilTagTrackers/ps3eyed/ps3eye.cpp:482-505 | the ring takes one dequeue step, and in Bayer format the oldest frame's bytes are copied out and nothing else of the output changes |
| Ps3EyeFrames.StorePacket | AprilTagTrackers/ps3eyed/ps3eye.cpp:739-758 | bytes that fit are appended, bytes that do not turn the packet into a discard and empty the frame, and a last packet hands the frame to the queue; the frame never outgrows its size |
| Ps3EyeFrames.AddPacket | AprilTagTrackers/ps3eyed/ps3eye.cpp:716-759 | the queue gets a frame exactly when the packet completes one; time stamp and frame id are kept; the frame never outgrows its size |
| Ps3EyeFrames.AddPacketCases | AprilTagTrackers/ps3eyed/ps3eye.cpp:716-759 | a first packet restarts the frame with its bytes or discards them; a last packet leaves an empty frame unless ignored; after a discard everything but first and last packets is ignored, and after a last packet everything but a first one |
| Ps3EyeFrames.Pts | AprilTagTrackers/ps3eyed/ps3eye.cpp:795 | the time stamp is bytes 2 to 5, least significant first, a 32-bit value |
| Ps3EyeFrames.ScanPayload | AprilTagTrackers/ps3eyed/ps3eye.cpp:769-831 | one payload keeps the ring valid and the frame within its size |
| Ps3EyeFrames.NewId | AprilTagTrackers/ps3eyed/ps3eye.cpp:799-807 | an unfinished frame is discarded, the new ids are recorded, and a first packet follows; the frame stays within its size |
| Ps3EyeFrames.EndOfFrame | AprilTagTrackers/ps3eyed/ps3eye.cpp:809-816 | the time stamp is cleared, and the packet is a last one only if it brings the frame to exactly its size |
| Ps3EyeFrames.Scan | AprilTagTrackers/ps3eyed/ps3eye.cpp:761-833 | every payload of at most 2048 bytes is scanned in turn, an empty transfer once; the ring stays valid and the frame within its size |
| Ps3EyeFrames.OnlyFinishedFramesQueued | AprilTagTrackers/ps3eyed/ps3eye.cpp:799-820 | the queue gets a frame exactly when the payload finishes one of exactly the frame size |
| Ps3EyeFrames.NewIdStartsFrame | AprilTagTrackers/ps3eyed/ps3eye.cpp:799-807 | a new time stamp or frame id drops the frame so far, records the ids and restarts the frame with the payload's bytes, or discards them if they do not fit; nothing reaches the queue |
| Ps3EyeFrames.BadHeaderDiscards | AprilTagTrackers/ps3eyed/ps3eye.cpp:778-793 | a bad header, an error flag or a missing time stamp stops the frame until a new one starts, and nothing reaches the queue |
| Ps3EyeFrames.OverwriteSpec | AprilTagTrackers/ps3eyed/ps3eye.cpp:747 | the copied bytes land at the offset and no other byte changes |
| Ps3EyeFrames.UsbMgr.constructor | AprilTagTrackers/ps3eyed/ps3eye.cpp:327-334 | no active camera and no transfer thread |
| Ps3EyeFrames.UsbMgr.CameraStarted | AprilTagTrackers/ps3eyed/ps3eye.cpp:349-354 | one more active camera, and the first one starts the thread |
| Ps3EyeFrames.UsbMgr.CameraStopped | AprilTagTrackers/ps3eyed/ps3eye.cpp:355-360 | one fewer active camera, and the thread stops when the last one goes |
| Ps3EyeFrames.Urb.constructor | AprilTagTrackers/ps3eyed/ps3eye.cpp:628-639 | no transfers or queue, a discard as the last packet, and zero time stamp, frame id, lengths and frame size |
| Ps3EyeFrames.Urb.StartTransfers | AprilTagTrackers/ps3eyed/ps3eye.cpp:647-683 | a fresh empty queue for frames of the given size, the ids cleared, five more active transfers and one more active camera |
| Ps3EyeFrames.Urb.CloseTransfers | AprilTagTrackers/ps3eyed/ps3eye.cpp:685-707 | nothing happens without active transfers; otherwise the manager is told and the queue freed |
| Ps3EyeFrames.Urb.FrameAdd | AprilTagTrackers/ps3eyed/ps3eye.cpp:716-759 | the assembly state takes one packet step, and the buffer gets the bytes at the frame's current length exactly when they are appended |
| Ps3EyeFrames.Urb.Store | AprilTagTrackers/ps3eyed/ps3eye.cpp:739-758 | a first packet empties the frame, then bytes that fit are copied in |
| Ps3EyeFrames.Urb.Append | AprilTagTrackers/ps3eyed/ps3eye.cpp:747-758 | bytes that fit are copied and counted, and a last packet empties the frame and hands it to the queue |
| Ps3EyeFrames.Urb.FinishFrame | AprilTagTrackers/ps3eyed/ps3eye.cpp:754-758 | a last packet empties the frame and hands its slot to the queue |
| Ps3EyeFrames.Urb.CopyIntoFrame | AprilTagTrackers/ps3eyed/ps3eye.cpp:747 | the bytes go at the given offset into the current slot |
| Ps3EyeFrames.Urb.HandlePayload | AprilTagTrackers/ps3eyed/ps3eye.cpp:769-831 | the assembly state takes one payload step |
| Ps3EyeFrames.Urb.StartNewFrame | AprilTagTrackers/ps3eyed/ps3eye.cpp:799-807 | the assembly state takes the new-frame step |
| Ps3EyeFrames.Urb.EndFrame | AprilTagTrackers/ps3eyed/ps3eye.cpp:809-816 | the assembly state takes the end-of-frame step |
| Ps3EyeFrames.Urb.PktScan | AprilTagTrackers/ps3eyed/ps3eye.cpp:761-833 | the assembly state takes the steps of all the transfer's payloads, in order |
| Ps3EyeCApi.ParameterOf | AprilTagTrackers/ps3eyed/ps3eye_capi.cpp:169-197 | exactly the thirteen enum values name a parameter, in enum order; any other value reaches the default case |
| Ps3EyeCApi.ToUint8 | AprilTagTrackers/ps3eyed/ps3eye_capi.cpp:213 | the cast to `uint8_t` is the value modulo 256 |
| Ps3EyeCApi.ParameterValue | AprilTagTrackers/ps3eyed/ps3eye_capi.cpp:169-195 | a switch reads as 0 or 1, any other control as a byte value |
| Ps3EyeCApi.SetThenGet | AprilTagTrackers/ps3eyed/ps3eye_capi.cpp:164-253 | reading a parameter after setting it gives the value as stored (a switch as whether it was positive, any other modulo 256), and every other parameter keeps its value |
| Ps3EyeCApi.ParameterIndex | AprilTagTrackers/ps3eyed/ps3eye_capi.cpp:169-195 | each parameter has its enum value |
| Ps3EyeCApi.UnknownParameter | AprilTagTrackers/ps3eyed/ps3eye_capi.cpp:248-249 | setting an unknown parameter changes no control |
| Ps3EyeCApi.AppendPortsMeaning | AprilTagTrackers/ps3eyed/ps3eye.cpp:1076-1093 | the appending loop keeps, within the buffer, a prefix of the full text, and succeeds exactly when all of it fits |
| Ps3EyeCApi.PortPathMeaning | AprilTagTrackers/ps3eyed/ps3eye.cpp:1057-1099 | an identifier is written exactly when the camera is initialized; it always fits the buffer with its terminating zero and is a prefix of the full path, and the call succeeds exactly when there is a port and the full path fits, and then wrote all of it |
| Ps3EyeCApi.GetUsbPortPath | AprilTagTrackers/ps3eyed/ps3eye.cpp:1057-1099 | the loop's success and text are those of the port path |
| Ps3EyeCApi.Handle.constructor | AprilTagTrackers/ps3eyed/ps3eye_capi.cpp:55-56 | a handle holds the camera it was opened on |
| Ps3EyeCApi.Removed | AprilTagTrackers/ps3eyed/ps3eye_capi.cpp:66 | `remove` drops every entry equal to the handle and keeps every other, in order |
| Ps3EyeCApi.RemovedAppended | AprilTagTrackers/ps3eyed/ps3eye_capi.cpp:60-66 | closing a handle opened last gives the open handles back as before, and removing an absent one changes nothing |
| Ps3EyeCApi.SetterWritesControlsOnly | AprilTagTrackers/ps3eyed/ps3eye_capi.cpp:208-250 | a setter writes only registers that hold a control |
| Ps3EyeCApi.SetterKeepsControls | AprilTagTrackers/ps3eyed/ps3eye_capi.cpp:208-250 | a sensor holding every stored control still does after any setter, for the controls as that setter leaves them |
| Ps3EyeCApi.SetControl | AprilTagTrackers/ps3eyed/ps3eye_capi.cpp:208-250 | the setter of the parameter stores the value and makes its sensor writes |
| Ps3EyeCApi.OpenCameraAsWritten | AprilTagTrackers/ps3eyed/ps3eye_capi.cpp:55-61 | as written, `start` follows `init` whether or not it succeeded: it is reached on an uninitialised camera exactly when no handle was there and the device did not open, and a device that cannot be opened reaches it without any handle; otherwise the camera streams with a handle, a buffer and a valid mode |
| Ps3EyeCApi.OpenCamera | AprilTagTrackers/ps3eyed/ps3eye_capi.cpp:55-61 | `init` with the width, height and rate converted to the camera's unsigned types, then `start` only after a successful `init`: when the device is there the camera streams with a valid mode, VGA exactly when the converted size asks for it, and the chosen rate for the rate modulo 256; a camera that was idle has every control applied and its stream switched on, while one that already streamed is left with its stream switched off and its sensor reset to the init table by `init`; a failed `init` leaves streaming as it was, and a camera is never started without a handle and buffer |
| Ps3EyeCApi.Library.constructor | AprilTagTrackers/ps3eyed/ps3eye_capi.cpp:51-52 | the program starts without a context |
| Ps3EyeCApi.Library.Init | AprilTagTrackers/ps3eyed/ps3eye_capi.cpp:73-79 | the context is created once, with the cameras enumerated then, and a second call changes nothing |
| Ps3EyeCApi.Library.Uninit | AprilTagTrackers/ps3eyed/ps3eye_capi.cpp:81-92 | the context goes exactly when it exists with no handle open; otherwise nothing changes |
| Ps3EyeCApi.Library.CountConnected | AprilTagTrackers/ps3eyed/ps3eye_capi.cpp:94-103 | 0 without a context, the number of enumerated cameras with one |
| Ps3EyeCApi.Library.Open | AprilTagTrackers/ps3eyed/ps3eye_capi.cpp:105-119 | no handle without a context or for an id outside the cameras; otherwise a new handle on that camera joins the open ones and the camera, idle or already open through another handle, is initialised and then started as in `OpenCamera`, using the corrected start of the ps3eye_capi.cpp:57-58 finding: an idle camera ends with its controls applied and streaming, one that already streamed keeps streaming with the stream byte 0x09 and the init table's sensor bytes |
| Ps3EyeCApi.Library.Close | AprilTagTrackers/ps3eyed/ps3eye_capi.cpp:157-161 | closing no handle does nothing; otherwise the camera stops and the handle leaves the open ones |
| Ps3EyeCApi.Library.GetParameter | AprilTagTrackers/ps3eyed/ps3eye_capi.cpp:163-199 | -1 for no handle or an unknown parameter, otherwise the stored control |
| Ps3EyeCApi.Library.SetParameter | AprilTagTrackers/ps3eyed/ps3eye_capi.cpp:201-253 | -1 for no handle and 0 otherwise; the controls are updated, no register that holds no control changes, and a sensor holding every control still does |
| Ps3EyeCApi.Library.GetUniqueIdentifier | AprilTagTrackers/ps3eyed/ps3eye_capi.cpp:121-139 | -1 without a context or a handle; otherwise the port path of the handle's camera, with 0 exactly when it was written in full |
| PsEyeCapture.Round | AprilTagTrackers/ps3eyed/PSEyeVideoCapture.cpp:321 | `round` gives an integer within one half of the value, never negative for a non-negative value |
| PsEyeCapture.Domains | AprilTagTrackers/ps3eyed/PSEyeVideoCapture.cpp:636-655 | the domain table has the PS3EYE entry followed by two terminators, the first replaced by the preferred domain when the index is 100 or more in size |
| PsEyeCapture.DomainDecoding | AprilTagTrackers/ps3eyed/PSEyeVideoCapture.cpp:649-657 | the PS3EYE driver is tried exactly for indexes below 100 in size (camera index unchanged) and for 2300 to 2399 (camera from the last two digits); at most one attempt; a negative preferred domain tries nothing |
| PsEyeCapture.ControlProperty | AprilTagTrackers/ps3eyed/PSEyeVideoCapture.cpp:284-304 | exactly brightness, contrast, exposure, gain, hue and sharpness read from the stored controls |
| PsEyeCapture.PlainPropertyRoundTrip | AprilTagTrackers/ps3eyed/PSEyeVideoCapture.cpp:319-357 | a whole value in [0, 255] set as brightness, contrast, exposure or hue reads back unchanged |
| PsEyeCapture.ScaledRoundTrip | AprilTagTrackers/ps3eyed/PSEyeVideoCapture.cpp:299 | a value in [0, 1024) scaled to [0, 63] and back reads as the multiple of four at or just below it |
| PsEyeCapture.GainRoundTrip | AprilTagTrackers/ps3eyed/PSEyeVideoCapture.cpp:349-353 | gain reads back as the value set, to within the step of four the scaling leaves |
| PsEyeCapture.SharpnessRoundTripAsWritten | AprilTagTrackers/ps3eyed/PSEyeVideoCapture.cpp:358-362 | as written, sharpness set to 100 reads back as 400, because the setter stores the unscaled value |
| PsEyeCapture.StoredByte | AprilTagTrackers/ps3eyed/ps3eye.h:64-207 | a value in [0, 255] passes the setters' byte parameter unchanged |
| PsEyeCapture.ControlsAfterPropertyCorrected | AprilTagTrackers/ps3eyed/PSEyeVideoCapture.cpp:358-362 | the corrected setter stores the scaled sharpness and agrees with the written one on every other property |
| PsEyeCapture.SharpnessRoundTripCorrected | AprilTagTrackers/ps3eyed/PSEyeVideoCapture.cpp:358-362 | corrected, sharpness reads back like gain, to within four |
| PsEyeCapture.StartMirrored | AprilTagTrackers/ps3eyed/PSEyeVideoCapture.cpp:431-436 | the camera is streaming with its mode unchanged, automatic gain and white balance off, flipped horizontally and not vertically; an idle camera has its stream switched on, and one already streaming keeps its bridge registers |
| PsEyeCapture.ManualMirrored | AprilTagTrackers/ps3eyed/PSEyeVideoCapture.cpp:433-436 | automatic gain and white balance are off and the image mirrored, nothing else in the controls changes |
| PsEyeCapture.Restart | AprilTagTrackers/ps3eyed/PSEyeVideoCapture.cpp:331-347 | after stop and start the camera streams with its controls and size kept, and with the supported rate for the requested one when a rate is given |
| PsEyeCapture.SetControlProperty | AprilTagTrackers/ps3eyed/PSEyeVideoCapture.cpp:319-362 | the controls become what the property's setter stores; any other property changes nothing |
| PsEyeCapture.Ps3EyeCapture.Empty | AprilTagTrackers/ps3eyed/PSEyeVideoCapture.cpp:267-269 | index, width, height, row bytes and size start at -1 with no camera |
| PsEyeCapture.Ps3EyeCapture.Open | AprilTagTrackers/ps3eyed/PSEyeVideoCapture.cpp:417-445 | opens exactly when the index is below the number of cameras found and that camera initializes; then the capture has the index, the camera streams at 640x480 in Bayer format at the rate chosen for 15, mirrored with automatic gain and white balance off, and the dimensions are 640, 480, 640 row bytes and 640·480 bytes; a camera left streaming by an earlier capture is taken too, and then ends with its stream switched off by `init`; a failure leaves the dimensions, the index and streaming unchanged |
| PsEyeCapture.Ps3EyeCapture.Close | AprilTagTrackers/ps3eyed/PSEyeVideoCapture.cpp:447-451 | the capture is no longer open |
| PsEyeCapture.Ps3EyeCapture.RefreshDimensions | AprilTagTrackers/ps3eyed/PSEyeVideoCapture.cpp:453-460 | width and height are the camera's, the size is row bytes times height |
| PsEyeCapture.Ps3EyeCapture.GetProperty | AprilTagTrackers/ps3eyed/PSEyeVideoCapture.cpp:280-307 | frame rate, width and height come from the camera, the controls through `ControlProperty`, any other property reads 0 |
| PsEyeCapture.Ps3EyeCapture.SetProperty | AprilTagTrackers/ps3eyed/PSEyeVideoCapture.cpp:309-367 | refused exactly without a camera; the frame rate restarts the camera at the supported rate for the rounded byte value, a frame size only restarts it, the controls change as `ControlsAfterProperty` says, the mode is otherwise kept and the dimensions are read back |
| PsEyeCapture.Ps3EyeCapture.UniqueIdentifier | AprilTagTrackers/ps3eyed/PSEyeVideoCapture.cpp:398-413 | always starts with `ps3eye_`; the port path follows exactly when the capture is open and the path fits the 128-byte buffer |
| PsEyeCapture.VideoCapture.constructor | AprilTagTrackers/ps3eyed/PSEyeVideoCapture.h:32-33 | the wrapper starts with no capture and an empty identifier |
| PsEyeCapture.VideoCapture.Create | AprilTagTrackers/ps3eyed/PSEyeVideoCapture.cpp:633-704 | a capture is returned exactly when the PS3EYE domain is tried, the decoded camera index is in range and the camera opens, whether or not it still streams from an earlier capture; it is then fresh, open and holds that camera; the identifier changes only when the PS3EYE domain is tried |
| PsEyeCapture.VideoCapture.Open | AprilTagTrackers/ps3eyed/PSEyeVideoCapture.cpp:499-542 | succeeds exactly when `Create` returns a capture, and the result is whether the wrapper is then open on that camera |
| PsEyeCapture.VideoCapture.Get | AprilTagTrackers/ps3eyed/PSEyeVideoCapture.cpp:593-626 | the capture's property, 0 without one |
| PsEyeCapture.VideoCapture.Set | AprilTagTrackers/ps3eyed/PSEyeVideoCapture.cpp:544-591 | accepted exactly when there is a capture with a camera, whose controls then change as `setProperty` says |
| Quaternions.Plus | AprilTagTrackers/Quaternion.hpp:305-309 | the sum is taken component by component |
| Quaternions.Minus | AprilTagTrackers/Quaternion.hpp:315-319 | the difference is taken component by component |
| Quaternions.ScaleQ | AprilTagTrackers/Quaternion.hpp:456-460 | every component is multiplied by the scalar |
| Quaternions.Conjugate | AprilTagTrackers/Quaternion.hpp:475-479 | the scalar part is kept and the vector part negated |
| Quaternions.Equal | AprilTagTrackers/Quaternion.hpp:426-430 | true exactly when the two quaternions are the same value |
| Quaternions.NotEqual | AprilTagTrackers/Quaternion.hpp:416-420 | true exactly when `operator ==` is false |
| Quaternions.PlusMinus | AprilTagTrackers/Quaternion.hpp:305-319 | subtracting what was added gives the quaternion back |
| Quaternions.ConjugateInvolution | AprilTagTrackers/Quaternion.hpp:475-479 | conjugating twice is the identity |
| Quaternions.NormProduct | AprilTagTrackers/Quaternion.hpp:436-440 | the norm is never negative and is the scalar part of `q conj(q)` and `conj(q) q`, whose vector parts vanish |
| Quaternions.MulInverse | AprilTagTrackers/Quaternion.hpp:465-469 | for a non-zero norm, `q q^-1` and `q^-1 q` are the identity |
| Quaternions.MulAssoc | AprilTagTrackers/Quaternion.hpp:326-334 | the Hamilton product is associative |
| Quaternions.MulIdentity | AprilTagTrackers/Quaternion.hpp:326-334 | `(1, 0, 0, 0)` is a two-sided unit of the product |
| Quaternions.RotateIdentity | AprilTagTrackers/Quaternion.hpp:494-503 | the identity quaternion has norm 1 and rotates no vector |
| Quaternions.DivMul | AprilTagTrackers/Quaternion.hpp:340-344 | dividing by `q` undoes multiplying by `q` |
| Quaternions.InverseInverse | AprilTagTrackers/Quaternion.hpp:465-469 | the inverse has the reciprocal norm and inverting twice gives `q` back |
| Quaternions.RotateBack | AprilTagTrackers/Quaternion.hpp:494-503 | rotating by `q^-1` undoes the rotation by `q` |
| Quaternions.UnitInverse | AprilTagTrackers/Quaternion.hpp:465-479 | for a unit quaternion the inverse is the conjugate, itself a unit quaternion whose inverse is `q` |
| Quaternions.RotateUnitBack | AprilTagTrackers/Quaternion.hpp:494-503 | rotating by a unit quaternion and by its conjugate undo each other in either order |
| Quaternions.Quaternion.constructor | AprilTagTrackers/Quaternion.hpp:202-209 | the default quaternion has all four parts zero |
| Quaternions.Quaternion.Of | AprilTagTrackers/Quaternion.hpp:216-223 | the quaternion holds the four given parts |
| Quaternions.Quaternion.Assign | AprilTagTrackers/Quaternion.hpp:290-299 | the four parts become those of the right-hand side |
| Quaternions.Quaternion.AddAssign | AprilTagTrackers/Quaternion.hpp:351-360 | the new value is the old one plus the operand |
| Quaternions.Quaternion.SubAssign | AprilTagTrackers/Quaternion.hpp:367-376 | the new value is the old one minus the operand |
| Quaternions.Quaternion.MulAssign | AprilTagTrackers/Quaternion.hpp:383-397 | the new value is exactly the Hamilton product of the old value and the operand |
| Quaternions.Quaternion.DivAssign | AprilTagTrackers/Quaternion.hpp:404-409 | the new value is the old one times the operand's inverse |
| Quaternions.Quaternion.QuatRotation | AprilTagTrackers/Quaternion.hpp:494-503 | the array becomes the vector part of `q (0, v) q^-1` for the old array `v` |
| Quaternions.MulThenDiv | AprilTagTrackers/Quaternion.hpp:383-409 | `*=` followed by `/=` with the same non-zero operand restores the quaternion |
| SemVer.With | common/SemVer.h:30-32 | the chosen component takes the new value and the other two are kept |
| SemVer.Parse | common/SemVer.h:61-82 | the loop computes the recursive reading `Scan` of the whole string; the empty string reads as 0.0.0 |
| SemVer.ScanDigits | common/SemVer.h:68-72 | a run of digits accumulates, left to right, into the current component |
| SemVer.ScanIgnoresAfterStop | common/SemVer.h:73-79 | after a character that is neither a digit nor a dot, the rest of the string is ignored |
| SemVer.MajorOnly | common/SemVer.h:18-19 | a bare number reads as that major version with minor and patch 0 |
| SemVer.TrailingDot | common/SemVer.h:76 | a trailing dot does not start a new component |
| SemVer.ToString | common/SemVer.h:38-41 | the text holds at least the three digits and two dots |
| SemVer.ScanComponent | common/SemVer.h:73-78 | digits followed by a dot and more text fill the current component and move to the next |
| SemVer.RoundTrip | common/SemVer.h:38-82 | parsing the printed form of a version with non-negative components gives it back |
| SemVer.Compare | common/SemVer.h:22-28 | zero exactly for equal versions, negative exactly when the first is lexicographically below the second, positive exactly when above |
| SemVer.TotalOrder | common/SemVer.h:54-59 | the six operators agree with equality and with each other as a total order |
| SemVer.Compatible | common/SemVer.h:84-93 | compatible exactly when neither version is 0.0.0, the majors agree and, for major 0, the minors agree |
| SemVer.CompatibleSymmetric | common/SemVer.h:84-93 | compatibility is symmetric and holds between a non-zero version and itself |
| SteadyTimer.PerSecond | AprilTagTrackers/utils/SteadyTimer.hpp:17-24 | the rate of a positive duration is positive |
| SteadyTimer.PerSecondInverse | AprilTagTrackers/utils/SteadyTimer.hpp:17-24 | the rate times the duration in seconds is exactly one |
| SteadyTimer.Timer.constructor | AprilTagTrackers/utils/SteadyTimer.hpp:34 | the timer starts at the time it is made |
| SteadyTimer.Timer.Get | AprilTagTrackers/utils/SteadyTimer.hpp:35-38 | the elapsed time added to the start gives the reading, and is never negative for a later reading |
| SteadyTimer.Timer.Restart | AprilTagTrackers/utils/SteadyTimer.hpp:42-47 | returns the time elapsed before the call, after which the timer counts from the given time |
| SteadyTimer.RestartTwice | AprilTagTrackers/utils/SteadyTimer.hpp:42-47 | a second restart at the same instant returns zero |
| StrongType.Wrap | AprilTagTrackers/utils/StrongType.hpp:34-46 | the explicit conversion back gives the wrapped value |
| StrongType.Gcd | AprilTagTrackers/utils/StrongType.hpp:66 | the greatest common divisor is positive and at most either argument |
| StrongType.GcdDivides | AprilTagTrackers/utils/StrongType.hpp:66 | the greatest common divisor divides both arguments |
| StrongType.Reduce | AprilTagTrackers/utils/StrongType.hpp:66 | the reduced ratio is positive and has the same value |
| StrongType.RatioDivide | AprilTagTrackers/utils/StrongType.hpp:72 | the quotient ratio is positive and has the value `(a.num b.den) / (a.den b.num)` |
| StrongType.RatioDivideSwap | AprilTagTrackers/utils/StrongType.hpp:72 | dividing the other way round swaps numerator and denominator |
| StrongType.Cast | AprilTagTrackers/utils/StrongType.hpp:77-96 | the cast has the target representation, keeps a value already in it and turns an integer into the same real |
| StrongType.RatioConvert | AprilTagTrackers/utils/StrongType.hpp:68-99 | the result has the target representation |
| StrongType.ConvertSameRatio | AprilTagTrackers/utils/StrongType.hpp:73-78 | converting to the same ratio and representation changes nothing |
| StrongType.RatioDivideSelf | AprilTagTrackers/utils/StrongType.hpp:72-78 | a ratio divided by itself is one |
| StrongType.ConvertIntegral | AprilTagTrackers/utils/StrongType.hpp:73-98 | between integral representations a whole quotient ratio multiplies, otherwise the value is multiplied by the numerator and divided by the denominator with truncation toward zero |
| StrongType.ConvertFloating | AprilTagTrackers/utils/StrongType.hpp:73-98 | a floating-point conversion scales the value by the quotient of the two ratios, whichever branch computes it |
| StrongType.ConvertRoundTrip | AprilTagTrackers/utils/StrongType.hpp:68-99 | an integral count converted to a finer unit and back is unchanged |
| StrongType.StrongRatio.constructor | AprilTagTrackers/utils/StrongType.hpp:113 | the value holds the raw value in the type's ratio |
| StrongType.StrongRatio.Convert | AprilTagTrackers/utils/StrongType.hpp:117-123 | the converting constructor holds the other value converted into this ratio and representation |
| StrongType.StrongRatio.Operand | AprilTagTrackers/utils/StrongType.hpp:126-149 | the right operand, converted, has this value's representation |
| StrongType.StrongRatio.AddAssign | AprilTagTrackers/utils/StrongType.hpp:138-143 | the value becomes the old value plus the converted operand |
| StrongType.StrongRatio.SubAssign | AprilTagTrackers/utils/StrongType.hpp:144-149 | the value becomes the old value minus the converted operand |
| StrongType.StrongRatio.MulAssign | AprilTagTrackers/utils/StrongType.hpp:126-131 | the value becomes the old value times the converted operand |
| StrongType.StrongRatio.DivAssign | AprilTagTrackers/utils/StrongType.hpp:132-137 | the value becomes the old value divided by the converted operand |
| StrongType.Plus | AprilTagTrackers/utils/StrongType.hpp:160 | a fresh value in the left operand's ratio and representation, the sum with the converted right operand |
| StrongType.Minus | AprilTagTrackers/utils/StrongType.hpp:162 | a fresh value in the left operand's ratio, the difference with the converted right operand |
| StrongType.Times | AprilTagTrackers/utils/StrongType.hpp:156 | a fresh value in the left operand's ratio, the product with the converted right operand |
| StrongType.Over | AprilTagTrackers/utils/StrongType.hpp:158 | a fresh value in the left operand's ratio, the quotient by the converted right operand |
| TrackerRoleConfig.Rep | AprilTagTrackers/config/TrackerUnit.hpp:16-20 | each role has its position in the enumerator list |
| TrackerRoleConfig.OfRep | AprilTagTrackers/config/TrackerUnit.hpp:16-20 | the role at a position has that position |
| TrackerRoleConfig.Parse | AprilTagTrackers/config/TrackerUnit.hpp:42-48 | a known name reads as the role with that name, any other text as `Disabled` |
| TrackerRoleConfig.Format | AprilTagTrackers/config/TrackerUnit.hpp:49-54 | writes the enumerator list as a comment, then the role's name |
| TrackerRoleConfig.FormatThenParse | AprilTagTrackers/config/TrackerUnit.hpp:42-54 | parsing the name that was written gives the role back |
| TrackerUnit.CreateModelMarker | AprilTagTrackers/tracker/TrackerUnit.hpp:56-64 | four corners at plus or minus half the size in x and y, in the plane z = 0, centred at the origin |
| TrackerUnit.RecenteredAtOrigin | AprilTagTrackers/tracker/TrackerUnit.hpp:21-40 | with four corners per marker, recentring moves the sum of all corners to the origin |
| TrackerUnit.ShiftedKeepsShape | AprilTagTrackers/tracker/TrackerUnit.hpp:33-39 | recentring keeps the number of markers and of corners in each |
| TrackerUnit.ShiftedSum | AprilTagTrackers/tracker/TrackerUnit.hpp:33-39 | shifting every corner by `c` moves the sum by `c` times the number of corners |
| TrackerUnit.CheckMarkers | AprilTagTrackers/tracker/TrackerUnit.hpp:46-53 | accepted exactly when the ids and corner lists are parallel and every list has four corners |
| TrackerUnit.CheckCorners | AprilTagTrackers/tracker/TrackerUnit.hpp:42-53 | accepted exactly when every list has four corners; an error names the size of an offending list |
| TrackerUnit.TrackerUnit.constructor | AprilTagTrackers/tracker/TrackerUnit.hpp:116-130 | no markers, not found by camera or driver, role `Disabled`, zero poses and mask centre |
| TrackerUnit.TrackerUnit.SetMarkers | AprilTagTrackers/tracker/TrackerUnit.hpp:71-76 | replaces both lists exactly when `EnsureMarkers` accepts them, otherwise nothing changes |
| TrackerUnit.TrackerUnit.AddMarker | AprilTagTrackers/tracker/TrackerUnit.hpp:77-82 | appends the id and the corners exactly when there are four corners, otherwise fails with the corner count and changes nothing |
| TrackerUnit.TrackerUnit.HasMarkerId | AprilTagTrackers/tracker/TrackerUnit.hpp:86 | true exactly when the id is among the board's ids |
| TrackerUnit.TrackerUnit.IsCalibrated | AprilTagTrackers/tracker/TrackerUnit.hpp:88-90 | true exactly when the board has corners, that is a marker |
| TrackerUnit.TrackerUnit.SetRole | AprilTagTrackers/tracker/TrackerUnit.hpp:84 | the role changes and the markers and visibility do not |
| TrackerUnit.TrackerUnit.SetWasVisibleLastFrame | AprilTagTrackers/tracker/TrackerUnit.hpp:99 | only the camera visibility changes |
| TrackerUnit.TrackerUnit.SetWasVisibleToDriverLastFrame | AprilTagTrackers/tracker/TrackerUnit.hpp:100 | only the driver visibility changes |
| TrackerUnit.TrackerUnit.SetEstimatedPose | AprilTagTrackers/tracker/TrackerUnit.hpp:107 | only the estimated pose changes |
| TrackerUnit.TrackerUnit.SetPoseFromDriver | AprilTagTrackers/tracker/TrackerUnit.hpp:109 | only the driver pose changes |
| TrackerUnit.TrackerUnit.SetMaskCenter | AprilTagTrackers/tracker/TrackerUnit.hpp:104 | only the mask centre changes |
| TrackerUnit.TrackerUnit.RecenterMarkers | AprilTagTrackers/tracker/TrackerUnit.hpp:66-69 | every corner is shifted by the centre of all corners (`Center`), the ids are kept and a valid board stays valid |
| TrackerLoop.FirstFailure | AprilTagTrackers/Tracker.cpp:805-836 | no popup exactly when every check passes, otherwise the popup of the first failing check |
| TrackerLoop.FirstFailureAppend | AprilTagTrackers/Tracker.cpp:805-836 | checks after a failing one are never reached; after passing checks the appended ones decide |
| TrackerLoop.StartRefusesLikeCalibration | AprilTagTrackers/Tracker.cpp:766-836 | whatever refuses the camera calibration refuses the tracker calibration with the same popup, and whatever refuses that refuses detection |
| TrackerLoop.StartChecksOrder | AprilTagTrackers/Tracker.cpp:805-836 | detection launches exactly when the camera runs and is calibrated, the trackers are calibrated and the driver is connected; each missing condition shows its own popup in that order |
| TrackerLoop.Tracker.constructor | AprilTagTrackers/Tracker.cpp:157-171 | nothing runs, the trackers count as calibrated exactly when the saved calibration has trackers, and the scale is the user's |
| TrackerLoop.Tracker.StartCamera | AprilTagTrackers/Tracker.cpp:173-260 | a running camera is stopped together with the main thread; otherwise the camera runs exactly when the capture opened, with the camera-error popup when it did not and the camera loop launched when it did |
| TrackerLoop.Tracker.StartCameraCalib | AprilTagTrackers/Tracker.cpp:395-419 | a running main thread is stopped; otherwise a stopped camera shows its popup, and a running one launches the chessboard or the ChArUco calibration as configured |
| TrackerLoop.Tracker.StartTrackerCalib | AprilTagTrackers/Tracker.cpp:766-793 | a running main thread is stopped; otherwise the camera must run and be calibrated, with the popup of the first failing check, before the tracker calibration is launched |
| TrackerLoop.Tracker.Start | AprilTagTrackers/Tracker.cpp:805-842 | a running main thread is stopped; otherwise detection is launched exactly when `StartChecks` all pass, and the popup is that of the first failing check |
| TrackerLoop.Tracker.RefineScale | AprilTagTrackers/Tracker.cpp:1660-1665 | the scale moves by a tenth of the relative distance error and is then clamped to [0.8, 1.2]; nothing else changes |
| TrackerLoop.RefineScaleFixedPoint | AprilTagTrackers/Tracker.cpp:1660-1665 | when the two distances agree, a scale in range is left unchanged |
| TrackerLoop.RotationOf | AprilTagTrackers/Tracker.cpp:264-280 | no rotation exactly when neither flag is set, 180 degrees exactly when both are, otherwise a quarter turn in the flag's direction |
| TrackerLoop.RotationTurns | AprilTagTrackers/Tracker.cpp:264-280 | clockwise is one quarter turn and counter-clockwise three; with both the frame turns by half |
| TrackerLoop.BelongsToBlock | AprilTagTrackers/Tracker.cpp:951 | a marker id belongs to tracker `i` exactly when `i` is the id divided by the markers per tracker, so to exactly one tracker |
| TrackerLoop.AsSizeT | AprilTagTrackers/Tracker.cpp:1544 | the `int` bound compared with a `size_t` keeps a non-negative value and wraps a negative one by 2^64 |
| TrackerLoop.PushedNewestLast | AprilTagTrackers/Tracker.cpp:1543-1547 | the window is empty only when an empty window meets a zero bound, and otherwise ends with the new value |
| TrackerLoop.NegativeBoundKeepsAll | AprilTagTrackers/Tracker.cpp:1543-1547 | a negative bound never drops anything |
| TrackerLoop.DroppedOldest | AprilTagTrackers/Tracker.cpp:1483-1487 | the oldest value goes, if there is one |
| TrackerLoop.Latest | AprilTagTrackers/Tracker.cpp:1543-1547 | the latest `n` values, or all when fewer |
| TrackerLoop.PushedKeepsLatest | AprilTagTrackers/Tracker.cpp:1543-1547 | within a non-negative bound the window holds the latest `n` values with the new one last |
| TrackerLoop.TrackerStatus.constructor | AprilTagTrackers/Tracker.cpp:1067-1074 | not found, with seven empty windows |
| TrackerLoop.TrackerStatus.Missed | AprilTagTrackers/Tracker.cpp:1480-1490 | the board is lost and each of the six windows in use drops its oldest value; the seventh and the window bounds are kept |
| TrackerLoop.TrackerStatus.Found | AprilTagTrackers/Tracker.cpp:1538-1552 | each of the six values is pushed into its window, the window bound is kept, and the value sent is the newest of each window, that is the values themselves |
| TrackerLoop.FirstMaxUnique | AprilTagTrackers/Tracker.cpp:498-510 | the first maximum of a list is unique |
| TrackerLoop.RemoveAt | AprilTagTrackers/Tracker.cpp:514-516 | the list without the element at `i`, the others in order |
| TrackerLoop.WorstView | AprilTagTrackers/Tracker.cpp:498-510 | the largest error (at least 0) and, when positive, the index of its first occurrence; index 0 when all errors are 0 or below |
| TrackerLoop.PruneWorstView | AprilTagTrackers/Tracker.cpp:496-525 | with more than ten per-view errors (which may be fewer than the views, or none) and one above one pixel, the first worst view goes from the corners and ids, the errors are recomputed and one picture fewer counts; otherwise nothing changes |
| TrackerLoop.ClampCalibScale | AprilTagTrackers/Tracker.cpp:1432-1435 | the calibration scale is clamped to [0.8, 1.2] |
| TrackerLoop.ClampAngleA | AprilTagTrackers/Tracker.cpp:1439-1443 | the pitch is clamped to [90, 270] |
| TrackerLoop.SmoothingFactor | AprilTagTrackers/Tracker.cpp:1585-1591 | the factor sent is in [0, 1): a factor already there passes unchanged, below it becomes 0 and from 1 up 0.99 |
| Validated.Validated.constructor | AprilTagTrackers/config/Validated.hpp:19-21 | the initial value is stored as given, unvalidated, with its validator |
| Validated.Validated.Assign | AprilTagTrackers/config/Validated.hpp:23-28 | the stored value is the validator applied to the right-hand side |
| Validated.Validated.ReadSelf | AprilTagTrackers/config/Validated.hpp:39-43 | the stored value is the validator applied to the value read |
| Validated.Clamp | AprilTagTrackers/config/Validated.hpp:52-59 | the result lies in the bounds, is the value when it already does and the nearer bound otherwise |
| Validated.ClampInt | AprilTagTrackers/config/Validated.hpp:52-59 | the same for integers |
| Validated.GreaterEqual | AprilTagTrackers/config/Validated.hpp:61-68 | the result is the larger of the value and the minimum |
| Validated.GreaterEqualInt | AprilTagTrackers/config/Validated.hpp:61-68 | the same for integers |
| Validated.LessEqual | AprilTagTrackers/config/Validated.hpp:70-77 | the result is the smaller of the value and the maximum |
| Validated.LessEqualInt | AprilTagTrackers/config/Validated.hpp:70-77 | the same for integers |
| Validated.ValidatorsIdempotent | AprilTagTrackers/config/Validated.hpp:52-77 | applying a validator twice is applying it once |
| Validated.ValidatorsFixedPoints | AprilTagTrackers/config/Validated.hpp:52-77 | a validator leaves a value unchanged exactly when it already satisfies the rule |
| Validated.ClampIsBothBounds | AprilTagTrackers/config/Validated.hpp:52-77 | clamping is the lower bound followed by the upper bound |
| Validated.AssignClamped | AprilTagTrackers/config/Validated.hpp:23-59 | a field with a clamp validator holds a value in range after any assignment, and exactly the value assigned when that was in range |
| ValidatorProxy.ValidatorProxy.Default | AprilTagTrackers/ValidatorProxy.hpp:14 | the default proxy holds the default value and no validator |
| ValidatorProxy.ValidatorProxy.constructor | AprilTagTrackers/ValidatorProxy.hpp:16-17 | the value is stored as given, unvalidated, with the validator |
| ValidatorProxy.ValidatorProxy.Assign | AprilTagTrackers/ValidatorProxy.hpp:19-30 | the stored value is the validator applied to the right-hand side |
| ValidatorProxy.ValidatorProxy.Set | AprilTagTrackers/ValidatorProxy.hpp:31-37 | the stored value is the validated argument, and the result says exactly whether validation changed it |
| ValidatorProxy.ValidatorProxy.Write | AprilTagTrackers/ValidatorProxy.hpp:41-44 | the stored value is written as it is |
| ValidatorProxy.ValidatorProxy.Read | AprilTagTrackers/ValidatorProxy.hpp:46-50 | the stored value is the validator applied to the value read |
| ValidatorProxy.SetReportsCorrection | AprilTagTrackers/ValidatorProxy.hpp:31-37 | with a clamping validator, `Set` reports a change exactly for an argument out of range, and the value is then in range |
| VideoCapture.AddressToIndex | AprilTagTrackers/tracker/VideoCapture.cpp:22-32 | an index is returned only for a non-empty address that is whole a base-10 `int`, at most `INT_MAX`: its decimal value, or 0 for a minus sign before zeros |
| VideoCapture.IndexRoundTrip | AprilTagTrackers/tracker/VideoCapture.cpp:22-32 | every index that fits an `int`, written in decimal, is read back |
| VideoCapture.AddressToIndexAccepts | AprilTagTrackers/tracker/VideoCapture.cpp:33-37 | "0", "1" and "015" read as 0, 1 and 15 |
| VideoCapture.AddressToIndexRejects | AprilTagTrackers/tracker/VideoCapture.cpp:38-40 | the empty address, "-1" and "1two" are rejected |
| VideoCapture.NegativeZeroIsDeviceZero | AprilTagTrackers/tracker/VideoCapture.cpp:22-32 | "-0" reads as device 0 |
| VideoCapture.CapsField | AprilTagTrackers/tracker/VideoCapture.cpp:51-53 | a caps field is written, with its value, exactly when the value is positive |
| VideoCapture.CapsEmpty | AprilTagTrackers/tracker/VideoCapture.cpp:51-53 | the caps are empty exactly when no setting is positive |
| VideoCapture.CapsIgnoreNonPositive | AprilTagTrackers/tracker/VideoCapture.cpp:51-53 | a zero or negative setting is treated as unset |
| VideoCapture.CapsExample | AprilTagTrackers/tracker/VideoCapture.cpp:59-60 | width 15, no height and 30 frames per second give two caps fields |
| VideoCapture.PipelineExample | AprilTagTrackers/tracker/VideoCapture.cpp:57-61 | the pipeline for device 3 at width 15, no height and 30 frames per second is the expected text |
| VideoCapture.Tried | AprilTagTrackers/tracker/VideoCapture.cpp:95-116 | the requests made are a prefix of the candidates, all but the last failed, and the list stops early only after a request that did not fail |
| VideoCapture.OpenedHasWitness | AprilTagTrackers/tracker/VideoCapture.cpp:95-116 | a capture that opened names the candidate that opened, after only failures |
| VideoCapture.WitnessOpens | AprilTagTrackers/tracker/VideoCapture.cpp:95-116 | a candidate that opens after only failures is the last request made, and the capture opens |
| VideoCapture.TriedShort | AprilTagTrackers/tracker/VideoCapture.cpp:107-114 | with one candidate it is requested; with two the second is requested exactly when the first failed |
| VideoCapture.PS3EyeNeedsIndex | AprilTagTrackers/tracker/VideoCapture.cpp:99-101 | with the PS3 Eye backend, an address that is not an index makes no request and fails |
| VideoCapture.PipelineOnlyFirst | AprilTagTrackers/tracker/VideoCapture.cpp:107-111 | a pipeline is only requested on Linux for an index with the ANY or GSTREAMER backend, and only first |
| VideoCapture.PipelineBeforeDevice | AprilTagTrackers/tracker/VideoCapture.cpp:107-113 | on Linux with an index and the ANY or GSTREAMER backend, the pipeline is requested first and the device exactly when the pipeline failed |
| VideoCapture.AddressOpenedAsUrl | AprilTagTrackers/tracker/VideoCapture.cpp:115 | any other backend opens an address that is not an index once, as a URL |
| VideoCapture.MJPGIsFourCC | AprilTagTrackers/tracker/VideoCapture.cpp:150-152 | the codec constant is the four characters M, J, P, G packed little-endian |
| VideoCapture.OptionsShape | AprilTagTrackers/tracker/VideoCapture.cpp:129-153 | the codec is written last and only there; size and rate are left out exactly where the Linux pipeline set them |
| VideoCapture.VideoCapture.constructor | AprilTagTrackers/tracker/VideoCapture.hpp:22-37 | the capture is linked to its camera settings and holds an unopened capture, with no requests made |
| VideoCapture.VideoCapture.IsOpen | AprilTagTrackers/tracker/VideoCapture.hpp:28 | open only with a capture |
| VideoCapture.VideoCapture.Close | AprilTagTrackers/tracker/VideoCapture.cpp:85-88 | the capture is gone and nothing is open |
| VideoCapture.VideoCapture.TryReadFrame | AprilTagTrackers/tracker/VideoCapture.cpp:90-93 | a frame is delivered exactly when there is a capture and the read returns a non-empty frame |
| VideoCapture.VideoCapture.TryOpenGStreamerCapture | AprilTagTrackers/tracker/VideoCapture.cpp:118-127 | on Linux the pipeline for the index is requested and its answer returned; elsewhere nothing is requested and it fails |
| VideoCapture.VideoCapture.TryOpenCapture | AprilTagTrackers/tracker/VideoCapture.cpp:95-116 | the requests made are `Tried` of the candidates, the answer is the last one's, and a new capture (PS3 Eye or OpenCV) is kept, except with the PS3 Eye backend without an index |
| VideoCapture.VideoCapture.TryOpenOther | AprilTagTrackers/tracker/VideoCapture.cpp:106-115 | for every backend but the PS3 Eye, the requests follow `OtherCandidates` and the capture is new |
| VideoCapture.VideoCapture.TryOpenIndexed | AprilTagTrackers/tracker/VideoCapture.cpp:107-114 | for an index, the pipeline first where the backend allows it, then the device |
| VideoCapture.VideoCapture.SetCaptureOptions | AprilTagTrackers/tracker/VideoCapture.cpp:129-153 | the property writes are exactly `Options`, in order |
| VideoCapture.VideoCapture.TryOpen | AprilTagTrackers/tracker/VideoCapture.cpp:68-83 | succeeds exactly when the last request opened, and only then writes the options; an exception closes the capture and fails |
| VRDriver.ParseResponse | AprilTagTrackers/tracker/VRDriver.cpp:53-62 | accepted only when the reply's first word is the expected name, and then every out-argument receives a value of its own kind, in order |
| VRDriver.NoResponseIffBlank | AprilTagTrackers/tracker/VRDriver.cpp:59 | the reply is "no response" exactly when it is white space only |
| VRDriver.MismatchQuotesReply | AprilTagTrackers/tracker/VRDriver.cpp:60 | a reply under another name is a failure that quotes the whole reply |
| VRDriver.ParseServerReply | AprilTagTrackers/tracker/VRDriver.cpp:53-62 | a reply written as `name arg...` is accepted under that name and fills the out-arguments with the arguments as printed |
| VRDriver.AcceptsUpdated | AprilTagTrackers/tracker/VRDriver.cpp:65 | `" updated"` is accepted as "updated" |
| VRDriver.RejectsOtherName | AprilTagTrackers/tracker/VRDriver.cpp:66 | `" updated"` is refused as "idinvalid" |
| VRDriver.ReadsOutId | AprilTagTrackers/tracker/VRDriver.cpp:67-69 | `" foo 12"` read as "foo" stores 12 in the out-argument |
| VRDriver.SpaceBeforeReply | AprilTagTrackers/tracker/VRDriver.cpp:56-58 | a leading space changes neither the first word nor whether the reply is accepted |
| VRDriver.Acknowledged | AprilTagTrackers/tracker/VRDriver.cpp:97 | an acknowledgement is accepted exactly when the reply parses under its name with no arguments |
| VRDriver.CountChecked | AprilTagTrackers/tracker/VRDriver.cpp:121-129 | the count is returned exactly when it is not negative and the driver's version is compatible with the expected one |
| VRDriver.TrackerCountAccepted | AprilTagTrackers/tracker/VRDriver.cpp:115-130 | a non-negative count is accepted exactly when the version is compatible, otherwise refused with both versions named |
| VRDriver.NegativeCountRefused | AprilTagTrackers/tracker/VRDriver.cpp:121 | a negative count is refused with the count named, whatever the version |
| VRDriver.PoseChecked | AprilTagTrackers/tracker/VRDriver.cpp:153-154 | the pose is returned exactly when the echoed id is the one asked for, and is valid exactly when the status is 0 |
| VRDriver.TrackerReplyRead | AprilTagTrackers/tracker/VRDriver.cpp:145-155 | the reply for the tracker asked for gives its pose as printed, valid exactly for status 0; any other id is refused |
| VRDriver.Drop | AprilTagTrackers/tracker/VRDriver.cpp:96 | the script with its first replies used up answers from the next one on |
| VRDriver.Bridge.constructor | AprilTagTrackers/tracker/VRDriver.cpp:78 | the bridge has sent nothing and holds its replies |
| VRDriver.Bridge.SendRecv | AprilTagTrackers/tracker/VRDriver.cpp:96 | the command is appended to what was sent and the next reply is returned and used up |
| VRDriver.CountConfirmed | AprilTagTrackers/tracker/VRDriver.cpp:89 | the second count is accepted exactly when it equals the number of trackers configured, otherwise refused as not all registered |
| VRDriver.AddFrom | AprilTagTrackers/tracker/VRDriver.cpp:83-87 | the "addtracker" steps end within the registration's commands |
| VRDriver.AddFromStops | AprilTagTrackers/tracker/VRDriver.cpp:83-87 | the "addtracker" steps stop at the first refusal and only there |
| VRDriver.RegistrationStops | AprilTagTrackers/tracker/VRDriver.cpp:77-91 | a registration sends its commands up to the first refusal, and succeeds exactly when it sent all of them and the last was accepted |
| VRDriver.RegisterCommands | AprilTagTrackers/tracker/VRDriver.cpp:77-91 | the first `n` commands of a registration, `n` of them |
| VRDriver.VRDriver.constructor | AprilTagTrackers/tracker/VRDriver.cpp:77-79 | the driver holds its bridge and the expected version |
| VRDriver.VRDriver.UpdateTracker | AprilTagTrackers/tracker/VRDriver.cpp:93-98 | sends "updatepose" with id, pose, frame time and smoothing, and accepts exactly the "updated" acknowledgement |
| VRDriver.VRDriver.CmdUpdateStation | AprilTagTrackers/tracker/VRDriver.cpp:100-105 | sends "updatestation" with id and pose, and accepts exactly "updated" |
| VRDriver.VRDriver.SetSmoothing | AprilTagTrackers/tracker/VRDriver.cpp:107-113 | sends "settings 120" with the factor and the additional smoothing, and accepts exactly "changed" |
| VRDriver.VRDriver.CmdGetTrackerCount | AprilTagTrackers/tracker/VRDriver.cpp:115-130 | sends "numtrackers" and returns the count exactly when `CountChecked` accepts the reply |
| VRDriver.VRDriver.CmdAddTracker | AprilTagTrackers/tracker/VRDriver.cpp:132-137 | sends "addtracker" with name and role, and accepts exactly "added" |
| VRDriver.VRDriver.CmdAddStation | AprilTagTrackers/tracker/VRDriver.cpp:139-143 | sends "addstation" and accepts exactly "added" |
| VRDriver.VRDriver.GetTracker | AprilTagTrackers/tracker/VRDriver.cpp:145-155 | sends "gettrackerpose" with id and time offset, and returns what `TrackerOf` reads from the reply |
| VRDriver.VRDriver.AddTrackers | AprilTagTrackers/tracker/VRDriver.cpp:83-87 | one "addtracker" per configured tracker in order, stopping at the first refusal, with the commands and replies that `AddFrom` gives |
| VRDriver.VRDriver.Confirm | AprilTagTrackers/tracker/VRDriver.cpp:89-90 | the count query again and then "addstation", as `ConfirmOf` gives |
| VRDriver.VRDriver.Register | AprilTagTrackers/tracker/VRDriver.cpp:77-91 | the whole registration: the commands sent and replies used are those of `RegistrationOf`, and its result |

## Left out

- Threads, locks, condition variables and the GUI are left out. Each model call is one sequential step. This covers the detached thread `Connection::StartConnection` starts (`DriverConnection.Connection.StartConnection` runs its handshake inline), the camera and tracking threads of `Tracker.cpp` and `AprilTagTrackers.cpp`, the wx dialogs, and the transfer thread of the PlayStation Eye driver.
- Pose estimation (ArUco/AprilTag detection, `solvePnP`, `Rodrigues`, OpenVR's own pose calls) calls into libraries that are not part of this model. Estimates and driver poses are inputs to `MainLoop`, `TrackerLoop` and `PlayspaceCalibrator`.
- `sqrt`, `atan2`, `sin` and `cos` are parameters, with only the properties the proofs need. Quaternion magnitude, `UnitQuaternion`, `toEuler`, the Euler-angle and array constructors of `Quaternion.hpp`, and `EulerAnglesToRotationMatrix` are not modelled, because they are made of these functions.
- Floating point is modelled as exact real arithmetic: rounding, infinities and NaN are not modelled, and `cv::Point3f` single precision is not modelled either.
- C++ `int` overflow is not modelled outside the places that check for it (`from_chars` range errors in `VideoCapture.AddressToIndex` and the debug driver's id parsing).
- SemVer.Parse: version components are unbounded integers; the source's `int` components can overflow on long digit runs, and the model does not capture that.
- TrackerLoop.Tracker.StartCamera and LegacyTracker.Tracker.StartCamera take only whether the capture opened. Two things are left out: the address parsing of `AprilTagTrackers/Tracker.cpp:184-221`, which `VideoCapture` models separately, and the exception `std::stoi` throws on a non-numeric camera address (`AprilTagTrackers/AprilTagTrackers.cpp:89-91`).
- TrackerLoop.TrackerStatus.Found and LegacyTracker.Found exclude a zero window bound on an empty window: the window would end up empty, and the source then reads before its start. A negative bound is modelled, as the `size_t` comparison makes it: nothing is ever dropped.
- PlayspaceCalibrator.ScaleFor: a zero reference distance keeps the old scale. The source (`AprilTagTrackers/tracker/PlayspaceCalib.hpp:176`) divides and gets infinity or NaN.
- PlayspaceCalibrator.RefinedScale: a zero estimated distance keeps the scale. The source (`AprilTagTrackers/tracker/PlayspaceCalib.hpp:239`) divides by it.
- MainLoop.BlendedPosition: an estimate at the camera centre is kept as it is. The source divides by its zero distance and gets NaN.
- MarkerHelpers.Rodr2Quat requires a non-zero rotation vector. For the zero vector, `AprilTagTrackers/Helpers.cpp:106-122` divides by zero.
- Quaternions.Inverse, Quaternions.Quaternion.DivAssign and Quaternions.Quaternion.QuatRotation require a non-zero norm. The source divides by the norm unguarded.
- CvHelpers.ConstrainSize requires a non-zero shorter side, which the source divides by unguarded.
- TrackerLoop.Tracker.RefineScale requires a non-zero estimated distance, which the source divides by unguarded.
- StrongType.StrongRatio.DivAssign: division by a converted zero is undefined in C++ and is excluded.
- CommandStream.ReadReal reads fixed notation only (sign, digits, point, digits), which is what the program writes. The stream's exponents, `inf` and `nan` are not read.
- DebugDriver.Mean models the integer branch of `Average` (`AprilTagTrackers/debug_driver/main.cpp:115-123`). The `double` branch (lines 124-131) is not modelled.
- VideoCapture.VideoCapture.SetCaptureOptions: `AprilTagTrackers/tracker/VideoCapture.cpp:134` tests `#ifdef ATT_OS_LINUX` where line 120 tests `#if ATT_OS_LINUX`. The model reads both as one platform switch, so a build that defines the macro as 0 is not modelled. `LogCaptureOptions` only logs and is left out.
- VRDriver.VRDriver.AddTrackers: `AprilTagTrackers/tracker/VRDriver.cpp:86` calls `AddTracker(index++, tracker.role)`, but the only declaration (`AprilTagTrackers/tracker/VRDriver.hpp:29`) takes a name and a role as strings, and no overload taking an index exists. The names and roles sent are therefore parameters (`VRDriver.TrackerEntry`), and the model claims nothing about how the program spells them.
- Keys: `TrackerRoleConfig.Keys` is written out as the four names of `AprilTagTrackers/config/TrackerUnit.hpp:16-20`. It is not proved equal to what `EnumReflect.ParseEnumKeys` reads from the stringised enum.
- ImageDrawing.CreateXyGridLines takes natural sizes and requires a positive subdivision, where the source takes `int`. Its only caller passes 10 and sizes rounded from non-negative lengths.
- ValidatorProxy.ValidatorProxy.Assign, Set and Read require a validator, because a default-constructed proxy's function pointer is null and calling it is undefined.
- The `Serial` specialisations of `AprilTagTrackers/utils/StrongType.hpp:166-177` and `ReinterpretVector` are not modelled. The SemVer `Serial` specialisation is not modelled either: it writes through a formatting API the file writer does not have.
- The multi-camera position and angle nudges of `AprilTagTrackers/Tracker.cpp:1644-1659` are the same code as `PlayspaceCalibrator.PositionStep`, which models them, including the x-threshold finding below.
- The modal dialog `StartTrackerCalib` opens resets `mainThreadRunning` (GUI) and is not modelled.
- `EnsureIsCalibrated` (`AprilTagTrackers/tracker/TrackerUnit.hpp:92-97`) is unfinished: it always reaches `utils::Unreachable()`. It is not modelled.
- The CL Eye driver and Windows registry branches of `AprilTagTrackers/ps3eyed/PSEyeVideoCapture.cpp` are not modelled: their property get/set, the multi-camera `CLMULTI` domains and the `usingCLEyeDriver` fallback. Neither are `retrieveFrame`/`grabFrame` image conversion and `Debayer` demosaicing.
- Ps3EyeCamera.Camera.Init: of the bridge registers `init` writes, only the frame-rate byte and the stream byte are followed. The bridge reset, the sensor address, the LED and the rest of `ov534_reg_initdata` (video format and data ports) are not modelled. The sensor's reset values are the camera's `powerOn` registers, which the sensor fixes. Of the sensor registers `ov772x_reg_initdata` writes, the contract states the bytes of those the model uses (rate, automatic controls, white balance, flip, QVGA de-noise); the body writes the whole table.
- Ps3EyeCamera.Camera.Start: the mode tables `start` sends first (`bridge_start_vga`/`qvga` and `sensor_start_vga`/`qvga`) and the LED are not modelled. Its contract states the rate and control registers it writes after them and the stream byte, and nothing about the registers only those tables write.
- PsEyeCapture.Ps3EyeCapture.SetProperty: converting the `double` value to an integer is modelled as rounding over all integers. C++ leaves out-of-range conversions undefined.
- The installer's JSON is an abstract settings value: formatting and key order on write are not modelled. `lower()` is modelled on ASCII letters only. Paths use the POSIX generic format: `/` is the only separator, and there are no drive letters or symbolic links.
- LegacyParameters.Deserialize: the value OpenCV's `>>` reads from a map node into a leaf is the parameter `fromMap`; OpenCV's conversion of a non-scalar node for each value type is not part of this model.
- Installer.Move refuses every destination that exists. A file moved onto an existing file replaces it in Python (`os.rename` on POSIX, `copy2` after a failed rename); `install.py` only moves a folder, so this case is not modelled.
- Copying a tree into a folder inside itself is modelled as a failure with nothing written; the partial copy Python's `copytree` would leave is not modelled. The folder dialogs, console colours and `input()` prompts are inputs (answers and choices).

## Findings

| source | as written | input that shows it | evidently intended | confidence | as-written member | corrected member |
|---|---|---|---|---|---|---|
| AprilTagTrackers/tracker/PlayspaceCalib.hpp:222 | the x step is limited when its magnitude exceeds 0.01, and is then set to a full 0.1 with its sign | an x error giving a step of 0.05: x moves by 0.1, while y or z with the same error would move by 0.05 | the 0.1 threshold that y and z use, so no coordinate moves further than a tenth of its error | not executed | PlayspaceCalibrator.LimitStepXOvershoots | PlayspaceCalibrator.PositionStepCorrected |
| AprilTagTrackers/debug_driver/main.cpp:536 | the error reply quotes `received`, which has been moved into the stream two statements earlier and is empty | the message " bogus": the reply is `command '' error: unexpected command: bogus` | quote the trimmed message: `command 'bogus' error: ...` | not executed | DebugDriver.PollReplyDropsCommand | DebugDriver.ReportedQuotesCommand |
| AprilTagTrackers/debug_driver/main.cpp:361-362 | the time left is truncated to whole milliseconds and passed to `cv::waitKey` | 15.5 ms of a 16 ms frame used: `waitKey(0)`, which waits for a key without bound | wait at least one millisecond whenever time is left | not executed | DebugDriver.WaitEndOfFrameStalls | DebugDriver.WaitEndOfFrameCorrected |
| AprilTagTrackers/Parameters.h:129 | a nested node opens its map only when its name is empty | a node `n` holding a leaf `a` = 5: the file holds `a` at the top level and no `n`, and reading it back resets `a` to its default 0 | open the map when the name is not empty | not executed | LegacyParameters.NestedRoundTripFailsAsWritten | LegacyParameters.NestedRoundTripCorrected |
| AprilTagTrackers/ps3eyed/PSEyeVideoCapture.cpp:360-361 | the sharpness setter computes the scaled value but stores the unscaled one | set sharpness to 100: it reads back as 400 | store the scaled value, as the gain does | not executed | PsEyeCapture.SharpnessRoundTripAsWritten | PsEyeCapture.SharpnessRoundTripCorrected |
| Installer/install.py:41 | asks whether SteamVR is installed when its default folder IS a directory | SteamVR present at the default folder and the answer "no": the script stops; with the folder absent it goes on with the missing folder | ask only when the folder is missing, as `installer.py:40` does | not executed | Installer.SteamVrInvertedAsWritten | Installer.SteamVrAsksOnlyWhenMissing |
| AprilTagTrackers/ps3eyed/ps3eye_capi.cpp:57-58 | `ps3eye_t`'s constructor calls `start` whether or not `init` succeeded | a camera whose USB device cannot be opened: `init` fails with no handle, and `start` then writes registers through the missing handle and buffer | start the camera only when `init` succeeds | not executed | Ps3EyeCApi.OpenCameraAsWritten | Ps3EyeCApi.OpenCamera |
