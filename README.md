# Gesture-based drone control: telemetry, control rules and stabilizer

A Dafny model of the core of a Unity drone simulator steered by a motion-capture
system. Four hand markers are tracked; their positions arrive as UDP text
datagrams of the form `Marker Hand<k>: X=<x> Y=<y> Z=<z>`. The drone controller
(`DroneController.cs`) runs a background receive loop that parses each datagram
and stores it in one of four marker slots. Each frame it turns the marker
heights `z1`..`z4` into a movement direction, a lift, a yaw rate and tilt
targets. A separate stabilizer (`Assets/DroneStabilizer.cs`) applies a
corrective torque when roll or pitch exceeds a limit.

Modules:

- `Wrappers`, `Vectors`: `Option`/`Result` and Unity's `Vector3` over the reals.
- `Text`: the .NET string operations the listener uses, with ordinal meaning:
  `StartsWith`, `Replace(p, "")` (`RemoveAll`), `Trim`, `Split(char)`. `Join`
  is their inverse; `SplitJoin` and `JoinSplit` prove the round trip both ways.
- `Numbers`: `ParseNumber` stands in for `float.TryParse` on plain decimal
  text. `FormatDecimal` writes such text, and `ParseFormat` proves the round trip.
- `Telemetry`: one pass of the receive loop on values. `Decode` checks the
  prefix, strips and trims, splits into three tokens and parses the text after
  each `=`. `Step` commits the outcome to the listener state (counter `i`, the
  four slots, `viconX/Y/Z`, `receivedData`). `Run` folds `Step` over a sequence
  of datagrams. `WellFormed`/`Reading` state the protocol directly.
- `Drone`: class `DroneController` with the source's fields (`x1`..`z4`,
  `viconX/Y/Z`, `receivedData`, the tuning fields). `ListenForData` runs the
  loop over a finite sequence of datagrams. `HandleDatagram`, `HandlePayload`,
  `ParseAndStore` and `Store` are the loop body, split at the source's natural seams. `Update`
  makes the frame's decision. Each method is proved against the `Telemetry`
  and `Control` functions.
- `Control`: `Decide` is the if-chain of `Update`. `DecideIsRuleLists` shows it
  equals ordered rule lists: "last match wins" for the overwriting `if`s and
  "first match wins" for the yaw `else if`. The other lemmas say what the rules mean.
  `Decide` takes only the four heights, the two keyboard axes and the tuning
  fields. Evaluating it twice on unchanged inputs therefore gives the same
  command, and the x and y coordinates of the markers never influence it.
- `Stabilizer`: `NormalizeAngle`, `Mathf.Sign`/`Abs`, the tilt test, the
  torque vector and one frame of the stabilizer's `Update`.

Points where the code's behaviour is easy to misread:

- The prefix carries the marker number (`"Marker Hand{i + 1}: "`), so a
  payload for another marker is rejected (`PrefixNamesMarker`). After a lost
  datagram the listener skips payloads until the expected marker comes round
  again, and the reading always lands in the marker its payload names
  (`AcceptedSlotMatchesName`).
- The value of a token is `token.Split('=')[1]`: the text between the first
  and the second `=`. Text after a second `=` is ignored rather than
  rejected.
- A token without `=` makes the indexing throw. The generic `catch` then
  drops the datagram. The model calls this `FieldFormatError`.
- A failed `float.TryParse` stores 0 in its `out` argument, so `viconX/Y/Z`
  change even on a dropped datagram. The marker slots and the counter never do.
- The receive loop never exits: every exception, a failed receive included,
  is caught and the loop goes on.

## Model

| member | source | states |
|---|---|---|
| Text.StartsWith | DroneController.cs:119 | ordinal prefix test; see StartsWithConcat, PrefixNamesMarker |
| Text.RemoveAll | DroneController.cs:126 | `Replace(p, "")`: the left-to-right, non-overlapping removal of `p`; the result is never longer than the input; see RemoveAllAbsent, RemoveAllLeading |
| Text.Trim | DroneController.cs:126 | `Trim()`: TrimEnd of TrimStart; see TrimStart, TrimEnd, TrimUnchanged |
| Text.TrimStart | DroneController.cs:126 | the result is a suffix of the input, everything dropped is white space, and it does not start with white space |
| Text.TrimEnd | DroneController.cs:126 | the result is a prefix of the input, everything dropped is white space, and it does not end with white space |
| Text.RemoveAllAbsent | DroneController.cs:126 | `Replace(p, "")` leaves a string unchanged when the first character of `p` does not occur in it |
| Text.RemoveAllLeading | DroneController.cs:126 | a leading occurrence of the prefix is removed and the scan continues after it |
| Text.TrimUnchanged | DroneController.cs:126 | a string that neither starts nor ends with white space is its own trim |
| Text.Split | DroneController.cs:127 | `Split(' ')` always gives at least one piece and no piece contains the separator |
| Text.JoinSplit | DroneController.cs:127 | joining the pieces of a split with the separator gives back the original string |
| Text.SplitJoin | DroneController.cs:127 | splitting the join of separator-free pieces gives back exactly those pieces, empty ones included |
| Numbers.ParseNumber | DroneController.cs:137-139 | the definition standing in for `float.TryParse`; a result is only ever produced for non-empty text; see ParseDecimalText, ParseFormat |
| Numbers.ParseFormat | DroneController.cs:137-139 | the parser standing in for `float.TryParse` reads back every decimal number from the text `FormatDecimal` writes |
| Numbers.ParseDecimalText | DroneController.cs:137-139 | every text of the form sign (none, `-` or `+`), integer digits, optionally a point and fraction digits, with at least one digit, parses to the value its digits denote, negated after `-`; `+5`, `007`, `.5` and `5.` included |
| Numbers.UnsignedSplit | DroneController.cs:137-139 | the unsigned text `ip` or `ip.fp` of digits splits at `.` into `[ip]` or `[ip, fp]`, is not empty and does not start with a sign |
| Numbers.ParseNumberOf | DroneController.cs:137-139 | a text whose part after an optional sign splits at `.` into all-digit pieces with one digit in all parses to the value of those digits, negated after `-` |
| Telemetry.MarkerPrefix | DroneController.cs:118 | the expected prefix `"Marker Hand{i + 1}: "`; it starts with `M`; see PrefixNamesMarker |
| Telemetry.FieldValue | DroneController.cs:137-139 | `token.Split('=')[1]`, or nothing when the token has no `=`; see FieldToken, ParseFieldsFormatError |
| Telemetry.Tokens | DroneController.cs:126-127 | the prefix removed, trimmed and split at spaces; see DecodeFieldCount, EncodeTokens |
| Telemetry.ParseFields | DroneController.cs:137-139 | the three short-circuiting `TryParse` calls and what they leave in viconX/Y/Z; see ParseFieldsFormatError, ParseFieldsParseError, ParseFieldsEncoded |
| Telemetry.Decode | DroneController.cs:118-139 | the definition of one datagram's decoding; see DecodeCorrect, DecodeFraming, DecodeFieldCount, DecodeEncode |
| Telemetry.Commit | DroneController.cs:112-161 | the definition of what a decoded datagram does to the listener state; see StepAccepted, StepRejected |
| Telemetry.Step | DroneController.cs:108-172 | the definition of one loop iteration, a failed receive included; see StepAccepted, StepRejected, AcceptedSlotMatchesName |
| Telemetry.CommitOverwritesReceived | DroneController.cs:112 | what `receivedData` held before a receive does not affect the outcome, since the receive overwrites it |
| Telemetry.StepReceived | DroneController.cs:111-167 | a received payload is first written to `receivedData` and then decoded against the counter and viconX/Y/Z held before, and committed |
| Telemetry.Run | DroneController.cs:104-173 | the definition of the loop over a finite sequence of datagrams: `Step` folded over them in order; see RunCounter, NthAcceptanceSlot, ListenForData |
| Telemetry.DecodeCorrect | DroneController.cs:118-139 | decoding succeeds if and only if the payload has the expected prefix, three tokens, and a parsable value after `=` in each; the result is then (token 0, token 1, token 2) as (x, y, z), also left in viconX/Y/Z |
| Telemetry.DecodeFraming | DroneController.cs:118-123 | a payload without `"Marker Hand{i+1}: "` is a framing error and leaves viconX/Y/Z unchanged |
| Telemetry.DecodeFieldCount | DroneController.cs:126-134 | a prefixed payload whose trimmed remainder does not split into 3 tokens is a field-count error with the token count, viconX/Y/Z unchanged |
| Telemetry.ParseFieldsFormatError | DroneController.cs:137-139 | token k is reported as lacking `=` exactly when it does and all earlier tokens parsed (the `&&` short-circuits) |
| Telemetry.ParseFieldsParseError | DroneController.cs:137-167 | the value of token k is reported unparsable exactly when it is and all earlier tokens parsed |
| Telemetry.PrefixNamesMarker | DroneController.cs:118-123 | a payload prefixed for a different marker number than the expected one is rejected as a framing error |
| Telemetry.AcceptedSlotMatchesName | DroneController.cs:118-161 | a payload prefixed for marker k+1 is accepted only while marker k+1 is expected, and it is stored in marker k+1 |
| Telemetry.StepAccepted | DroneController.cs:142-161 | an accepted datagram sets the counter to (i+1) mod 4, writes the reading into marker i+1 and into viconX/Y/Z, and leaves the other three markers unchanged |
| Telemetry.StepRejected | DroneController.cs:119-172 | every dropped datagram (receive failure, wrong prefix, token count not 3, missing `=`, unparsable value) leaves the counter and all twelve coordinates unchanged |
| Telemetry.StepCounter | DroneController.cs:108-172 | with the counter in 0..3, one iteration advances it to (i+1) mod 4 exactly when the datagram is accepted and leaves it unchanged otherwise |
| Telemetry.StepCountsAcceptances | DroneController.cs:108-172 | the loop body, with `Accepts` as its test, is a step that counts acceptances modulo 4, as StepCounter states for every state and datagram |
| Telemetry.FoldCounter | DroneController.cs:104-161 | for any step that counts acceptances modulo 4, its fold over a sequence leaves the counter at its start plus the number of acceptances, mod 4 |
| Telemetry.StepFoldCounter | DroneController.cs:104-161 | FoldCounter for the loop body: the fold of `Step` leaves the counter at its start plus the count of `Accepts`, mod 4 |
| Telemetry.RunCounter | DroneController.cs:104-161 | after any sequence of datagrams the counter is in 0..3 and equals its start plus the number of accepted datagrams, mod 4 |
| Telemetry.NthAcceptanceSlot | DroneController.cs:104-161 | starting from counter 0, the N-th accepted datagram is stored in marker ((N-1) mod 4)+1 |
| Telemetry.DecodeEncode | DroneController.cs:118-139 | decoding the sender's `Marker Hand{k}: X=.. Y=.. Z=..` text for the expected marker gives back the three numbers in order, negative and fractional values included |
| Telemetry.BodyShape | DroneController.cs:126-127 | the sender's `X=.. Y=.. Z=..` text for numeric values is not empty, starts with `X`, ends with the last digit of the z value, and contains no `M` |
| Telemetry.StripPrefix | DroneController.cs:119-126 | a payload made of an `M`-led prefix and a body without `M` and without white space at either end starts with the prefix, and `Replace(prefix, "").Trim()` gives back the body |
| Telemetry.SplitTokens | DroneController.cs:127 | the three `X=`, `Y=`, `Z=` tokens of numeric text, joined with spaces, split at spaces into exactly those tokens |
| Telemetry.EncodeTokens | DroneController.cs:118-127 | the sender's payload for marker k starts with the prefix of marker k, and stripping, trimming and splitting it gives the sender's three tokens |
| Drone.DroneController.constructor | DroneController.cs:9-22 | tuning starts at speed 5, liftForce 10, rotationSpeed 100; all coordinates and viconX/Y/Z start at 0 |
| Drone.DroneController.ListenForData | DroneController.cs:100-174 | running the loop from counter 0 over the datagrams leaves the markers, viconX/Y/Z and receivedData as the fold of `Step` gives them; the tuning fields are untouched |
| Drone.DroneController.HandleDatagram | DroneController.cs:108-172 | one loop iteration changes the fields and the counter exactly as `Step` does |
| Drone.DroneController.HandlePayload | DroneController.cs:118-167 | for the payload in `receivedData`, the prefix check, strip, trim, split and parsing change viconX/Y/Z, the markers and the counter exactly as `Commit` of `Decode` does |
| Drone.DroneController.ParseAndStore | DroneController.cs:137-167 | the three `TryParse` calls write viconX/Y/Z as far as they get, and on full success the reading is stored |
| Drone.DroneController.Store | DroneController.cs:142-161 | `i++` and the `switch` write viconX/Y/Z into marker i+1 only and set the counter to (i+1) mod 4 |
| Drone.DroneController.Update | DroneController.cs:39-90 | nothing is decided when the camera reference is missing; otherwise the command is the rule chain applied to z1..z4, the axes and the tuning fields |
| Control.Decide | DroneController.cs:58-90 | the definition: the if-chain of `Update`; see DecideIsRuleLists, Translation, Lift, YawExcludesTilt, TiltTargets, YawMovesSideways, ForwardExample |
| Control.LastMatchWins | DroneController.cs:61-64 | in a chain of overwriting `if`s, no firing rule keeps the default and otherwise the last firing rule decides |
| Control.LastMatchNone | DroneController.cs:61-64 | when no rule in the chain fires, the default is kept |
| Control.LastMatchAt | DroneController.cs:61-64 | when rule k fires and no later rule does, the outcome is the value of rule k |
| Control.LastMatchLast | DroneController.cs:61-64 | every firing rule that no later rule overrides gives the outcome |
| Control.DecideIsRuleLists | DroneController.cs:58-90 | the if-chain equals ordered rule lists: last-match for movez, movex, moveY and the tilt targets, first-match for the yaw rate, tilt only when no yaw test fires |
| Control.RulesExclusive | DroneController.cs:61-83 | forward and backward, right and left, ascend and descend, and yaw left and yaw right can never fire together |
| Control.Translation | DroneController.cs:58-64 | movez is 1 when `z1+15<z2 && z3+15<z4`, -1 in the mirrored case, else the Vertical axis; the same for movex with the Horizontal axis |
| Control.Lift | DroneController.cs:68-71 | moveY is liftForce when z1 > 1700, -liftForce when z1 == 0, and 0 otherwise |
| Control.YawExcludesTilt | DroneController.cs:78-90 | `z3+60<=z1 && z4+60<=z2` gives yaw -rotationSpeed, the mirrored test +rotationSpeed, a yaw leaves both tilt targets 0, and no yaw gives rate 0 |
| Control.TiltTargets | DroneController.cs:84-90 | with no yaw each tilt target is -10, 0 or 10: 10·movez about x and -10·movex about z when a translation test fired, else 0 |
| Control.YawMovesSideways | DroneController.cs:61-83 | a yaw to the left always comes with movex = -1, a yaw to the right with movex = 1 |
| Control.ForwardExample | DroneController.cs:58-90 | heights 0, 20, 0, 20 give forward movement, descent (z1 is 0), no yaw and tilt target 10 |
| Stabilizer.NormalizeAngle | Assets/DroneStabilizer.cs:60-65 | the definition; see NormalizeAngleRange, NormalizeAngleCanonical, NormalizeAngleIdempotent |
| Stabilizer.Abs | Assets/DroneStabilizer.cs:27 | `Mathf.Abs`: the result is non-negative and equals the argument or its negation |
| Stabilizer.Sign | Assets/DroneStabilizer.cs:47 | `Mathf.Sign`: 1 exactly for zero and positive arguments, -1 exactly for negative ones |
| Stabilizer.Tilted | Assets/DroneStabilizer.cs:27 | the definition of the trigger; see UpdateAppliesNonZeroTorque |
| Stabilizer.StabilizationTorque | Assets/DroneStabilizer.cs:43-53 | the definition; see TorqueComponents, TorqueDirection |
| Stabilizer.Update | Assets/DroneStabilizer.cs:17-31 | the definition of one frame; see UpdateAppliesNonZeroTorque, DefaultSettingsExample |
| Stabilizer.DefaultSettingsExample | Assets/DroneStabilizer.cs:5-65 | with the initial settings a roll reported as 300 degrees is corrected with torque -5 about x, and a roll of 40 with a pitch of 350 is left alone |
| Stabilizer.NormalizeAngleRange | Assets/DroneStabilizer.cs:59-65 | on [0, 360) the result lies in (-180, 180] and equals the angle or the angle minus 360 |
| Stabilizer.NormalizeAngleCanonical | Assets/DroneStabilizer.cs:59-65 | on [0, 360) the result is the unique angle in (-180, 180] that differs from the input by whole turns |
| Stabilizer.NormalizeAngleIdempotent | Assets/DroneStabilizer.cs:59-65 | on [0, 360) normalizing twice is normalizing once |
| Stabilizer.TorqueComponents | Assets/DroneStabilizer.cs:43-53 | torque.y is 0; torque.x is Sign(roll)·strength when abs(roll) > maxTiltAngle, else 0; likewise torque.z with pitch; every component is 0 or ±strength |
| Stabilizer.TorqueDirection | Assets/DroneStabilizer.cs:43-53 | for a positive strength a component is positive exactly when its angle is past the limit and not negative, and negative exactly when past the limit and negative |
| Stabilizer.UpdateAppliesNonZeroTorque | Assets/DroneStabilizer.cs:17-31 | with a non-zero strength, a torque is applied exactly when roll or pitch is past the limit, which is exactly when the computed torque is not zero |

## Left out

- Socket set-up, the broadcast flag, the background thread and closing the socket on quit (DroneController.cs:24-36, 177-180) are I/O and thread lifecycle. A receive is a `Datagram` that either carries text or failed.
- The loop is unbounded. It is modelled over any finite sequence of datagrams.
- UTF-8 decoding of the received bytes is left out. A datagram carries its text.
- The `Debug.Log*` calls are logging only.
- The listener thread and `Update` share the fields without synchronisation. The model runs them one after the other, so torn reads are not modelled.
- Numbers.ParseNumber: accepts only an optional sign, digits and at most one point. `float.TryParse` also accepts surrounding white space, exponents, thousands separators, culture-specific decimal symbols and the infinity and NaN symbols. Those are not modelled.
- Values are reals. The rounding of 32-bit floats (in parsing, in `z + 15` and in `z1 == 0`) is not modelled.
- Text.StartsWith: `StartsWith(string)` compares culture-sensitively. The model compares character by character, which agrees for the ASCII prefix except on culture-ignorable characters.
- The camera-relative movement vector, `Normalize` and scaling by `speed` (DroneController.cs:47-55, 66) are Unity vector maths. So are `rb.AddForce`, `transform.Rotate` and the `Quaternion.Lerp` tilt smoothing (DroneController.cs:76, 92-96). The command carries movex, movez, moveY, the yaw rate and the tilt targets.
- The stabilizer's `LerpAngle`/`Quaternion.Euler` target is never used (Assets/DroneStabilizer.cs:36-40). `rb.AddTorque` is a Unity call (Assets/DroneStabilizer.cs:56). `Stabilizer.Update` returns the torque it would apply.
- Scripts/CameraFollow.cs is not part of this model. It only smooths the camera transform.
