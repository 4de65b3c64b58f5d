# HekMastersC signal router, modelled in Dafny

HekMastersC is a Crestron SIMPL# Pro program that links an XPanel touch panel to a
projector reached through a TCP client (`TCPClientHelper`). Two event handlers of
its `ControlSystem` class form the router:

- `MyXpanel_SigChange` takes a panel signal (join number, kind, value) and updates
  the panel's feedback joins. Joins 1-3 pulse and set the page title. Join 10 toggles.
  Joins 12-14 are interlocked. Join 11 follows the button. On a press, joins 20-24 ask
  the client to connect, to disconnect, or to send one of three command frames.
- `MyClient_tcpHelperEvent` takes a client event. A `"STATUS"` event drives the
  connected / not-connected pair of joins. An `"RX"` event shows the raw reply. Its
  `PON`, `POF` and `LH?` rules then set the power pair or publish the lamp hours.

The model has these parts:

- `text.dfy` (module `Text`): the .NET string operations the router uses
  (`Contains`, `TrimStart`, `TrimEnd`, `IndexOf`, `Substring`). It also holds the
  lamp-hours extraction `LampHours` and its round trip.
- `frames.dfy` (module `Frames`): the three command frames and their shape.
- `router.dfy` (module `Router`): both handlers as functions on a value of the
  panel's feedback (`Feedback`). Each function's contract states what it writes and
  what it leaves alone.
- `control_system.dfy` (module `HekMasters`): class `ControlSystem`. The panel's
  `BooleanInput` / `StringInput` tables are arrays that the two handler methods
  assign in place, in the source's order. Requests to the client and pulses on the
  panel go into a log, `effects`. Each method is proved to leave the panel and the
  log exactly as the matching `Router` function says.
- `session.dfy` (module `Session`): handlers invoked one after another, each to
  completion (`Run`). It proves what holds after any such run: interlock
  exclusivity, complementarity of the connection pair, toggle parity, the pairs that
  are never both high, and the frames that can be sent.

Joins are indexed by their number; slot 0 of each table is never used. The panel
must have at least 25 digital and 4 serial joins (`Feedback.Fits`,
`ControlSystem.Valid`), because the handlers write up to digital join 24 and serial
join 3.

At start-up joins 20 and 21 are both low (`Router.PowerUp`). The connected /
not-connected pair is complementary only from the first STATUS event on
(`Session.LastStatusDecides`), as in the code.

Three details of the code matter for the model:

- The code applies `TrimStart('\x02')` and `TrimEnd('\x03')`. These remove every
  leading STX and every trailing ETX, not just one (HekMastersC/ControlSystem.cs:116).
- The `PON` and `POF` tests are two independent `if`s, so `POF` wins when both occur
  (HekMastersC/ControlSystem.cs:103-112).
- The `LH?` rule is an `else if` on the `POF` test only. A reply containing `PON` and
  `LH?` therefore applies both rules (HekMastersC/ControlSystem.cs:108-119).

## Model

| member | source | states |
|---|---|---|
| Text.Contains | HekMastersC/ControlSystem.cs:103-114 | the ordinal substring test of the reply rules: the empty token is always contained, a token longer than the text never is, and every character of a contained token occurs in the text |
| Text.AbsentChar | HekMastersC/ControlSystem.cs:108 | a text without one of the characters of a token does not contain the token (how a reply is shown to hold no POF) |
| Text.TrimStart | HekMastersC/ControlSystem.cs:116 | the result is the suffix of the text left after every leading occurrence of the character is removed, and it does not start with that character |
| Text.TrimEnd | HekMastersC/ControlSystem.cs:116 | the result is the prefix of the text left after every trailing occurrence of the character is removed, and it does not end with that character |
| Text.IndexOf | HekMastersC/ControlSystem.cs:117 | -1 exactly when the character is absent; otherwise the index of its first occurrence |
| Text.AfterFirst | HekMastersC/ControlSystem.cs:117 | the result is the part of the text after its first '?', or the whole text when it has no '?' |
| Text.LampHoursInReply | HekMastersC/ControlSystem.cs:116-117 | the lamp hours LampHours extracts are a contiguous piece of the reply, and never end in ETX |
| Text.LampHoursOfReply | HekMastersC/ControlSystem.cs:116-118 | round trip: any number of STX, a '?'-free echo, '?', a value, any number of ETX gives back exactly the value |
| Text.LampHoursExample | HekMastersC/ControlSystem.cs:114-118 | the reply "\x02LH?4821\x03" yields "4821" |
| Frames.Frame | HekMastersC/ControlSystem.cs:187-194 | a command frame starts with STX and ends with ETX, has length 8 + token length, and gives back the token between its header (STX, 0x01, 0x00, 0x00) and trailer (0x00, 0x00, 0x00, ETX) |
| Frames.FrameDelimited | HekMastersC/ControlSystem.cs:187-194 | for a token without markers, STX occurs only first and ETX only last in its frame |
| Frames.CommandFramesAreFrames | HekMastersC/ControlSystem.cs:187-194 | the three literal frames sent for joins 22, 23 and 24 are the frames of "PON", "POFF" and "LH?" |
| Router.PowerUp | HekMastersC/ControlSystem.cs:71 | at start-up every digital feedback join is low and every serial one empty |
| Router.PageTitle | HekMastersC/ControlSystem.cs:144-152 | the title is "Home MF Page", "Projector Page" or "Phonebook" exactly when join 1, 2 or 3 was pressed, so each navigation button shows its own page |
| Router.PressFeedback | HekMastersC/ControlSystem.cs:140-174 | a press of 1-3 pulses that join low, sets the page title and requests one pulse; 10 inverts join 10; 12-14 leave exactly the pressed one of the three high; no other join changes |
| Router.DeviceCommand | HekMastersC/ControlSystem.cs:178-196 | a press of 20 asks to connect, of 21 to disconnect, of 22/23/24 to send the PON/POFF/LH? frame, each exactly then; at most one request |
| Router.OnSig | HekMastersC/ControlSystem.cs:127-202 | only digital signals act; join 11 follows its value on press and release; any other release changes nothing and requests nothing; a press runs both dispatches, pulses first |
| Router.OnStatus | HekMastersC/ControlSystem.cs:92-96 | joins 20 and 21 become the connection flag and its negation (complementary); nothing else changes |
| Router.OnRx | HekMastersC/ControlSystem.cs:98-120 | the raw reply is always shown on serial join 2; POF sets power-off (winning over PON), PON alone sets power-on; lamp hours are published on serial join 3 only for LH? without POF; only joins 22, 23 and serial joins 2, 3 can change |
| Router.OnClientEvent | HekMastersC/ControlSystem.cs:90-121 | STATUS and RX events dispatch to their rules; any other tag changes nothing |
| Router.PowerOffShadowsLampHours | HekMastersC/ControlSystem.cs:108-119 | every reply holding both POF and LH? sets power-off and leaves the lamp hours unchanged |
| Router.PowerOnWithLampHours | HekMastersC/ControlSystem.cs:103-119 | every reply holding PON and LH? but no POF sets power-on and publishes the lamp hours extracted from it |
| Router.PowerOffShadowsExample | HekMastersC/ControlSystem.cs:108-119 | the reply "POF LH?1200" sets power-off and leaves the lamp hours unchanged |
| Router.PowerOnWithLampHoursExample | HekMastersC/ControlSystem.cs:103-119 | the reply "\x02PON LH?1200\x03" sets power-on and publishes "1200" |
| HekMasters.ControlSystem.constructor | HekMastersC/ControlSystem.cs:71-82 | the panel starts all low and empty, with no requests logged |
| HekMasters.ControlSystem.PulseJoin | HekMastersC/ControlSystem.cs:143 | a pulse leaves the join low and is logged |
| HekMasters.ControlSystem.OnSigChange | HekMastersC/ControlSystem.cs:127-202 | the in-place handler leaves the panel and the request log exactly as Router.OnSig says |
| HekMasters.ControlSystem.PressDispatch | HekMastersC/ControlSystem.cs:140-174 | the first switch, run in place, leaves the panel and the log as Router.PressFeedback says |
| HekMasters.ControlSystem.ProjectorDispatch | HekMastersC/ControlSystem.cs:178-196 | the second switch appends exactly Router.DeviceCommand's request to the log |
| HekMasters.ControlSystem.OnTcpHelperEvent | HekMastersC/ControlSystem.cs:90-121 | the in-place handler leaves the panel as Router.OnClientEvent says and requests nothing |
| Session.Run | HekMastersC/ControlSystem.cs:90-202 | handlers run one after another keep the size of both feedback tables |
| Session.StepKeepsInterlockJoins | HekMastersC/ControlSystem.cs:127-202 | any event but a press of 12-14 leaves joins 12-14 unchanged |
| Session.NoInterlockPressKeeps | HekMastersC/ControlSystem.cs:127-202 | a run with no press of 12-14 leaves joins 12-14 unchanged |
| Session.LastInterlockPressSelects | HekMastersC/ControlSystem.cs:159-173 | after a run, the last pressed of 12-14 is the only one of the three high (interlock exclusivity) |
| Session.NoStatusKeeps | HekMastersC/ControlSystem.cs:90-202 | a run with no STATUS event leaves joins 20 and 21 unchanged |
| Session.LastStatusDecides | HekMastersC/ControlSystem.cs:92-96 | after a run, joins 20 and 21 hold the last STATUS flag and its negation (complementarity) |
| Session.SigKeepsSafe | HekMastersC/ControlSystem.cs:127-202 | no panel signal makes two of 12-14, both of 20/21, or both of 22/23 high |
| Session.ClientEventKeepsSafe | HekMastersC/ControlSystem.cs:90-121 | no client event makes two of 12-14, both of 20/21, or both of 22/23 high |
| Session.RunKeepsSafe | HekMastersC/ControlSystem.cs:90-202 | no run makes two of 12-14, both of 20/21, or both of 22/23 high |
| Session.SafeFromPowerUp | HekMastersC/ControlSystem.cs:71-82 | from start-up, every run keeps those pairs apart |
| Session.StepToggle | HekMastersC/ControlSystem.cs:155-157 | one event inverts join 10 exactly when it is a press of join 10 |
| Session.ToggleFollowsPressParity | HekMastersC/ControlSystem.cs:155-157 | after a run, join 10 is inverted exactly when it was pressed an odd number of times |
| Session.ToggleTwiceRestores | HekMastersC/ControlSystem.cs:155-157 | two presses of join 10 restore the whole panel and request nothing |
| Session.RunTransmitsCommandFrames | HekMastersC/ControlSystem.cs:186-195 | every frame sent in a run is the PON, POFF or LH? frame |

## Left out

- `TCPClientHelper` is not part of this model. Its connection, buffering and inbound
  frame parsing are not modelled. `Connect()`, `Disconnect()` and the `TX`
  assignment appear only as requests in the `effects` log. So the model states
  none of these: the round trip of a frame through the client's parser, the
  buffering of partial frames, or what a send does while disconnected.
- The timing of `Pulse()`, a panel-library call, is not modelled. It is a logged
  `Pulse` request that leaves the join low.
- The constructor's thread limit and event subscriptions are not modelled, and
  neither is panel registration in `InitializeSystem`. They are host set-up. The
  constructor of `ControlSystem` stands in for the panel's start-up state.
- `ErrorLog` and `CrestronConsole` output are not modelled.
- The Ethernet, program-status and system event handlers are not modelled. Their
  branches are empty.
- The UI callback thread and the socket callback thread can run concurrently. The
  model treats each handler invocation as atomic and runs them in sequence.
- Strings are sequences of Unicode scalar values. A UTF-16 string holding a lone
  surrogate has no counterpart, and neither has a null `RX` text (on which the
  code would throw at HekMastersC/ControlSystem.cs:103 after showing it). The
  projector protocol is ASCII, so neither arises in the modelled replies.
- An XPanel's actual join count is not stated in the source, so the model takes it
  as a constructor parameter with the minimum the handlers need.
