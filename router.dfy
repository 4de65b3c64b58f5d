/**
 * The signal router of the control system as functions on values: what one
 * panel signal or one client event does to the panel's feedback joins, and
 * which requests it makes of the projector client and of the panel.
 * Joins are addressed by their number; slot 0 of each table is never used.
 */
module Router {
  import opened Text
  import opened Frames

  /** Kind of a panel signal (digital, analog, serial). */
  datatype SigType = BoolSig | UShortSig | StringSig

  /** A panel input signal: its join number, kind and (digital) value. */
  datatype Sig = Sig(number: nat, kind: SigType, boolValue: bool)

  /** An event of the projector client: its message tag, connection flag and received text. */
  datatype ClientEvent = ClientEvent(message: string, connected: bool, rx: string)

  /** A request made of the outside world while handling an event. */
  datatype Effect =
    | Connect                 // the client opens its connection
    | Disconnect              // the client closes its connection
    | Transmit(tx: string)    // the client's TX is set to this frame
    | Pulse(join: nat)        // a momentary acknowledgement on a digital feedback join

  /** The panel's feedback tables: BooleanInput and StringInput, by join number. */
  datatype Feedback = Feedback(bools: seq<bool>, strings: seq<string>)
  {
    /** The panel has every join the router writes. */
    predicate Fits()
    {
      |bools| > LastDigitalJoin && |strings| > LastSerialJoin
    }
  }

  /** What handling one panel signal leaves behind. */
  datatype Reaction = Reaction(fb: Feedback, effects: seq<Effect>)

  const LastDigitalJoin: nat := 24
  const LastSerialJoin: nat := 3

  // Serial feedback joins
  const PageTitleJoin: nat := 1
  const RawTextJoin: nat := 2
  const LampHoursJoin: nat := 3
  // Digital joins
  const ToggleJoin: nat := 10
  const MomentaryJoin: nat := 11
  const ConnectedJoin: nat := 20
  const DisconnectedJoin: nat := 21
  const PowerOnJoin: nat := 22
  const PowerOffJoin: nat := 23

  /** The panel as it is at start-up: every digital join false, every serial join empty. */
  function PowerUp(digitalJoins: nat, serialJoins: nat): (fb: Feedback)
    ensures |fb.bools| == digitalJoins && |fb.strings| == serialJoins
    ensures forall j | 0 <= j < digitalJoins :: !fb.bools[j]
    ensures forall j | 0 <= j < serialJoins :: fb.strings[j] == ""
  {
    Feedback(seq(digitalJoins, _ => false), seq(serialJoins, _ => ""))
  }

  /** `a` and `b` have the same length and agree outside the joins in `written`. */
  predicate SameExcept<T(==)>(a: seq<T>, b: seq<T>, written: set<int>)
  {
    |a| == |b| && forall j | 0 <= j < |a| && j !in written :: a[j] == b[j]
  }

  predicate IsInterlockJoin(n: int)
  {
    12 <= n <= 14
  }

  predicate IsNavigationJoin(n: int)
  {
    1 <= n <= 3
  }

  /** The page label shown when navigation join `n` is pressed. */
  function PageTitle(n: nat): (title: string)
    requires IsNavigationJoin(n)
    ensures title == "Home MF Page" <==> n == 1
    ensures title == "Projector Page" <==> n == 2
    ensures title == "Phonebook" <==> n == 3
  {
    if n == 1 then "Home MF Page" else if n == 2 then "Projector Page" else "Phonebook"
  }

  /** The digital feedback joins a press of join `n` writes. */
  function PressWrites(n: nat): set<int>
  {
    if IsNavigationJoin(n) || n == ToggleJoin then {n}
    else if IsInterlockJoin(n) then {12, 13, 14}
    else {}
  }

  /**
   * The first dispatch on a press: navigation pulse and page title, the
   * toggle, and the three-way interlock.
   */
  function PressFeedback(fb: Feedback, n: nat): (r: Reaction)
    requires fb.Fits()
    ensures r.fb.Fits()
    ensures SameExcept(r.fb.bools, fb.bools, PressWrites(n))
    ensures IsNavigationJoin(n) ==>
      && !r.fb.bools[n]
      && SameExcept(r.fb.strings, fb.strings, {PageTitleJoin})
      && r.fb.strings[PageTitleJoin] == PageTitle(n)
      && r.effects == [Pulse(n)]
    ensures !IsNavigationJoin(n) ==> r.fb.strings == fb.strings && r.effects == []
    ensures n == ToggleJoin ==> r.fb.bools[n] == !fb.bools[n]
    ensures IsInterlockJoin(n) ==> forall j | IsInterlockJoin(j) :: r.fb.bools[j] == (j == n)
  {
    if IsNavigationJoin(n) then
      Reaction(Feedback(fb.bools[n := false], fb.strings[PageTitleJoin := PageTitle(n)]), [Pulse(n)])
    else if n == ToggleJoin then
      Reaction(fb.(bools := fb.bools[n := !fb.bools[n]]), [])
    else if IsInterlockJoin(n) then
      Reaction(fb.(bools := fb.bools[14 := n == 14][13 := n == 13][12 := n == 12]), [])
    else
      Reaction(fb, [])
  }

  /** The second dispatch on a press: the projector buttons. */
  function DeviceCommand(n: nat): (cmds: seq<Effect>)
    ensures |cmds| <= 1
    ensures n == 20 <==> cmds == [Connect]
    ensures n == 21 <==> cmds == [Disconnect]
    ensures n == 22 <==> cmds == [Transmit(Frame("PON"))]
    ensures n == 23 <==> cmds == [Transmit(Frame("POFF"))]
    ensures n == 24 <==> cmds == [Transmit(Frame("LH?"))]
  {
    CommandFramesAreFrames();
    match n
    case 20 => [Connect]
    case 21 => [Disconnect]
    case 22 => [Transmit(PowerOnFrame)]
    case 23 => [Transmit(PowerOffFrame)]
    case 24 => [Transmit(LampHoursQueryFrame)]
    case _ => []
  }

  /** A panel signal: only digital signals are acted on. */
  function OnSig(fb: Feedback, sig: Sig): (r: Reaction)
    requires fb.Fits()
    ensures r.fb.Fits()
    ensures sig.kind != BoolSig ==> r == Reaction(fb, [])
    ensures sig.kind == BoolSig && sig.number == MomentaryJoin ==>
      && r.fb.bools[MomentaryJoin] == sig.boolValue
      && SameExcept(r.fb.bools, fb.bools, {MomentaryJoin})
      && r.fb.strings == fb.strings
      && r.effects == []
    ensures sig.kind == BoolSig && sig.number != MomentaryJoin && !sig.boolValue ==> r == Reaction(fb, [])
    ensures sig.kind == BoolSig && sig.number != MomentaryJoin && sig.boolValue ==>
      var p := PressFeedback(fb, sig.number);
      r == Reaction(p.fb, p.effects + DeviceCommand(sig.number))
  {
    if sig.kind != BoolSig then Reaction(fb, [])
    else
      var fb1 := if sig.number == MomentaryJoin then fb.(bools := fb.bools[MomentaryJoin := sig.boolValue]) else fb;
      if !sig.boolValue then Reaction(fb1, [])
      else
        var p := PressFeedback(fb1, sig.number);
        Reaction(p.fb, p.effects + DeviceCommand(sig.number))
  }

  /** A "STATUS" event: the connected / not-connected pair follows the client. */
  function OnStatus(fb: Feedback, connected: bool): (r: Feedback)
    requires fb.Fits()
    ensures r.Fits()
    ensures r.bools[ConnectedJoin] == connected && r.bools[DisconnectedJoin] == !connected
    ensures SameExcept(r.bools, fb.bools, {ConnectedJoin, DisconnectedJoin}) && r.strings == fb.strings
  {
    fb.(bools := fb.bools[ConnectedJoin := connected][DisconnectedJoin := !connected])
  }

  /**
   * An "RX" event: the raw text is always shown; "PON" and then "POF" set the
   * power pair (so "POF" wins when both occur); only without "POF" does "LH?"
   * publish the lamp hours.
   */
  function OnRx(fb: Feedback, rx: string): (r: Feedback)
    requires fb.Fits()
    ensures r.Fits()
    ensures r.strings[RawTextJoin] == rx
    ensures Contains(rx, "POF") ==> r.bools[PowerOffJoin] && !r.bools[PowerOnJoin]
    ensures !Contains(rx, "POF") && Contains(rx, "PON") ==> r.bools[PowerOnJoin] && !r.bools[PowerOffJoin]
    ensures !Contains(rx, "POF") && !Contains(rx, "PON") ==> r.bools == fb.bools
    ensures r.strings[LampHoursJoin] ==
      if !Contains(rx, "POF") && Contains(rx, "LH?") then LampHours(rx) else fb.strings[LampHoursJoin]
    ensures SameExcept(r.bools, fb.bools, {PowerOnJoin, PowerOffJoin})
    ensures SameExcept(r.strings, fb.strings, {RawTextJoin, LampHoursJoin})
  {
    var shown := fb.strings[RawTextJoin := rx];
    var power := if Contains(rx, "PON") then fb.bools[PowerOnJoin := true][PowerOffJoin := false] else fb.bools;
    if Contains(rx, "POF") then Feedback(power[PowerOffJoin := true][PowerOnJoin := false], shown)
    else if Contains(rx, "LH?") then Feedback(power, shown[LampHoursJoin := LampHours(rx)])
    else Feedback(power, shown)
  }

  /** A client event; tags other than "STATUS" and "RX" change nothing. */
  function OnClientEvent(fb: Feedback, e: ClientEvent): (r: Feedback)
    requires fb.Fits()
    ensures r.Fits()
    ensures e.message == "STATUS" ==> r == OnStatus(fb, e.connected)
    ensures e.message == "RX" ==> r == OnRx(fb, e.rx)
    ensures e.message != "STATUS" && e.message != "RX" ==> r == fb
  {
    if e.message == "STATUS" then OnStatus(fb, e.connected)
    else if e.message == "RX" then OnRx(fb, e.rx)
    else fb
  }

  /**
   * The order of the RX rules when a reply holds both "POF" and "LH?": the
   * power-off rule runs and the lamp hours are not published.
   */
  lemma PowerOffShadowsLampHours(fb: Feedback, rx: string)
    requires fb.Fits() && Contains(rx, "POF") && Contains(rx, "LH?")
    ensures var r := OnRx(fb, rx);
      r.bools[PowerOffJoin] && !r.bools[PowerOnJoin] && r.strings[LampHoursJoin] == fb.strings[LampHoursJoin]
  {
  }

  /**
   * With "PON" and "LH?" (and no "POF") in one reply, both the power-on and
   * the lamp-hours rules run.
   */
  lemma PowerOnWithLampHours(fb: Feedback, rx: string)
    requires fb.Fits() && !Contains(rx, "POF") && Contains(rx, "PON") && Contains(rx, "LH?")
    ensures var r := OnRx(fb, rx);
      r.bools[PowerOnJoin] && !r.bools[PowerOffJoin] && r.strings[LampHoursJoin] == LampHours(rx)
  {
  }

  /** The reply "POF LH?1200" turns the power off and publishes no lamp hours. */
  lemma PowerOffShadowsExample(fb: Feedback)
    requires fb.Fits()
    ensures var r := OnRx(fb, "POF LH?1200");
      r.bools[PowerOffJoin] && !r.bools[PowerOnJoin] && r.strings[LampHoursJoin] == fb.strings[LampHoursJoin]
  {
    assert OccursAt("POF LH?1200", "POF", 0) && OccursAt("POF LH?1200", "LH?", 4);
    PowerOffShadowsLampHours(fb, "POF LH?1200");
  }

  /** The reply "\x02PON LH?1200\x03" turns the power on and publishes "1200". */
  lemma PowerOnWithLampHoursExample(fb: Feedback)
    requires fb.Fits()
    ensures var r := OnRx(fb, "\U{02}PON LH?1200\U{03}");
      r.bools[PowerOnJoin] && !r.bools[PowerOffJoin] && r.strings[LampHoursJoin] == "1200"
  {
    var both := "\U{02}PON LH?1200\U{03}";
    assert OccursAt(both, "PON", 1) && OccursAt(both, "LH?", 5);
    assert 'F' !in both;
    AbsentChar(both, "POF", 'F');
    assert both == Repeat(STX, 1) + "PON LH" + "?" + "1200" + Repeat(ETX, 1);
    LampHoursOfReply(1, "PON LH", "1200", 1);
    PowerOnWithLampHours(fb, both);
  }
}
