/**
 * The control system object: it owns the panel's feedback joins, which both
 * event handlers assign in place, and the projector client, whose requests
 * are kept as a log of effects in the order they are made.
 */
module HekMasters {
  import opened Text
  import opened Frames
  import opened Router

  class ControlSystem {
    /** The panel's digital feedback (BooleanInput), by join number. */
    var booleanInput: array<bool>
    /** The panel's serial feedback (StringInput), by join number. */
    var stringInput: array<string>
    /** Requests made of the projector client and pulses started on the panel, oldest first. */
    var effects: seq<Effect>

    ghost predicate Valid()
      reads this
    {
      booleanInput.Length > LastDigitalJoin && stringInput.Length > LastSerialJoin
    }

    /** The feedback the panel currently shows. */
    ghost function Panel(): (fb: Feedback)
      reads this, booleanInput, stringInput
      ensures Valid() ==> fb.Fits()
    {
      Feedback(booleanInput[..], stringInput[..])
    }

    constructor (digitalJoins: nat, serialJoins: nat)
      requires digitalJoins > LastDigitalJoin && serialJoins > LastSerialJoin
      ensures Valid() && fresh(booleanInput) && fresh(stringInput)
      ensures Panel() == PowerUp(digitalJoins, serialJoins) && effects == []
    {
      booleanInput := new bool[digitalJoins](_ => false);
      stringInput := new string[serialJoins](_ => "");
      effects := [];
    }

    /** BooleanInput[join].Pulse(): the join ends low and the pulse is logged. */
    method PulseJoin(join: nat)
      requires Valid() && join < booleanInput.Length
      modifies booleanInput, this`effects
      ensures booleanInput[..] == old(booleanInput[..])[join := false]
      ensures effects == old(effects) + [Pulse(join)]
    {
      booleanInput[join] := false;
      effects := effects + [Pulse(join)];
    }

    /** The panel's SigChange handler. */
    method OnSigChange(sig: Sig)
      requires Valid()
      modifies booleanInput, stringInput, this`effects
      ensures Valid()
      ensures Panel() == OnSig(old(Panel()), sig).fb
      ensures effects == old(effects) + OnSig(old(Panel()), sig).effects
    {
      if sig.kind == BoolSig {
        if sig.number == MomentaryJoin {
          booleanInput[MomentaryJoin] := sig.boolValue;
        }
        if sig.boolValue {
          PressDispatch(sig.number);
          ProjectorDispatch(sig.number);
        }
      }
    }

    /** The first switch of the press handler: navigation, toggle and interlock. */
    method PressDispatch(n: nat)
      requires Valid()
      modifies booleanInput, stringInput, this`effects
      ensures Panel() == PressFeedback(old(Panel()), n).fb
      ensures effects == old(effects) + PressFeedback(old(Panel()), n).effects
    {
      match n {
        case 1 =>
          PulseJoin(1);
          stringInput[PageTitleJoin] := "Home MF Page";
        case 2 =>
          PulseJoin(2);
          stringInput[PageTitleJoin] := "Projector Page";
        case 3 =>
          PulseJoin(3);
          stringInput[PageTitleJoin] := "Phonebook";
        case 10 =>
          booleanInput[10] := !booleanInput[10];
        case 12 =>
          booleanInput[14] := false;
          booleanInput[13] := false;
          booleanInput[12] := true;
        case 13 =>
          booleanInput[14] := false;
          booleanInput[13] := true;
          booleanInput[12] := false;
        case 14 =>
          booleanInput[14] := true;
          booleanInput[13] := false;
          booleanInput[12] := false;
        case _ =>
      }
    }

    /** The second switch of the press handler: the projector buttons. */
    method ProjectorDispatch(n: nat)
      modifies this`effects
      ensures effects == old(effects) + DeviceCommand(n)
    {
      match n {
        case 20 =>
          effects := effects + [Connect];
        case 21 =>
          effects := effects + [Disconnect];
        case 22 =>
          effects := effects + [Transmit(PowerOnFrame)];
        case 23 =>
          effects := effects + [Transmit(PowerOffFrame)];
        case 24 =>
          effects := effects + [Transmit(LampHoursQueryFrame)];
        case _ =>
      }
    }

    /** The projector client's event handler. */
    method OnTcpHelperEvent(e: ClientEvent)
      requires Valid()
      modifies booleanInput, stringInput
      ensures Valid()
      ensures Panel() == OnClientEvent(old(Panel()), e)
      ensures effects == old(effects)
    {
      if e.message == "STATUS" {
        booleanInput[ConnectedJoin] := e.connected;
        booleanInput[DisconnectedJoin] := !e.connected;
      } else if e.message == "RX" {
        stringInput[RawTextJoin] := e.rx;
        if Contains(e.rx, "PON") {
          booleanInput[PowerOnJoin] := true;
          booleanInput[PowerOffJoin] := false;
        }
        if Contains(e.rx, "POF") {
          booleanInput[PowerOffJoin] := true;
          booleanInput[PowerOnJoin] := false;
        } else if Contains(e.rx, "LH?") {
          stringInput[LampHoursJoin] := LampHours(e.rx);
        }
      }
    }
  }
}
