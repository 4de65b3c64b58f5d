/**
 * A session of the control system: the panel and the projector client
 * deliver events one after another, each handled to completion before the
 * next. What holds of the feedback after any such run.
 */
module Session {
  import opened Text
  import opened Frames
  import opened Router

  /** One handler invocation: a panel signal or a client event. */
  datatype Event = PanelSig(sig: Sig) | ClientMsg(e: ClientEvent)

  /** A press (digital, value true) of join `n`. */
  function Press(n: nat): Event
  {
    PanelSig(Sig(n, BoolSig, true))
  }

  predicate IsInterlockPress(ev: Event)
  {
    ev.PanelSig? && ev.sig.kind == BoolSig && ev.sig.boolValue && IsInterlockJoin(ev.sig.number)
  }

  predicate IsStatus(ev: Event)
  {
    ev.ClientMsg? && ev.e.message == "STATUS"
  }

  predicate IsTogglePress(ev: Event)
  {
    ev.PanelSig? && ev.sig.kind == BoolSig && ev.sig.boolValue && ev.sig.number == ToggleJoin
  }

  /** Handling one event. */
  function Step(fb: Feedback, ev: Event): (r: Reaction)
    requires fb.Fits()
    ensures r.fb.Fits() && |r.fb.bools| == |fb.bools| && |r.fb.strings| == |fb.strings|
  {
    match ev
    case PanelSig(sig) => OnSig(fb, sig)
    case ClientMsg(e) => Reaction(OnClientEvent(fb, e), [])
  }

  /** Handling the events of `evs` in order; the effects are concatenated. */
  function Run(fb: Feedback, evs: seq<Event>): (r: Reaction)
    requires fb.Fits()
    ensures r.fb.Fits() && |r.fb.bools| == |fb.bools| && |r.fb.strings| == |fb.strings|
    decreases |evs|
  {
    if evs == [] then Reaction(fb, [])
    else
      var first := Step(fb, evs[0]);
      var rest := Run(first.fb, evs[1..]);
      Reaction(rest.fb, first.effects + rest.effects)
  }

  /** Exactly one of the interlocked joins 12, 13, 14 is high. */
  predicate InterlockExclusive(fb: Feedback)
  {
    && fb.Fits()
    && ((fb.bools[12] && !fb.bools[13] && !fb.bools[14])
     || (!fb.bools[12] && fb.bools[13] && !fb.bools[14])
     || (!fb.bools[12] && !fb.bools[13] && fb.bools[14]))
  }

  /**
   * The pairs the router keeps apart: no two interlocked joins high, not both
   * connected and not-connected, not both power on and power off.
   */
  predicate Safe(fb: Feedback)
  {
    && fb.Fits()
    && !(fb.bools[12] && fb.bools[13]) && !(fb.bools[12] && fb.bools[14]) && !(fb.bools[13] && fb.bools[14])
    && !(fb.bools[ConnectedJoin] && fb.bools[DisconnectedJoin])
    && !(fb.bools[PowerOnJoin] && fb.bools[PowerOffJoin])
  }

  /** An event other than an interlock press leaves joins 12-14 as they are. */
  lemma StepKeepsInterlockJoins(fb: Feedback, ev: Event)
    requires fb.Fits() && !IsInterlockPress(ev)
    ensures forall j | IsInterlockJoin(j) :: Step(fb, ev).fb.bools[j] == fb.bools[j]
  {
    match ev {
      case PanelSig(sig) =>
        if sig.kind == BoolSig && sig.boolValue && sig.number != MomentaryJoin {
          var w := PressWrites(sig.number);
          assert 12 !in w && 13 !in w && 14 !in w;
        }
      case ClientMsg(e) =>
    }
  }

  /**
   * After a press of an interlocked join that no later interlock press
   * follows, that join is the one high of the three.
   */
  lemma {:induction false} LastInterlockPressSelects(fb: Feedback, evs: seq<Event>, k: nat)
    requires fb.Fits() && k < |evs| && IsInterlockPress(evs[k])
    requires forall i | k < i < |evs| :: !IsInterlockPress(evs[i])
    ensures forall j | IsInterlockJoin(j) :: Run(fb, evs).fb.bools[j] == (j == evs[k].sig.number)
    ensures InterlockExclusive(Run(fb, evs).fb)
    decreases |evs|
  {
    var n := evs[k].sig.number;
    if k == 0 {
      var s := Step(fb, evs[0]);
      assert forall j | IsInterlockJoin(j) :: s.fb.bools[j] == (j == n);
      NoInterlockPressKeeps(s.fb, evs[1..]);
    } else {
      LastInterlockPressSelects(Step(fb, evs[0]).fb, evs[1..], k - 1);
    }
  }

  /** A run without interlock presses leaves joins 12-14 as they are. */
  lemma {:induction false} NoInterlockPressKeeps(fb: Feedback, evs: seq<Event>)
    requires fb.Fits() && forall i | 0 <= i < |evs| :: !IsInterlockPress(evs[i])
    ensures forall j | IsInterlockJoin(j) :: Run(fb, evs).fb.bools[j] == fb.bools[j]
    decreases |evs|
  {
    if evs != [] {
      StepKeepsInterlockJoins(fb, evs[0]);
      NoInterlockPressKeeps(Step(fb, evs[0]).fb, evs[1..]);
    }
  }

  /** An event other than a STATUS event leaves the connection pair as it is. */
  lemma {:induction false} NoStatusKeeps(fb: Feedback, evs: seq<Event>)
    requires fb.Fits() && forall i | 0 <= i < |evs| :: !IsStatus(evs[i])
    ensures Run(fb, evs).fb.bools[ConnectedJoin] == fb.bools[ConnectedJoin]
    ensures Run(fb, evs).fb.bools[DisconnectedJoin] == fb.bools[DisconnectedJoin]
    decreases |evs|
  {
    if evs != [] {
      var ev := evs[0];
      if ev.PanelSig? && ev.sig.kind == BoolSig && ev.sig.boolValue && ev.sig.number != MomentaryJoin {
        assert ConnectedJoin !in PressWrites(ev.sig.number) && DisconnectedJoin !in PressWrites(ev.sig.number);
      }
      NoStatusKeeps(Step(fb, ev).fb, evs[1..]);
    }
  }

  /**
   * The last STATUS event of a run decides the connection pair, which is then
   * complementary.
   */
  lemma {:induction false} LastStatusDecides(fb: Feedback, evs: seq<Event>, k: nat)
    requires fb.Fits() && k < |evs| && IsStatus(evs[k])
    requires forall i | k < i < |evs| :: !IsStatus(evs[i])
    ensures Run(fb, evs).fb.bools[ConnectedJoin] == evs[k].e.connected
    ensures Run(fb, evs).fb.bools[DisconnectedJoin] == !evs[k].e.connected
    decreases |evs|
  {
    if k == 0 {
      NoStatusKeeps(Step(fb, evs[0]).fb, evs[1..]);
    } else {
      LastStatusDecides(Step(fb, evs[0]).fb, evs[1..], k - 1);
    }
  }

  /** Every panel signal keeps the pairs apart. */
  lemma SigKeepsSafe(fb: Feedback, sig: Sig)
    requires Safe(fb)
    ensures Safe(OnSig(fb, sig).fb)
  {
    if sig.kind == BoolSig && sig.boolValue && sig.number != MomentaryJoin {
      var w := PressWrites(sig.number);
      assert ConnectedJoin !in w && DisconnectedJoin !in w && PowerOnJoin !in w && PowerOffJoin !in w;
      assert !IsInterlockJoin(sig.number) ==> 12 !in w && 13 !in w && 14 !in w;
    }
  }

  /** Every client event keeps the pairs apart. */
  lemma ClientEventKeepsSafe(fb: Feedback, e: ClientEvent)
    requires Safe(fb)
    ensures Safe(OnClientEvent(fb, e))
  {
    if e.message == "RX" {
      var r := OnRx(fb, e.rx);
      assert r.bools[12] == fb.bools[12] && r.bools[13] == fb.bools[13] && r.bools[14] == fb.bools[14];
      assert r.bools[ConnectedJoin] == fb.bools[ConnectedJoin] && r.bools[DisconnectedJoin] == fb.bools[DisconnectedJoin];
      if !Contains(e.rx, "POF") && !Contains(e.rx, "PON") {
        assert r.bools == fb.bools;
      }
    }
  }

  /** Every run keeps the pairs apart. */
  lemma {:induction false} RunKeepsSafe(fb: Feedback, evs: seq<Event>)
    requires Safe(fb)
    ensures Safe(Run(fb, evs).fb)
    decreases |evs|
  {
    if evs != [] {
      match evs[0] {
        case PanelSig(sig) => SigKeepsSafe(fb, sig);
        case ClientMsg(e) => ClientEventKeepsSafe(fb, e);
      }
      RunKeepsSafe(Step(fb, evs[0]).fb, evs[1..]);
    }
  }

  /** From start-up, whatever the panel and the client deliver, the pairs stay apart. */
  lemma SafeFromPowerUp(digitalJoins: nat, serialJoins: nat, evs: seq<Event>)
    requires digitalJoins > LastDigitalJoin && serialJoins > LastSerialJoin
    ensures Safe(Run(PowerUp(digitalJoins, serialJoins), evs).fb)
  {
    RunKeepsSafe(PowerUp(digitalJoins, serialJoins), evs);
  }

  /** The number of presses of the toggle join in `evs`. */
  function TogglePresses(evs: seq<Event>): (n: nat)
    ensures n <= |evs|
  {
    if evs == [] then 0 else (if IsTogglePress(evs[0]) then 1 else 0) + TogglePresses(evs[1..])
  }

  /** One event inverts the toggle join exactly when it is a press of it. */
  lemma StepToggle(fb: Feedback, ev: Event)
    requires fb.Fits()
    ensures Step(fb, ev).fb.bools[ToggleJoin] == (fb.bools[ToggleJoin] != IsTogglePress(ev))
  {
    if ev.PanelSig? && ev.sig.kind == BoolSig && ev.sig.boolValue && ev.sig.number != MomentaryJoin
      && ev.sig.number != ToggleJoin {
      assert ToggleJoin !in PressWrites(ev.sig.number);
    }
  }

  /** The toggle join ends inverted exactly when it was pressed an odd number of times. */
  lemma {:induction false} ToggleFollowsPressParity(fb: Feedback, evs: seq<Event>)
    requires fb.Fits()
    ensures Run(fb, evs).fb.bools[ToggleJoin] == (fb.bools[ToggleJoin] != (TogglePresses(evs) % 2 == 1))
    decreases |evs|
  {
    if evs != [] {
      var next := Step(fb, evs[0]).fb;
      StepToggle(fb, evs[0]);
      ToggleFollowsPressParity(next, evs[1..]);
      assert TogglePresses(evs) == (if IsTogglePress(evs[0]) then 1 else 0) + TogglePresses(evs[1..]);
    }
  }

  /** Two presses of the toggle join restore the whole panel and request nothing. */
  lemma ToggleTwiceRestores(fb: Feedback)
    requires fb.Fits()
    ensures Run(fb, [Press(ToggleJoin), Press(ToggleJoin)]) == Reaction(fb, [])
  {
    var press := Press(ToggleJoin);
    var once := Step(fb, press);
    var twice := Step(once.fb, press);
    assert once.effects == [] && twice.effects == [];
    assert twice.fb.bools == fb.bools;
    assert [press, press][1..] == [press];
    assert Run(twice.fb, []) == Reaction(fb, []);
    assert Run(once.fb, [press]) == Reaction(fb, []);
  }

  /** Every frame the router transmits is one of the three command frames. */
  lemma {:induction false} RunTransmitsCommandFrames(fb: Feedback, evs: seq<Event>)
    requires fb.Fits()
    ensures forall x | x in Run(fb, evs).effects && x.Transmit? ::
      x.tx in {Frame("PON"), Frame("POFF"), Frame("LH?")}
    decreases |evs|
  {
    if evs != [] {
      RunTransmitsCommandFrames(Step(fb, evs[0]).fb, evs[1..]);
    }
  }
}
