/**
 * The control-signal mapper of the ToyWorld node (BrainSimToyWorld/Module/ToyWorld.cs):
 * the layout table chosen by the length of the control vector, the asymmetric rule that
 * folds a pair of opposite signals into one value, the 0.5 threshold of the three
 * buttons, and the run-every-N gate shared by the input task and the update task.
 * Control values arrive as floats; they are only carried and compared, so they are `real` here.
 */
module ControlMapper {
  import opened Wrappers

  /** The number of entries of the compact (WSAD) control vector. */
  const ControlsCount: int := 13

  /** The smallest control vector the validator accepts besides the compact one. */
  const KeyboardMinimum: int := 84

  /** The priority every submitted avatar action carries. */
  const ActionPriority: int := 100

  /**
   * The thirteen keys of the control table (`"forward"`, `"backward"`, `"left"`, `"right"`,
   * `"rot_left"`, `"rot_right"`, `"fof_right"`, `"fof_left"`, `"fof_up"`, `"fof_down"`,
   * `"interact"`, `"use"`, `"pickup"`); the source only ever uses these string literals.
   */
  datatype SignalName = Forward | Backward | Left | Right | RotLeft | RotRight
                      | FofRight | FofLeft | FofUp | FofDown | Interact | Use | PickUp

  /** The thirteen signal names, in the order the compact layout assigns them indices. */
  const SignalNames: seq<SignalName> :=
    [Forward, Backward, Left, Right, RotLeft, RotRight,
     FofRight, FofLeft, FofUp, FofDown, Interact, Use, PickUp]

  /** Every signal name is among the thirteen. */
  lemma AllNamesListed(n: SignalName)
    ensures n in SignalNames
  {
    NamesAt();
  }

  /** The index `Init` assigns to each signal in the compact layout. */
  function WsadIndex(n: SignalName): int {
    match n
    case Forward => 0
    case Backward => 1
    case Left => 2
    case Right => 3
    case RotLeft => 4
    case RotRight => 5
    case FofRight => 6
    case FofLeft => 7
    case FofUp => 8
    case FofDown => 9
    case Interact => 10
    case Use => 11
    case PickUp => 12
  }

  /** The key entry `Init` assigns to each signal in the keyboard layout (W, S, A, D, Q, E, I, J, K, L, B, N, M). */
  function KeyboardIndex(n: SignalName): int {
    match n
    case Forward => 87
    case Backward => 83
    case RotLeft => 65
    case RotRight => 68
    case Left => 81
    case Right => 69
    case FofUp => 73
    case FofLeft => 76
    case FofDown => 75
    case FofRight => 74
    case Interact => 66
    case Use => 78
    case PickUp => 77
  }

  /** The compact layout: the thirteen names map onto 0..12 in declaration order. */
  function WsadLayout(): (m: map<SignalName, int>)
    ensures forall n :: n in m && m[n] == WsadIndex(n)
    ensures forall k | 0 <= k < |SignalNames| :: m[SignalNames[k]] == k
  {
    NamesAt();
    forall n ensures n in SignalNames { AllNamesListed(n); }
    map n | n in SignalNames :: WsadIndex(n)
  }

  /** The keyboard layout: thirteen distinct key entries, all in 65..87. */
  function KeyboardLayout(): (m: map<SignalName, int>)
    ensures forall n :: n in m && m[n] == KeyboardIndex(n)
    ensures forall n | n in m :: 65 <= m[n] <= 87
    ensures forall n | n in m :: KeyboardSignal(m[n]) == Some(n)
  {
    forall n ensures n in SignalNames { AllNamesListed(n); }
    map n | n in SignalNames :: KeyboardIndex(n)
  }

  /** The signal a key entry drives under the keyboard layout, if any. */
  function KeyboardSignal(index: int): Option<SignalName> {
    match index
    case 87 => Some(Forward)
    case 83 => Some(Backward)
    case 65 => Some(RotLeft)
    case 68 => Some(RotRight)
    case 81 => Some(Left)
    case 69 => Some(Right)
    case 73 => Some(FofUp)
    case 76 => Some(FofLeft)
    case 75 => Some(FofDown)
    case 74 => Some(FofRight)
    case 66 => Some(Interact)
    case 78 => Some(Use)
    case 77 => Some(PickUp)
    case _ => None
  }

  /** The keyboard layout reads the thirteen signals from thirteen distinct entries. */
  lemma KeyboardLayoutInjective(n1: SignalName, n2: SignalName)
    requires n1 in KeyboardLayout() && n2 in KeyboardLayout() && n1 != n2
    ensures KeyboardLayout()[n1] != KeyboardLayout()[n2]
  {
    assert KeyboardSignal(KeyboardLayout()[n1]) == Some(n1);
  }

  /**
   * The entries `TWGetInputTask.Init` writes for a vector of `count` entries: the compact
   * layout for exactly 13, the keyboard layout for 84 or more, nothing otherwise.
   */
  function LayoutFor(count: int): (m: map<SignalName, int>)
    ensures count == ControlsCount ==> m == WsadLayout()
    ensures count != ControlsCount && count >= KeyboardMinimum ==> m == KeyboardLayout()
    ensures count != ControlsCount && count < KeyboardMinimum ==> m == map[]
  {
    if count == ControlsCount then WsadLayout()
    else if count >= KeyboardMinimum then KeyboardLayout()
    else map[]
  }

  /**
   * The length check of `ToyWorld.Validate` on the control vector, as written:
   * 84 or more entries, or exactly 13.
   */
  predicate ControlsCountAccepted(count: int) {
    count >= KeyboardMinimum || count == ControlsCount
  }

  /**
   * The length check the keyboard layout needs: its highest index is 87, so the
   * vector must have at least 88 entries.
   */
  predicate ControlsCountSafe(count: int) {
    count == ControlsCount || count >= 88
  }

  /**
   * Folds a positive-direction signal `a` and a negative-direction signal `b` into one
   * value: `a` when `a >= b` (ties go to the positive side), otherwise `-b`. For
   * non-negative signals the magnitude is the larger of the two, not their difference.
   */
  function Combine(a: real, b: real): (r: real)
    ensures a >= b ==> r == a
    ensures a < b ==> r == -b
    ensures 0.0 <= a && 0.0 <= b ==> Abs(r) == Max(a, b)
    ensures 0.0 <= a && 0.0 <= b ==> (0.0 <= r <==> a >= b)
  {
    if a >= b then a else -b
  }

  /**
   * Swapping the two directions negates the axis, except on a tie, which goes to the
   * first signal either way.
   */
  lemma CombineSwap(a: real, b: real)
    ensures a != b ==> Combine(b, a) == -Combine(a, b)
    ensures a == b ==> Combine(b, a) == Combine(a, b) == a
  {
  }

  function Abs(x: real): real {
    if x < 0.0 then -x else x
  }

  function Max(x: real, y: real): real {
    if x < y then y else x
  }

  /** A button counts as pressed only above 0.5; 0.5 itself is not pressed. */
  predicate Pressed(v: real) {
    v > 0.5
  }

  /** The action `TWGetInputTask.Execute` hands to the avatar controller. */
  datatype AvatarControls = AvatarControls(
    priority: int,
    speed: real,
    rightSpeed: real,
    rotation: real,
    interact: bool,
    use: bool,
    pickUp: bool,
    fof: (real, real))

  /**
   * Why a call of the input task aborts: a missing table entry, an index past the vector,
   * `% 0`, no block connected to the controls input, or no avatar controller to act on.
   */
  datatype ControlError =
    | KeyNotFound(name: SignalName)
    | IndexOutOfRange(index: int)
    | DivideByZero
    | NoControls
    | NoAvatarController

  /** The signal `name` can be read: the table has it and its index lies inside the vector. */
  predicate Readable(controls: seq<real>, layout: map<SignalName, int>, name: SignalName) {
    name in layout && 0 <= layout[name] < |controls|
  }

  /** The value of a readable signal. */
  function ValueOf(controls: seq<real>, layout: map<SignalName, int>, name: SignalName): real
    requires Readable(controls, layout, name)
  {
    controls[layout[name]]
  }

  /** One lookup `Controls.Host[controlIndexes[name]]`, with the two exceptions it can throw. */
  function ReadSignal(controls: seq<real>, layout: map<SignalName, int>, name: SignalName): (r: Result<real, ControlError>)
    ensures r.Success? <==> Readable(controls, layout, name)
    ensures r.Success? ==> r.value == ValueOf(controls, layout, name)
  {
    if name !in layout then Failure(KeyNotFound(name))
    else if !(0 <= layout[name] < |controls|) then Failure(IndexOutOfRange(layout[name]))
    else Success(controls[layout[name]])
  }

  /** Every one of the thirteen signals can be read. */
  predicate AllReadable(controls: seq<real>, layout: map<SignalName, int>) {
    forall k | 0 <= k < |SignalNames| :: Readable(controls, layout, SignalNames[k])
  }

  /**
   * The body of an executed `TWGetInputTask.Execute` tick: the thirteen reads in the
   * source's order (the first failing one aborts the tick), the five combined axes,
   * the three thresholded buttons, and one action with priority 100.
   */
  function MapControls(controls: seq<real>, layout: map<SignalName, int>): (r: Result<AvatarControls, ControlError>)
    ensures r.Success? ==> r.value.priority == ActionPriority
  {
    var left :- ReadSignal(controls, layout, Left);
    var right :- ReadSignal(controls, layout, Right);
    var fw :- ReadSignal(controls, layout, Forward);
    var bw :- ReadSignal(controls, layout, Backward);
    var rotLeft :- ReadSignal(controls, layout, RotLeft);
    var rotRight :- ReadSignal(controls, layout, RotRight);
    var fofLeft :- ReadSignal(controls, layout, FofLeft);
    var fofRight :- ReadSignal(controls, layout, FofRight);
    var fofUp :- ReadSignal(controls, layout, FofUp);
    var fofDown :- ReadSignal(controls, layout, FofDown);
    var interact :- ReadSignal(controls, layout, Interact);
    var use :- ReadSignal(controls, layout, Use);
    var pickUp :- ReadSignal(controls, layout, PickUp);
    Success(AvatarControls(ActionPriority, Combine(fw, bw), Combine(left, right),
                           Combine(rotLeft, rotRight), Pressed(interact), Pressed(use), Pressed(pickUp),
                           (Combine(fofLeft, fofRight), Combine(fofUp, fofDown))))
  }

  /** A tick maps its vector exactly when all thirteen signals can be read. */
  lemma {:induction false} MapControlsSucceedsIff(controls: seq<real>, layout: map<SignalName, int>)
    ensures MapControls(controls, layout).Success? <==> AllReadable(controls, layout)
  {
    NamesAt();
  }

  lemma NamesAt()
    ensures SignalNames[0] == Forward && SignalNames[1] == Backward
    ensures SignalNames[2] == Left && SignalNames[3] == Right
    ensures SignalNames[4] == RotLeft && SignalNames[5] == RotRight
    ensures SignalNames[6] == FofRight && SignalNames[7] == FofLeft
    ensures SignalNames[8] == FofUp && SignalNames[9] == FofDown
    ensures SignalNames[10] == Interact && SignalNames[11] == Use && SignalNames[12] == PickUp
  {
  }

  /** The pairing of signals into the fields of the action, stated by name. */
  lemma MapControlsPairing(controls: seq<real>, layout: map<SignalName, int>)
    requires AllReadable(controls, layout)
    ensures MapControls(controls, layout).Success?
    ensures var a := MapControls(controls, layout).value;
      && a.speed == Combine(ValueOf(controls, layout, Forward), ValueOf(controls, layout, Backward))
      && a.rightSpeed == Combine(ValueOf(controls, layout, Left), ValueOf(controls, layout, Right))
      && a.rotation == Combine(ValueOf(controls, layout, RotLeft), ValueOf(controls, layout, RotRight))
      && a.fof == (Combine(ValueOf(controls, layout, FofLeft), ValueOf(controls, layout, FofRight)),
                   Combine(ValueOf(controls, layout, FofUp), ValueOf(controls, layout, FofDown)))
      && (a.interact <==> ValueOf(controls, layout, Interact) > 0.5)
      && (a.use <==> ValueOf(controls, layout, Use) > 0.5)
      && (a.pickUp <==> ValueOf(controls, layout, PickUp) > 0.5)
  {
    NamesAt();
  }

  /** With the compact layout and 13 entries, the action is read from indices 0..12. */
  lemma {:induction false} WsadMapping(controls: seq<real>)
    requires |controls| == ControlsCount
    ensures MapControls(controls, LayoutFor(|controls|)).Success?
    ensures var a := MapControls(controls, LayoutFor(|controls|)).value;
      && a.speed == Combine(controls[0], controls[1])
      && a.rightSpeed == Combine(controls[2], controls[3])
      && a.rotation == Combine(controls[4], controls[5])
      && a.fof == (Combine(controls[7], controls[6]), Combine(controls[8], controls[9]))
      && (a.interact <==> controls[10] > 0.5)
      && (a.use <==> controls[11] > 0.5)
      && (a.pickUp <==> controls[12] > 0.5)
  {
    var layout := LayoutFor(|controls|);
    assert layout == WsadLayout();
    forall k | 0 <= k < |SignalNames| ensures Readable(controls, layout, SignalNames[k]) {
      assert 0 <= layout[SignalNames[k]] < 13;
    }
    MapControlsPairing(controls, layout);
  }

  /** With the keyboard layout and at least 88 entries, the action is read from the key entries. */
  lemma {:induction false} KeyboardMapping(controls: seq<real>)
    requires |controls| >= 88
    ensures MapControls(controls, LayoutFor(|controls|)).Success?
    ensures var a := MapControls(controls, LayoutFor(|controls|)).value;
      && a.speed == Combine(controls[87], controls[83])
      && a.rightSpeed == Combine(controls[81], controls[69])
      && a.rotation == Combine(controls[65], controls[68])
      && a.fof == (Combine(controls[76], controls[74]), Combine(controls[73], controls[75]))
      && (a.interact <==> controls[66] > 0.5)
      && (a.use <==> controls[78] > 0.5)
      && (a.pickUp <==> controls[77] > 0.5)
  {
    var layout := LayoutFor(|controls|);
    assert layout == KeyboardLayout();
    forall k | 0 <= k < |SignalNames| ensures Readable(controls, layout, SignalNames[k]) {
      assert 65 <= layout[SignalNames[k]] <= 87;
    }
    MapControlsPairing(controls, layout);
    assert ValueOf(controls, layout, Forward) == controls[87] && ValueOf(controls, layout, Backward) == controls[83];
    assert ValueOf(controls, layout, Left) == controls[81] && ValueOf(controls, layout, Right) == controls[69];
    assert ValueOf(controls, layout, RotLeft) == controls[65] && ValueOf(controls, layout, RotRight) == controls[68];
    assert ValueOf(controls, layout, FofLeft) == controls[76] && ValueOf(controls, layout, FofRight) == controls[74];
    assert ValueOf(controls, layout, FofUp) == controls[73] && ValueOf(controls, layout, FofDown) == controls[75];
    assert ValueOf(controls, layout, Interact) == controls[66] && ValueOf(controls, layout, Use) == controls[78];
    assert ValueOf(controls, layout, PickUp) == controls[77];
  }

  /** Any other length leaves the table empty, and the first read of a tick fails. */
  lemma UnrecognisedLengthFails(controls: seq<real>)
    requires |controls| != ControlsCount && |controls| < KeyboardMinimum
    ensures MapControls(controls, LayoutFor(|controls|)) == Failure(KeyNotFound(Left))
  {
  }

  /**
   * The validator accepts an 84-entry vector, yet the keyboard layout then reads
   * entry 87 and the first executed tick aborts with an index out of range.
   */
  lemma {:induction false} AcceptedLengthOverruns()
    ensures ControlsCountAccepted(84)
    ensures MapControls(seq(84, _ => 0.0), LayoutFor(84)) == Failure(IndexOutOfRange(87))
  {
    var controls: seq<real> := seq(84, _ => 0.0);
    var layout := LayoutFor(84);
    assert layout == KeyboardLayout();
    assert ReadSignal(controls, layout, Left) == Success(0.0);
    assert ReadSignal(controls, layout, Right) == Success(0.0);
    assert ReadSignal(controls, layout, Forward) == Failure(IndexOutOfRange(87));
  }

  /** Under the corrected length check, every layout index lies inside the vector. */
  lemma {:induction false} SafeLengthAlwaysMaps(controls: seq<real>)
    requires ControlsCountSafe(|controls|)
    ensures ControlsCountAccepted(|controls|)
    ensures MapControls(controls, LayoutFor(|controls|)).Success?
  {
    if |controls| == ControlsCount {
      WsadMapping(controls);
    } else {
      KeyboardMapping(controls);
    }
  }

  /** Whether a task runs on a simulation step. */
  datatype GateDecision = Run | Skip | GateDivideByZero

  /**
   * The guard `SimulationStep != 0 && SimulationStep % RunEvery != 0` that both tasks test
   * first. Step 0 always runs; `RunEvery` is never validated, so 0 divides by zero on any
   * later step. C#'s `%` takes the sign of the dividend, so for the non-negative step a
   * negative `RunEvery` acts as its absolute value.
   */
  function StepGate(step: nat, runEvery: int): (d: GateDecision)
    ensures d == GateDivideByZero <==> step != 0 && runEvery == 0
  {
    if step == 0 then Run
    else if runEvery == 0 then GateDivideByZero
    else if step % (if runEvery < 0 then -runEvery else runEvery) != 0 then Skip
    else Run
  }

  /** For `RunEvery >= 1`, a task runs exactly on the multiples of `RunEvery`. */
  lemma {:induction false} GateRunsOnMultiples(step: nat, runEvery: int)
    requires runEvery >= 1
    ensures StepGate(step, runEvery) == Run <==> exists k: nat :: step == k * runEvery
    ensures StepGate(step, runEvery) != GateDivideByZero
  {
    if StepGate(step, runEvery) == Run {
      var k: nat := step / runEvery;
      assert step == k * runEvery;
    } else {
      forall k: nat ensures step != k * runEvery {
        if step == k * runEvery {
          MultipleHasNoRemainder(k, runEvery);
        }
      }
    }
  }

  lemma {:induction false} MultipleHasNoRemainder(k: nat, n: int)
    requires n >= 1
    ensures (k * n) % n == 0
  {
    if k > 0 {
      MultipleHasNoRemainder(k - 1, n);
      assert k * n == (k - 1) * n + n;
      AddBackDivisor((k - 1) * n, n);
    }
  }

  lemma AddBackDivisor(x: int, n: int)
    requires n >= 1 && x >= 0
    ensures (x + n) % n == x % n
  {
    var q, r := x / n, x % n;
    var q2, r2 := (x + n) / n, (x + n) % n;
    var d := q2 - q - 1;
    assert d * n == r - r2;
    if d >= 1 {
      MulAtLeast(d, n);
    } else if d <= -1 {
      MulAtLeast(-d, n);
    }
  }

  lemma MulAtLeast(d: int, n: int)
    requires d >= 1 && n >= 1
    ensures d * n >= n
  {
  }

  /** With `RunEvery` 3, ticks 0, 3 and 6 run and ticks 1, 2, 4 and 5 are skipped. */
  lemma RunEveryThree()
    ensures StepGate(0, 3) == Run && StepGate(3, 3) == Run && StepGate(6, 3) == Run
    ensures StepGate(1, 3) == Skip && StepGate(2, 3) == Skip
    ensures StepGate(4, 3) == Skip && StepGate(5, 3) == Skip
  {
  }
}
