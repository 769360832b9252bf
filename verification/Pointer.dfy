/** The pointer events of the viewer, section 7.5.5 of RFC 6143: which events a mouse message makes, and
    what a run of them tells the server. */
module PointerStream {
  import opened Wrappers

  const MIDDLE: bv8 := 2
  const RIGHT: bv8 := 4
  const WHEEL: bv8 := 24   // a step up is a press and release of button 4, a step down of button 5

  datatype Point = Point(x: int, y: int)

  datatype Event = Event(buttons: bv8, pos: Point)

  /** A mouse message, its position already translated to the remote desktop. */
  datatype Mouse = Mouse(buttons: bv8, wheelSpeed: u16, pos: Point)

  datatype Setting = Setting(
    minimized: bool, toolbarPressed: bool, viewOnly: bool, connected: bool, swap: bool, hasCore: bool)

  /** What the window remembers of the last message, and what was sent so far. */
  datatype Pointer = Pointer(last: Event, sent: seq<Event>)

  function NewPointer(): Pointer {
    Pointer(Event(0, Point(-1, -1)), [])
  }

  /** The middle and the right button exchanged. */
  function Swapped(b: bv8): bv8 {
    (b & !(MIDDLE | RIGHT))
    | (if b & MIDDLE != 0 then RIGHT else 0)
    | (if b & RIGHT != 0 then MIDDLE else 0)
  }

  function Meant(m: Mouse, s: Setting): bv8 {
    if s.swap && m.buttons != 0 then Swapped(m.buttons) else m.buttons
  }

  predicate Ignored(m: Mouse, s: Setting) {
    s.minimized || s.toolbarPressed || s.viewOnly || !s.connected || m.pos.x < 0 || m.pos.y < 0
  }

  function Released(b: bv8): bv8 {
    b & !WHEEL
  }

  /** n steps of the wheel: a press and a release each. */
  function Steps(b: bv8, pos: Point, n: nat): seq<Event> {
    if n == 0 then [] else Steps(b, pos, n - 1) + [Event(b, pos), Event(Released(b), pos)]
  }

  /** What one message makes the window send. */
  function Emitted(last: Event, m: Mouse, s: Setting): seq<Event> {
    var b := Meant(m, s);
    if Ignored(m, s) || !s.hasCore || last == Event(b, m.pos) then []
    else if b & WHEEL == 0 then [Event(b, m.pos)]
    else Steps(b, m.pos, m.wheelSpeed)
  }

  function Next(p: Pointer, m: Mouse, s: Setting): Pointer {
    var b := Meant(m, s);
    if Ignored(m, s) || p.last == Event(b, m.pos) then p
    else Pointer(Event(Released(b), m.pos), p.sent + Emitted(p.last, m, s))
  }

  // ---- The swap ----

  lemma SwapIsAnInvolution(b: bv8)
    ensures Swapped(Swapped(b)) == b
    ensures (Swapped(b) & MIDDLE != 0 <==> b & RIGHT != 0) && (Swapped(b) & RIGHT != 0 <==> b & MIDDLE != 0)
    ensures Swapped(b) & !(MIDDLE | RIGHT) == b & !(MIDDLE | RIGHT) && Swapped(b) & WHEEL == b & WHEEL
  {
  }

  lemma ReleasedHasNoWheel(b: bv8)
    ensures Released(b) & WHEEL == 0 && Released(Released(b)) == Released(b)
    ensures b & WHEEL == 0 ==> Released(b) == b
    ensures b & WHEEL != 0 ==> Released(b) != b
  {
  }

  // ---- Runs ----

  datatype Message = Message(mouse: Mouse, setting: Setting)

  function Run(p: Pointer, ms: seq<Message>): Pointer {
    if ms == [] then p
    else Next(Run(p, ms[..|ms| - 1]), ms[|ms| - 1].mouse, ms[|ms| - 1].setting)
  }

  function LastSent(p: Pointer): Event {
    if p.sent == [] then NewPointer().last else p.sent[|p.sent| - 1]
  }

  /** The server knows what the window remembers. */
  predicate InStep(p: Pointer) {
    LastSent(p) == p.last
  }

  predicate NoWheelDown(p: Pointer) {
    LastSent(p).buttons & WHEEL == 0 && p.last.buttons & WHEEL == 0
  }

  /** A message that is not ignored, but of which nothing can be sent: no viewer core, or a turn of the
      wheel by no steps. */
  predicate Silent(m: Mouse, s: Setting) {
    !s.hasCore || (Meant(m, s) & WHEEL != 0 && m.wheelSpeed == 0)
  }

  lemma {:induction false} StepsShape(b: bv8, pos: Point, n: nat)
    ensures var t := Steps(b, pos, n);
            && |t| == 2 * n
            && forall i :: 0 <= i < n ==> t[2 * i] == Event(b, pos) && t[2 * i + 1] == Event(Released(b), pos)
  {
    if n > 0 {
      StepsShape(b, pos, n - 1);
    }
  }

  lemma LastOfSteps(b: bv8, pos: Point, n: nat)
    requires n > 0
    ensures Steps(b, pos, n)[|Steps(b, pos, n)| - 1] == Event(Released(b), pos) && Steps(b, pos, n)[0] == Event(b, pos)
  {
    StepsShape(b, pos, n);
    assert Steps(b, pos, n)[2 * 0] == Event(b, pos);
  }

  /** A call keeps the server in step exactly when it sends, or has nothing new to say: only a silent
      message that moves the remembered state is lost on the server. */
  lemma StaysInStepIff(p: Pointer, m: Mouse, s: Setting)
    requires InStep(p) && NoWheelDown(p)
    ensures InStep(Next(p, m, s)) <==>
              Ignored(m, s) || !Silent(m, s) || p.last == Event(Released(Meant(m, s)), m.pos)
    ensures NoWheelDown(Next(p, m, s))
  {
    var b := Meant(m, s);
    ReleasedHasNoWheel(b);
    if !Ignored(m, s) && p.last != Event(b, m.pos) && s.hasCore && b & WHEEL != 0 && m.wheelSpeed > 0 {
      LastOfSteps(b, m.pos, m.wheelSpeed);
    }
  }

  ghost predicate NeverSilent(ms: seq<Message>) {
    forall i :: 0 <= i < |ms| ==> Ignored(ms[i].mouse, ms[i].setting) || !Silent(ms[i].mouse, ms[i].setting)
  }

  /** Over every run, however its messages were ignored: the remembered state is the last event sent,
      and no wheel button stays down. */
  lemma {:induction false} RunStaysInStep(ms: seq<Message>)
    requires NeverSilent(ms)
    ensures InStep(Run(NewPointer(), ms)) && NoWheelDown(Run(NewPointer(), ms))
  {
    if ms != [] {
      RunStaysInStep(ms[..|ms| - 1]);
      StaysInStepIff(Run(NewPointer(), ms[..|ms| - 1]), ms[|ms| - 1].mouse, ms[|ms| - 1].setting);
    }
  }

  lemma HeardFrom(p: Pointer, m: Mouse, s: Setting)
    requires InStep(p) && NoWheelDown(p) && !Ignored(m, s) && !Silent(m, s)
    ensures LastSent(Next(p, m, s)) == Event(Released(Meant(m, s)), m.pos)
  {
    StaysInStepIff(p, m, s);
    ReleasedHasNoWheel(Meant(m, s));
  }

  /** What was dropped was redundant: after any message that is not ignored, the server's last event is
      the position and the buttons of that message, the swap applied and the wheel released. */
  lemma {:induction false} ServerSeesTheUser(ms: seq<Message>)
    requires ms != [] && NeverSilent(ms)
    requires !Ignored(ms[|ms| - 1].mouse, ms[|ms| - 1].setting)
    ensures var m, s := ms[|ms| - 1].mouse, ms[|ms| - 1].setting;
            LastSent(Run(NewPointer(), ms)) == Event(Released(Meant(m, s)), m.pos)
  {
    RunStaysInStep(ms[..|ms| - 1]);
    HeardFrom(Run(NewPointer(), ms[..|ms| - 1]), ms[|ms| - 1].mouse, ms[|ms| - 1].setting);
  }

  /** In plain words: after a message over the desktop of a window that is shown, connected and not only
      viewing, the last event has the user's own buttons, the wheel released; or with the swap on, the
      middle and the right one exchanged. */
  lemma {:induction false} ServerSeesTheButtons(ms: seq<Message>)
    requires ms != [] && NeverSilent(ms)
    requires var m, s := ms[|ms| - 1].mouse, ms[|ms| - 1].setting;
             !s.minimized && !s.toolbarPressed && !s.viewOnly && s.connected && m.pos.x >= 0 && m.pos.y >= 0
    ensures var m, s := ms[|ms| - 1].mouse, ms[|ms| - 1].setting;
            var seen := LastSent(Run(NewPointer(), ms));
            && seen.pos == m.pos && seen.buttons & WHEEL == 0
            && (!s.swap ==> seen.buttons == m.buttons & !WHEEL)
            && (s.swap ==>
                  && (seen.buttons & MIDDLE != 0 <==> m.buttons & RIGHT != 0)
                  && (seen.buttons & RIGHT != 0 <==> m.buttons & MIDDLE != 0)
                  && seen.buttons & !(MIDDLE | RIGHT) == m.buttons & !(MIDDLE | RIGHT | WHEEL))
  {
    var m, s := ms[|ms| - 1].mouse, ms[|ms| - 1].setting;
    ServerSeesTheUser(ms);
    hide Run, NeverSilent, LastSent;
    ButtonsOf(m.buttons);
  }

  lemma ButtonsOf(b: bv8)
    ensures Released(b) & WHEEL == 0 && Released(b) == b & !WHEEL
    ensures var r := Released(if b != 0 then Swapped(b) else b);
            && r & WHEEL == 0
            && (r & MIDDLE != 0 <==> b & RIGHT != 0) && (r & RIGHT != 0 <==> b & MIDDLE != 0)
            && r & !(MIDDLE | RIGHT) == b & !(MIDDLE | RIGHT | WHEEL)
  {
  }

  /** What a message makes the window send is at its own place, and turns the wheel its own way. */
  lemma WheelTurnsTheUsersWay(p: Pointer, m: Mouse, s: Setting)
    ensures var sent := Next(p, m, s).sent;
            && p.sent <= sent
            && forall i :: |p.sent| <= i < |sent| ==>
                 && sent[i].pos == m.pos
                 && (sent[i].buttons & WHEEL != 0 ==> sent[i].buttons & WHEEL == m.buttons & WHEEL)
  {
    var b := Meant(m, s);
    SwapIsAnInvolution(m.buttons);
    assert b & WHEEL == m.buttons & WHEEL && Released(b) & WHEEL == 0;
    StepsAreOfTheMessage(b, m.pos, m.wheelSpeed);
    hide Steps, Released, Swapped, Meant;
    var emitted := Emitted(p.last, m, s);
    assert Next(p, m, s).sent == p.sent || Next(p, m, s).sent == p.sent + emitted;
    assert forall e :: e in emitted ==> e == Event(b, m.pos) || e == Event(Released(b), m.pos);
    forall i | |p.sent| <= i < |Next(p, m, s).sent|
      ensures Next(p, m, s).sent[i] in emitted
    {
      assert Next(p, m, s).sent[i] == emitted[i - |p.sent|];
    }
  }

  lemma {:induction false} StepsAreOfTheMessage(b: bv8, pos: Point, n: nat)
    ensures forall e :: e in Steps(b, pos, n) ==> e == Event(b, pos) || e == Event(Released(b), pos)
  {
    if n > 0 {
      StepsAreOfTheMessage(b, pos, n - 1);
    }
  }

  /** And nothing happens at all while the window is minimized, its toolbar is pressed, it only views, it
      is not connected, or the mouse is outside. */
  lemma NothingIsHeard(p: Pointer, m: Mouse, s: Setting)
    ensures s.minimized || s.toolbarPressed || s.viewOnly || !s.connected || m.pos.x < 0 || m.pos.y < 0 ==>
              Next(p, m, s) == p
  {
  }

  /** No event repeats the one before it. */
  ghost predicate NoRepeats(sent: seq<Event>) {
    forall i :: 0 < i < |sent| ==> sent[i] != sent[i - 1]
  }

  /** Every press of the wheel is released by the very next event, which changes nothing else. */
  ghost predicate WheelIsReleased(sent: seq<Event>) {
    forall i :: 0 <= i < |sent| && sent[i].buttons & WHEEL != 0 ==>
      i + 1 < |sent| && sent[i + 1] == Event(Released(sent[i].buttons), sent[i].pos)
  }

  lemma OneStep(b: bv8, pos: Point)
    requires b & WHEEL != 0
    ensures var t := [Event(b, pos), Event(Released(b), pos)];
            NoRepeats(t) && WheelIsReleased(t)
  {
    ReleasedHasNoWheel(b);
  }

  lemma {:induction false} StepsAlternate(b: bv8, pos: Point, n: nat)
    requires b & WHEEL != 0
    ensures NoRepeats(Steps(b, pos, n)) && WheelIsReleased(Steps(b, pos, n))
  {
    hide NoRepeats, WheelIsReleased, Released;
    if n == 0 {
      assert NoRepeats([]) && WheelIsReleased([]) by { NoEvents(); }
    } else {
      ReleasedHasNoWheel(b);
      OneStep(b, pos);
      StepsAlternate(b, pos, n - 1);
      if n > 1 {
        LastOfSteps(b, pos, n - 1);
      }
      JoinKeeps(Steps(b, pos, n - 1), [Event(b, pos), Event(Released(b), pos)]);
    }
  }

  lemma NoEvents()
    ensures NoRepeats([]) && WheelIsReleased([])
  {
  }

  lemma JoinKeeps(a: seq<Event>, b: seq<Event>)
    requires WheelIsReleased(a) && WheelIsReleased(b)
    ensures WheelIsReleased(a + b)
    ensures NoRepeats(a) && NoRepeats(b) && (a != [] && b != [] ==> a[|a| - 1] != b[0]) ==> NoRepeats(a + b)
  {
    forall i | 0 <= i < |a + b| && (a + b)[i].buttons & WHEEL != 0
      ensures i + 1 < |a + b| && (a + b)[i + 1] == Event(Released((a + b)[i].buttons), (a + b)[i].pos)
    {
      if i >= |a| {
        assert (a + b)[i] == b[i - |a|];
        assert b[i - |a| + 1] == (a + b)[i + 1];
      } else {
        assert (a + b)[i] == a[i];
      }
    }
  }

  lemma EmittedShape(last: Event, m: Mouse, s: Setting)
    requires last.buttons & WHEEL == 0
    ensures var t := Emitted(last, m, s);
            WheelIsReleased(t) && NoRepeats(t) && (t != [] ==> t[0] != last)
  {
    var b := Meant(m, s);
    if !Ignored(m, s) && s.hasCore && last != Event(b, m.pos) && b & WHEEL != 0 {
      StepsAlternate(b, m.pos, m.wheelSpeed);
      if m.wheelSpeed > 0 {
        LastOfSteps(b, m.pos, m.wheelSpeed);
      }
    }
  }

  /** Over every run at all, the wheel is released as soon as it was pressed. */
  lemma {:induction false} WheelNeverSticks(ms: seq<Message>)
    ensures var p := Run(NewPointer(), ms); WheelIsReleased(p.sent) && p.last.buttons & WHEEL == 0
  {
    if ms != [] {
      var before, m, s := Run(NewPointer(), ms[..|ms| - 1]), ms[|ms| - 1].mouse, ms[|ms| - 1].setting;
      WheelNeverSticks(ms[..|ms| - 1]);
      EmittedShape(before.last, m, s);
      JoinKeeps(before.sent, Emitted(before.last, m, s));
      ReleasedHasNoWheel(Meant(m, s));
    }
  }

  /** Over every run without silent messages, no event repeats the one before it. */
  lemma {:induction false} NothingIsRepeated(ms: seq<Message>)
    requires NeverSilent(ms)
    ensures NoRepeats(Run(NewPointer(), ms).sent)
  {
    if ms != [] {
      var before, m, s := Run(NewPointer(), ms[..|ms| - 1]), ms[|ms| - 1].mouse, ms[|ms| - 1].setting;
      NothingIsRepeated(ms[..|ms| - 1]);
      RunStaysInStep(ms[..|ms| - 1]);
      WheelNeverSticks(ms[..|ms| - 1]);
      EmittedShape(before.last, m, s);
      JoinKeeps(before.sent, Emitted(before.last, m, s));
    }
  }

  function Presses(sent: seq<Event>): nat {
    if sent == [] then 0
    else Presses(sent[..|sent| - 1]) + if sent[|sent| - 1].buttons & WHEEL != 0 then 1 else 0
  }

  lemma PressesOfOneMore(t: seq<Event>, e: Event)
    ensures Presses(t + [e]) == Presses(t) + if e.buttons & WHEEL != 0 then 1 else 0
  {
    assert (t + [e])[..|t|] == t;
  }

  lemma {:induction false} PressesOfSteps(b: bv8, pos: Point, n: nat, before: seq<Event>)
    requires b & WHEEL != 0
    ensures Presses(before + Steps(b, pos, n)) == Presses(before) + n
  {
    hide Presses, Released;
    ReleasedHasNoWheel(b);
    if n == 0 {
      assert before + [] == before;
    } else {
      PressesOfSteps(b, pos, n - 1, before);
      var t := before + Steps(b, pos, n - 1);
      assert before + Steps(b, pos, n) == (t + [Event(b, pos)]) + [Event(Released(b), pos)];
      PressesOfOneMore(t, Event(b, pos));
      PressesOfOneMore(t + [Event(b, pos)], Event(Released(b), pos));
    }
  }

  /** The steps the user turned the wheel, as far as they were not ignored. */
  function Turned(ms: seq<Message>): nat {
    if ms == [] then 0
    else
      var m, s := ms[|ms| - 1].mouse, ms[|ms| - 1].setting;
      Turned(ms[..|ms| - 1]) + if !Ignored(m, s) && s.hasCore && Meant(m, s) & WHEEL != 0 then m.wheelSpeed else 0
  }

  /** One press for each step of the wheel, over every run. */
  lemma {:induction false} OnePressForEachStep(ms: seq<Message>)
    ensures Presses(Run(NewPointer(), ms).sent) == Turned(ms)
  {
    if ms != [] {
      var before, m, s := Run(NewPointer(), ms[..|ms| - 1]), ms[|ms| - 1].mouse, ms[|ms| - 1].setting;
      OnePressForEachStep(ms[..|ms| - 1]);
      WheelNeverSticks(ms[..|ms| - 1]);
      PressesOfMessage(before, m, s);
    }
  }

  lemma PressesOfMessage(p: Pointer, m: Mouse, s: Setting)
    requires p.last.buttons & WHEEL == 0
    ensures Presses(Next(p, m, s).sent)
         == Presses(p.sent) + if !Ignored(m, s) && s.hasCore && Meant(m, s) & WHEEL != 0 then m.wheelSpeed else 0
  {
    var b := Meant(m, s);
    assert p.sent + [] == p.sent;
    if b & WHEEL != 0 {
      PressesOfSteps(b, m.pos, m.wheelSpeed, p.sent);
    } else {
      PressesOfOneMore(p.sent, Event(b, m.pos));
    }
  }

  /** Turning the wheel by no steps at another place: the new place is remembered, but never sent - not
      even by the next message, which only repeats it. */
  lemma SilentTurnIsLost(p: Pointer, m: Mouse, s: Setting, up: bv8)
    requires !Ignored(m, s) && m.wheelSpeed == 0 && Meant(m, s) & WHEEL != 0 && m.pos != p.last.pos
    requires up == Released(m.buttons)
    ensures var lost := Next(p, m, s);
            lost.sent == p.sent && lost.last.pos == m.pos && Next(lost, Mouse(up, 0, m.pos), s) == lost
  {
  }

  // ---- The window ----

  class DesktopWindow {
    var previousMouseState: bv8
    var previousMousePos: Point
    var sent: seq<Event>

    ghost function Value(): Pointer
      reads this
    {
      Pointer(Event(previousMouseState, previousMousePos), sent)
    }

    constructor ()
      ensures Value() == NewPointer()
    {
      previousMouseState, previousMousePos, sent := 0, Point(-1, -1), [];
    }

    method SendPointerEvent(buttons: bv8, pos: Point, s: Setting)
      modifies this`sent
      ensures sent == old(sent) + if s.viewOnly || !s.hasCore then [] else [Event(buttons, pos)]
    {
      if s.viewOnly {
        return;
      }
      if !s.hasCore {
        return;
      }
      sent := sent + [Event(buttons, pos)];
    }

    method SwapButtons(m: Mouse, s: Setting) returns (mouseButtons: bv8)
      ensures mouseButtons == Meant(m, s)
    {
      mouseButtons := m.buttons;
      if s.swap && mouseButtons != 0 {
        var second := mouseButtons & MIDDLE != 0;
        var third := mouseButtons & RIGHT != 0;
        mouseButtons := mouseButtons & !(MIDDLE | RIGHT);
        if second {
          mouseButtons := mouseButtons | RIGHT;
        }
        if third {
          mouseButtons := mouseButtons | MIDDLE;
        }
      }
    }

    method SendWheel(buttons: bv8, pos: Point, wheelSpeed: u16, s: Setting)
      requires !s.viewOnly
      modifies this`sent
      ensures sent == old(sent) + if s.hasCore then Steps(buttons, pos, wheelSpeed) else []
    {
      var i := 0;
      while i < wheelSpeed
        invariant 0 <= i <= wheelSpeed
        invariant sent == old(sent) + if s.hasCore then Steps(buttons, pos, i) else []
      {
        SendPointerEvent(buttons, pos, s);
        SendPointerEvent(buttons & !WHEEL, pos, s);
        i := i + 1;
      }
    }

    method OnMouse(m: Mouse, s: Setting)
      modifies this
      ensures Value() == Next(old(Value()), m, s)
    {
      hide Meant, Steps, Released;
      ghost var was := Value();
      if s.minimized {
        return;
      }
      if s.toolbarPressed {
        return;
      }
      if s.viewOnly {
        return;
      }
      if !s.connected {
        return;
      }
      var mouseButtons := SwapButtons(m, s);
      var pos := m.pos;
      if pos.x >= 0 && pos.y >= 0 {
        var buttons := mouseButtons;
        if buttons != previousMouseState || pos != previousMousePos {
          previousMouseState := Released(buttons);
          previousMousePos := pos;
          if buttons & WHEEL == 0 {
            SendPointerEvent(buttons, pos, s);
          } else {
            SendWheel(buttons, pos, m.wheelSpeed, s);
          }
          assert sent == was.sent + Emitted(was.last, m, s);
        }
      }
    }
  }
}
