/** Routing of button events to MIDI notes. The left hand owns notes 10..14
    and the right hand 20..24; each note stands for one control of one hand. */
module Buttons {
  import opened Results
  import opened VrInput
  import Midi

  datatype Hand = Left | Right

  /** The note-producing controls of a hand controller. The touchpad gives
      two: pressing it and touching it. */
  datatype Control = MenuButton | GripButton | TouchpadPress | TouchpadTouch | TriggerButton

  function HandOf(r: Role): (h: Option<Hand>)
    ensures h.Some? <==> IsHand(r)
    ensures h == Some(Left) <==> r == LeftHand
  {
    match r
    case LeftHand => Some(Left)
    case RightHand => Some(Right)
    case _ => None
  }

  /** The physical button a control sits on. */
  function ButtonOf(c: Control): ButtonId {
    match c
    case MenuButton => ApplicationMenu
    case GripButton => Grip
    case TouchpadPress => Touchpad
    case TouchpadTouch => Touchpad
    case TriggerButton => Trigger
  }

  function BaseNote(h: Hand): int {
    if h == Left then 10 else 20
  }

  function Offset(c: Control): int {
    match c
    case MenuButton => 0
    case GripButton => 1
    case TouchpadPress => 2
    case TouchpadTouch => 3
    case TriggerButton => 4
  }

  /** The note id of a control on a hand. */
  function NoteId(h: Hand, c: Control): (id: int)
    ensures h == Left ==> 10 <= id <= 14
    ensures h == Right ==> 20 <= id <= 24
    ensures Midi.IsDataByte(id)
  {
    BaseNote(h) + Offset(c)
  }

  /** Reads a note id back as the hand and control it stands for. */
  function DecodeNote(id: int): Option<(Hand, Control)> {
    var h := if 10 <= id <= 14 then Some(Left) else if 20 <= id <= 24 then Some(Right) else None;
    match h
    case None => None
    case Some(hand) =>
      var k := id - BaseNote(hand);
      var c := if k == 0 then MenuButton else if k == 1 then GripButton
               else if k == 2 then TouchpadPress else if k == 3 then TouchpadTouch else TriggerButton;
      Some((hand, c))
  }

  lemma NoteIdRoundTrip(h: Hand, c: Control)
    ensures DecodeNote(NoteId(h, c)) == Some((h, c))
  {
  }

  lemma DecodeNoteSound(id: int)
    ensures DecodeNote(id).Some? ==> NoteId(DecodeNote(id).value.0, DecodeNote(id).value.1) == id
    ensures DecodeNote(id).Some? <==> (10 <= id <= 14 || 20 <= id <= 24)
  {
  }

  /** Distinct (hand, control) pairs get distinct notes; in particular the
      two hands never share a note id. */
  lemma NoteIdInjective(h1: Hand, c1: Control, h2: Hand, c2: Control)
    ensures NoteId(h1, c1) == NoteId(h2, c2) ==> h1 == h2 && c1 == c2
  {
  }

  /** Press and touch switch a note on; unpress and untouch switch it off. */
  predicate IsOnEdge(t: EventType) {
    t == ButtonPress || t == ButtonTouch
  }

  predicate IsTouchEdge(t: EventType) {
    t == ButtonTouch || t == ButtonUntouch
  }

  /** The control a button event on a button operates, and whether it is an
      on-edge; None where the button's switch has no case for the event. */
  function ControlFor(b: ButtonId, t: EventType): (r: Option<(Control, bool)>)
    ensures r.Some? ==> ButtonOf(r.value.0) == b && r.value.1 == IsOnEdge(t)
    ensures r.Some? ==> (r.value.0 == TouchpadTouch <==> IsTouchEdge(t))
  {
    match b
    case ApplicationMenu => PressOnly(MenuButton, t)
    case Grip => PressOnly(GripButton, t)
    case Trigger => PressOnly(TriggerButton, t)
    case Touchpad =>
      if t == ButtonPress || t == ButtonUnpress then Some((TouchpadPress, t == ButtonPress))
      else if IsTouchEdge(t) then Some((TouchpadTouch, t == ButtonTouch))
      else None
    case OtherButton => None
  }

  /** A button that reacts to press and unpress only. */
  function PressOnly(c: Control, t: EventType): Option<(Control, bool)> {
    if t == ButtonPress then Some((c, true))
    else if t == ButtonUnpress then Some((c, false))
    else None
  }

  /** The note event `m` announces exactly the (hand, control, edge) that
      event `e` reports. */
  ghost predicate Announces(m: Midi.Message, e: VrEvent, channel: int) {
    && m.channel == channel
    && match Midi.Interpret(m)
       case NoteStarted(id, v) => v == Midi.FullVelocity && IsOnEdge(e.eventType) && Describes(id, e)
       case NoteStopped(id) => !IsOnEdge(e.eventType) && Describes(id, e)
       case ControlChanged(_, _) => false
  }

  /** Note `id` stands for the hand of `e`'s device and a control on `e`'s
      button, the touch control exactly when `e` is a touch edge. */
  ghost predicate Describes(id: int, e: VrEvent) {
    && DecodeNote(id).Some?
    && var (h, c) := DecodeNote(id).value;
    && HandOf(e.role) == Some(h)
    && ButtonOf(c) == e.button
    && (c == TouchpadTouch <==> IsTouchEdge(e.eventType))
  }

  /** The message, if any, one polled button event produces. */
  function Route(e: VrEvent, channel: int): (r: Option<Midi.Message>)
    ensures r.Some? <==>
              && IsButtonEvent(e.eventType)
              && e.deviceClass == Controller
              && IsHand(e.role)
              && e.button != OtherButton
              && (e.button == Touchpad || !IsTouchEdge(e.eventType))
    ensures r.Some? ==> Announces(r.value, e, channel)
    ensures r.Some? && Midi.IsChannel(channel) ==> Midi.WellFormed(r.value)
  {
    if !IsButtonEvent(e.eventType) || e.deviceClass != Controller then None
    else match HandOf(e.role)
      case None => None
      case Some(h) =>
        match ControlFor(e.button, e.eventType)
        case None => None
        case Some((c, on)) =>
          var id := NoteId(h, c);
          NoteIdRoundTrip(h, c);
          Some(if on then Midi.NoteOn(channel, id) else Midi.NoteOff(channel, id))
  }

  /** The id of the note a routed message is about. */
  function NoteOf(m: Midi.Message): int {
    match Midi.Interpret(m)
    case NoteStarted(id, _) => id
    case NoteStopped(id) => id
    case ControlChanged(n, _) => n
  }

  /** Every routed note lies in its hand's range, so left and right notes
      never coincide. */
  lemma RoutedNoteRange(e: VrEvent, channel: int)
    requires Route(e, channel).Some?
    ensures e.role == LeftHand ==> 10 <= NoteOf(Route(e, channel).value) <= 14
    ensures e.role == RightHand ==> 20 <= NoteOf(Route(e, channel).value) <= 24
  {
  }

  /** Releasing what was pressed (or untouching what was touched) switches
      off the very note the press switched on. */
  lemma ReleaseMatchesPress(e: VrEvent, channel: int)
    requires e.eventType == ButtonPress || e.eventType == ButtonTouch
    requires Route(e, channel).Some?
    ensures var release := e.(eventType := if e.eventType == ButtonPress then ButtonUnpress else ButtonUntouch);
            && Route(release, channel).Some?
            && Midi.Interpret(Route(e, channel).value) == Midi.NoteStarted(NoteOf(Route(release, channel).value), Midi.FullVelocity)
            && Midi.Interpret(Route(release, channel).value) == Midi.NoteStopped(NoteOf(Route(release, channel).value))
  {
  }
}
