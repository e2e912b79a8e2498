/** MIDI channel messages as the program builds them, and what a MIDI 1.0
    receiver makes of them. */
module Midi {

  /** The channel-voice commands of the MIDI library that matter here. */
  datatype Command = NoteOffCommand | NoteOnCommand | ControllerCommand

  /** A channel message: command, channel, first and second data byte. */
  datatype Message = ChannelMessage(command: Command, channel: int, data1: int, data2: int)

  /** What a receiver understands from a message. MIDI 1.0 treats a note-on
      whose velocity is zero as a note-off. */
  datatype Meaning =
    | NoteStarted(note: int, velocity: int)
    | NoteStopped(note: int)
    | ControlChanged(number: int, value: int)

  const FullVelocity: int := 127
  const ZeroVelocity: int := 0

  predicate IsDataByte(v: int) { 0 <= v <= 127 }

  predicate IsChannel(c: int) { 0 <= c <= 15 }

  /** The ranges the library's message constructor accepts. */
  predicate WellFormed(m: Message) {
    IsChannel(m.channel) && IsDataByte(m.data1) && IsDataByte(m.data2)
  }

  function Interpret(m: Message): Meaning {
    match m.command
    case NoteOffCommand => NoteStopped(m.data1)
    case NoteOnCommand => if m.data2 == 0 then NoteStopped(m.data1) else NoteStarted(m.data1, m.data2)
    case ControllerCommand => ControlChanged(m.data1, m.data2)
  }

  /** The note-on the program sends: full velocity. */
  function NoteOn(channel: int, noteId: int): (m: Message)
    ensures Interpret(m) == NoteStarted(noteId, FullVelocity)
    ensures m.channel == channel
    ensures IsChannel(channel) && IsDataByte(noteId) ==> WellFormed(m)
  {
    ChannelMessage(NoteOnCommand, channel, noteId, FullVelocity)
  }

  /** The note-off the program sends: a note-on command with velocity zero,
      never the note-off command. */
  function NoteOff(channel: int, noteId: int): (m: Message)
    ensures Interpret(m) == NoteStopped(noteId)
    ensures m.command == NoteOnCommand && m.data2 == ZeroVelocity
    ensures m.channel == channel
    ensures IsChannel(channel) && IsDataByte(noteId) ==> WellFormed(m)
  {
    ChannelMessage(NoteOnCommand, channel, noteId, ZeroVelocity)
  }

  /** A control-change message; the caller keeps the value in 0..127. */
  function Controller(channel: int, number: int, value: int): (m: Message)
    ensures Interpret(m) == ControlChanged(number, value)
    ensures m.channel == channel
    ensures IsChannel(channel) && IsDataByte(number) && IsDataByte(value) ==> WellFormed(m)
  {
    ChannelMessage(ControllerCommand, channel, number, value)
  }

  /** The note-on and note-off of the same note are told apart by the
      receiver only through the velocity byte. */
  lemma NoteOnOffDifferOnlyInVelocity(channel: int, noteId: int)
    ensures NoteOn(channel, noteId).command == NoteOff(channel, noteId).command
    ensures NoteOn(channel, noteId).data1 == NoteOff(channel, noteId).data1
    ensures Interpret(NoteOn(channel, noteId)) != Interpret(NoteOff(channel, noteId))
  {
  }
}
