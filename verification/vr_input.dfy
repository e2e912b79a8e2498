/** The values the program reads from the VR runtime, as plain data. Each
    runtime query (device class, controller role, connection state, pose)
    is represented by its answer. */
module VrInput {
  import opened Results

  datatype DeviceClass = InvalidClass | Hmd | Controller | GenericTracker | TrackingReference | DisplayRedirect

  datatype Role = InvalidRole | LeftHand | RightHand | OptOut

  /** Event types; every type the program does not switch on is `OtherEvent`. */
  datatype EventType =
    | Quit | ProcessQuit | QuitAbortedUserPrompt | QuitAcknowledged
    | ButtonPress | ButtonUnpress | ButtonTouch | ButtonUntouch
    | OtherEvent

  /** Button ids; every id the program does not switch on is `OtherButton`. */
  datatype ButtonId = ApplicationMenu | Grip | Touchpad | Trigger | OtherButton

  /** A polled event, with the class and role the runtime reports for the
      event's device. */
  datatype VrEvent = VrEvent(eventType: EventType, deviceClass: DeviceClass, role: Role, button: ButtonId)

  /** The part of a tracked pose the program uses: the two status flags and
      the x and y translation cells (m3 and m7) of the 3x4 device matrix. */
  datatype Pose = Pose(deviceIsConnected: bool, poseIsValid: bool, m3: real, m7: real)

  /** One entry of the device table scanned every tick: its class, whether
      the runtime says it is connected, the pose returned by the
      state-with-pose query (None when that query fails) and its role. */
  datatype Device = Device(deviceClass: DeviceClass, connected: bool, state: Option<Pose>, role: Role)

  /** The four event types that end the frame loop. */
  predicate IsQuit(t: EventType) {
    t == Quit || t == ProcessQuit || t == QuitAbortedUserPrompt || t == QuitAcknowledged
  }

  predicate IsButtonEvent(t: EventType) {
    t == ButtonPress || t == ButtonUnpress || t == ButtonTouch || t == ButtonUntouch
  }

  predicate IsHand(r: Role) {
    r == LeftHand || r == RightHand
  }
}
