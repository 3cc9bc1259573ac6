/**
 * The media device store: one record with the camera and microphone switches and the
 * device chosen for each of the three kinds (camera input, microphone input, audio output).
 * Top-level updates replace whole fields; device updates merge into the nested record.
 */
module MediaDeviceStore {
  import opened Wrappers

  datatype Device = Device(kind: string, deviceId: string)

  datatype SelectedDevices = SelectedDevices(videoinput: Device, audioinput: Device, audiooutput: Device)

  datatype MediaState = MediaState(
    isCameraEnabled: bool,
    isMicrophoneEnabled: bool,
    selectedDevices: SelectedDevices)

  /** A device with empty kind and id: nothing chosen. */
  const NoDevice: Device := Device("", "")

  /** Camera and microphone off, no device chosen for any kind. */
  const InitialMediaState: MediaState :=
    MediaState(false, false, SelectedDevices(NoDevice, NoDevice, NoDevice))

  /** A partial top-level record: None for a key the payload does not have. */
  datatype MediaPatch = MediaPatch(
    isCameraEnabled: Option<bool>,
    isMicrophoneEnabled: Option<bool>,
    selectedDevices: Option<SelectedDevices>)

  /** A partial device record: None for a kind the payload does not name. */
  datatype DevicesPatch = DevicesPatch(
    videoinput: Option<Device>,
    audioinput: Option<Device>,
    audiooutput: Option<Device>)

  datatype Kind = VideoInput | AudioInput | AudioOutput

  /** `{...s, ...p}`: the payload's keys over the record; a given device record replaces the old one whole. */
  function Merge(s: MediaState, p: MediaPatch): (r: MediaState)
    ensures p.isCameraEnabled.Some? ==> r.isCameraEnabled == p.isCameraEnabled.value
    ensures p.isMicrophoneEnabled.Some? ==> r.isMicrophoneEnabled == p.isMicrophoneEnabled.value
    ensures p.selectedDevices.Some? ==> r.selectedDevices == p.selectedDevices.value
  {
    MediaState(
      Pick(p.isCameraEnabled, s.isCameraEnabled),
      Pick(p.isMicrophoneEnabled, s.isMicrophoneEnabled),
      Pick(p.selectedDevices, s.selectedDevices))
  }

  /** `{...d, ...p}` on the device record. */
  function MergeDevices(d: SelectedDevices, p: DevicesPatch): (r: SelectedDevices)
    ensures forall k :: DeviceOf(r, k) == if Named(p, k).Some? then Named(p, k).value else DeviceOf(d, k)
  {
    SelectedDevices(
      Pick(p.videoinput, d.videoinput),
      Pick(p.audioinput, d.audioinput),
      Pick(p.audiooutput, d.audiooutput))
  }

  /** `{...s, selectedDevices: {...s.selectedDevices, ...p}}`. */
  function WithSelectedDevices(s: MediaState, p: DevicesPatch): MediaState
  {
    s.(selectedDevices := MergeDevices(s.selectedDevices, p))
  }

  function DeviceOf(d: SelectedDevices, k: Kind): Device
  {
    match k
    case VideoInput => d.videoinput
    case AudioInput => d.audioinput
    case AudioOutput => d.audiooutput
  }

  function Named(p: DevicesPatch, k: Kind): Option<Device>
  {
    match k
    case VideoInput => p.videoinput
    case AudioInput => p.audioinput
    case AudioOutput => p.audiooutput
  }

  // ---------------------------------------------------------------------------

  /** A top-level merge keeps every field the payload does not have. */
  lemma MergeKeepsAbsent(s: MediaState, p: MediaPatch)
    ensures p.isCameraEnabled.None? ==> Merge(s, p).isCameraEnabled == s.isCameraEnabled
    ensures p.isMicrophoneEnabled.None? ==> Merge(s, p).isMicrophoneEnabled == s.isMicrophoneEnabled
    ensures p.selectedDevices.None? ==> Merge(s, p).selectedDevices == s.selectedDevices
    ensures Merge(s, MediaPatch(None, None, None)) == s
  {
  }

  /** On the payload's keys the result does not depend on the record merged into. */
  lemma MergeTakesPayload(s: MediaState, t: MediaState, p: MediaPatch)
    ensures p.isCameraEnabled.Some? ==> Merge(s, p).isCameraEnabled == Merge(t, p).isCameraEnabled
    ensures p.isMicrophoneEnabled.Some? ==> Merge(s, p).isMicrophoneEnabled == Merge(t, p).isMicrophoneEnabled
    ensures p.selectedDevices.Some? ==> Merge(s, p).selectedDevices == Merge(t, p).selectedDevices
  {
  }

  /**
   * A device update replaces exactly the kinds it names: every other kind and both switches
   * keep their values.
   */
  lemma SelectedDevicesReplacesNamed(s: MediaState, p: DevicesPatch, k: Kind)
    ensures var t := WithSelectedDevices(s, p);
      && t.isCameraEnabled == s.isCameraEnabled
      && t.isMicrophoneEnabled == s.isMicrophoneEnabled
      && DeviceOf(t.selectedDevices, k) == if Named(p, k).Some? then Named(p, k).value
                                           else DeviceOf(s.selectedDevices, k)
  {
  }

  /**
   * A device update is a top-level merge whose device record is the nested merge, so unlike
   * passing `selectedDevices` to `updateStore` it never drops the kinds it does not name.
   */
  lemma SelectedDevicesIsNestedMerge(s: MediaState, p: DevicesPatch)
    ensures WithSelectedDevices(s, p) == Merge(s, MediaPatch(None, None, Some(MergeDevices(s.selectedDevices, p))))
  {
  }

  lemma SelectedDevicesIdempotent(s: MediaState, p: DevicesPatch)
    ensures WithSelectedDevices(WithSelectedDevices(s, p), p) == WithSelectedDevices(s, p)
  {
  }

  // ---------------------------------------------------------------------------

  /** The store object, holding the current record. */
  class Store {
    var state: MediaState

    constructor ()
      ensures state == InitialMediaState
    {
      state := InitialMediaState;
    }

    /** The current record, read through a one-off subscription; the store is not changed. */
    method GetValues() returns (v: Option<MediaState>)
      ensures v == Some(state)
    {
      v := Some(state);
    }

    method UpdateStore(payload: MediaPatch)
      modifies this
      ensures state == Merge(old(state), payload)
    {
      state := Merge(state, payload);
    }

    method UpdateSelectedDevice(payload: DevicesPatch)
      modifies this
      ensures state == WithSelectedDevices(old(state), payload)
    {
      state := state.(selectedDevices := MergeDevices(state.selectedDevices, payload));
    }

    method Reset()
      modifies this
      ensures state == InitialMediaState
    {
      state := InitialMediaState;
    }
  }
}
