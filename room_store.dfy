/**
 * The room store: one record of room state (current room, loading and sharing flags,
 * connection and device status, the toast text and the chat messages).  Every update
 * replaces the record with a copy in which only the named fields differ.
 */
module RoomStore {
  import opened Wrappers

  datatype ConnectionStatus =
    | AuthorizingRoom | AuthorizedRoom | AuthorizingRoomFailed
    | Authorizing | Authorized | AuthorizedFailed
    | Connecting | Connected | ConnectionFailed | Disconnected
    | Reconnecting | Reconnected | ReconnectionFailed
    | NoConnectionStatus  // the empty status ''

  datatype DeviceStatus = DeviceLoading | DeviceLoaded | DeviceLoadingFailed | NoDeviceStatus

  /** Stands for the media SDK's room object, which the store only holds. */
  datatype Room = Room(id: nat)

  /** A chat message; `name` is absent when the sender has none. */
  datatype Message = Message(message: string, kind: string, name: Option<string>, time: string)

  datatype RoomState = RoomState(
    currentRoom: Option<Room>,
    isLoading: bool,
    isRemoteParticipant: bool,
    isScreenShare: bool,
    connectionStatus: ConnectionStatus,
    deviceStatus: DeviceStatus,
    toastMessage: string,
    messageArray: seq<Message>)

  /** The record a new or reset store holds. */
  function DefaultRoomState(): (s: RoomState)
    ensures s.currentRoom.None? && !s.isLoading && !s.isRemoteParticipant && !s.isScreenShare
    ensures s.connectionStatus == NoConnectionStatus && s.deviceStatus == NoDeviceStatus
    ensures s.toastMessage == [] && s.messageArray == []
  {
    RoomState(None, false, false, false, NoConnectionStatus, NoDeviceStatus, "", [])
  }

  /**
   * A partial record: None for a key the payload does not have.  `currentRoom` may be given
   * as undefined, hence the nested option.
   */
  datatype RoomPatch = RoomPatch(
    currentRoom: Option<Option<Room>>,
    isLoading: Option<bool>,
    isRemoteParticipant: Option<bool>,
    isScreenShare: Option<bool>,
    connectionStatus: Option<ConnectionStatus>,
    deviceStatus: Option<DeviceStatus>,
    toastMessage: Option<string>,
    messageArray: Option<seq<Message>>)

  const EmptyPatch: RoomPatch := RoomPatch(None, None, None, None, None, None, None, None)

  datatype Field =
    | CurrentRoom | IsLoading | IsRemoteParticipant | IsScreenShare
    | ConnectionStatusField | DeviceStatusField | ToastMessage | MessageArray

  const AllFields: set<Field> :=
    {CurrentRoom, IsLoading, IsRemoteParticipant, IsScreenShare,
     ConnectionStatusField, DeviceStatusField, ToastMessage, MessageArray}

  /** `{...s, ...p}`: each key the payload has takes the payload's value; no other field changes. */
  function Merge(s: RoomState, p: RoomPatch): (r: RoomState)
    ensures Changed(s, r) <= Present(p)
    ensures p.currentRoom.Some? ==> r.currentRoom == p.currentRoom.value
    ensures p.isLoading.Some? ==> r.isLoading == p.isLoading.value
    ensures p.isRemoteParticipant.Some? ==> r.isRemoteParticipant == p.isRemoteParticipant.value
    ensures p.isScreenShare.Some? ==> r.isScreenShare == p.isScreenShare.value
    ensures p.connectionStatus.Some? ==> r.connectionStatus == p.connectionStatus.value
    ensures p.deviceStatus.Some? ==> r.deviceStatus == p.deviceStatus.value
    ensures p.toastMessage.Some? ==> r.toastMessage == p.toastMessage.value
    ensures p.messageArray.Some? ==> r.messageArray == p.messageArray.value
  {
    RoomState(
      Pick(p.currentRoom, s.currentRoom),
      Pick(p.isLoading, s.isLoading),
      Pick(p.isRemoteParticipant, s.isRemoteParticipant),
      Pick(p.isScreenShare, s.isScreenShare),
      Pick(p.connectionStatus, s.connectionStatus),
      Pick(p.deviceStatus, s.deviceStatus),
      Pick(p.toastMessage, s.toastMessage),
      Pick(p.messageArray, s.messageArray))
  }

  /** Whether a payload has key `f`. */
  predicate Has(p: RoomPatch, f: Field)
  {
    match f
    case CurrentRoom => p.currentRoom.Some?
    case IsLoading => p.isLoading.Some?
    case IsRemoteParticipant => p.isRemoteParticipant.Some?
    case IsScreenShare => p.isScreenShare.Some?
    case ConnectionStatusField => p.connectionStatus.Some?
    case DeviceStatusField => p.deviceStatus.Some?
    case ToastMessage => p.toastMessage.Some?
    case MessageArray => p.messageArray.Some?
  }

  /** Whether two records differ in field `f`. */
  predicate Differs(s: RoomState, t: RoomState, f: Field)
  {
    match f
    case CurrentRoom => s.currentRoom != t.currentRoom
    case IsLoading => s.isLoading != t.isLoading
    case IsRemoteParticipant => s.isRemoteParticipant != t.isRemoteParticipant
    case IsScreenShare => s.isScreenShare != t.isScreenShare
    case ConnectionStatusField => s.connectionStatus != t.connectionStatus
    case DeviceStatusField => s.deviceStatus != t.deviceStatus
    case ToastMessage => s.toastMessage != t.toastMessage
    case MessageArray => s.messageArray != t.messageArray
  }

  /** The keys a payload has. */
  function Present(p: RoomPatch): set<Field>
  {
    set f | f in AllFields && Has(p, f)
  }

  /** The fields in which two records differ. */
  function Changed(s: RoomState, t: RoomState): set<Field>
  {
    set f | f in AllFields && Differs(s, t, f)
  }

  /** `{...p, ...q}` on payloads: the keys of `q` over those of `p`. */
  function Then(p: RoomPatch, q: RoomPatch): RoomPatch
  {
    RoomPatch(
      if q.currentRoom.Some? then q.currentRoom else p.currentRoom,
      if q.isLoading.Some? then q.isLoading else p.isLoading,
      if q.isRemoteParticipant.Some? then q.isRemoteParticipant else p.isRemoteParticipant,
      if q.isScreenShare.Some? then q.isScreenShare else p.isScreenShare,
      if q.connectionStatus.Some? then q.connectionStatus else p.connectionStatus,
      if q.deviceStatus.Some? then q.deviceStatus else p.deviceStatus,
      if q.toastMessage.Some? then q.toastMessage else p.toastMessage,
      if q.messageArray.Some? then q.messageArray else p.messageArray)
  }

  // ---------------------------------------------------------------------------
  // What a merge does

  /** On the payload's keys the result does not depend on the record merged into. */
  lemma MergeTakesPayload(s: RoomState, t: RoomState, p: RoomPatch)
    ensures Changed(Merge(s, p), Merge(t, p)) !! Present(p)
  {
  }

  lemma MergeEmptyPatch(s: RoomState)
    ensures Merge(s, EmptyPatch) == s
  {
  }

  /** Two merges in a row are one merge with the combined payload. */
  lemma MergeThen(s: RoomState, p: RoomPatch, q: RoomPatch)
    ensures Merge(Merge(s, p), q) == Merge(s, Then(p, q))
  {
  }

  lemma MergeIdempotent(s: RoomState, p: RoomPatch)
    ensures Merge(Merge(s, p), p) == Merge(s, p)
  {
  }

  // ---------------------------------------------------------------------------
  // The single-field updates

  /** `{...s, connectionStatus: c}`. */
  function WithConnectionStatus(s: RoomState, c: ConnectionStatus): (t: RoomState)
    ensures t.connectionStatus == c && Changed(s, t) <= {ConnectionStatusField}
    ensures t == Merge(s, EmptyPatch.(connectionStatus := Some(c)))
  {
    s.(connectionStatus := c)
  }

  /** `{...s, deviceStatus: d}`. */
  function WithDeviceStatus(s: RoomState, d: DeviceStatus): (t: RoomState)
    ensures t.deviceStatus == d && Changed(s, t) <= {DeviceStatusField}
    ensures t == Merge(s, EmptyPatch.(deviceStatus := Some(d)))
  {
    s.(deviceStatus := d)
  }

  /** `{...s, toastMessage: m}`. */
  function WithToast(s: RoomState, m: string): (t: RoomState)
    ensures t.toastMessage == m && Changed(s, t) <= {ToastMessage}
    ensures t == Merge(s, EmptyPatch.(toastMessage := Some(m)))
  {
    s.(toastMessage := m)
  }

  /** `{...s, messageArray: [...s.messageArray, m]}`: the message goes last, the rest stay in order. */
  function WithMessage(s: RoomState, m: Message): (t: RoomState)
    ensures |t.messageArray| == |s.messageArray| + 1
    ensures t.messageArray[..|s.messageArray|] == s.messageArray && t.messageArray[|s.messageArray|] == m
    ensures Changed(s, t) <= {MessageArray}
  {
    s.(messageArray := s.messageArray + [m])
  }

  /** Appending messages one at a time keeps them in arrival order. */
  lemma {:induction false} MessagesInOrder(s: RoomState, ms: seq<Message>)
    ensures AppendAll(s, ms) == s.(messageArray := s.messageArray + ms)
    decreases ms
  {
    if ms != [] {
      MessagesInOrder(WithMessage(s, ms[0]), ms[1..]);
      assert s.messageArray + [ms[0]] + ms[1..] == s.messageArray + ms;
    }
  }

  /** The record after `updateMessageArray` for each of `ms` in turn. */
  function AppendAll(s: RoomState, ms: seq<Message>): RoomState
    decreases ms
  {
    if ms == [] then s else AppendAll(WithMessage(s, ms[0]), ms[1..])
  }

  // ---------------------------------------------------------------------------

  /** The store object, holding the current record. */
  class Store {
    var state: RoomState

    constructor ()
      ensures state == DefaultRoomState()
    {
      state := DefaultRoomState();
    }

    /** The current record, read through a one-off subscription; the store is not changed. */
    method Select() returns (v: Option<RoomState>)
      ensures v == Some(state)
    {
      v := Some(state);
    }

    method UpdateStore(payload: RoomPatch)
      modifies this
      ensures state == Merge(old(state), payload)
    {
      state := Merge(state, payload);
    }

    method UpdateConnectionStatus(status: ConnectionStatus)
      modifies this
      ensures state == WithConnectionStatus(old(state), status)
    {
      state := state.(connectionStatus := status);
    }

    method UpdateDeviceStatus(status: DeviceStatus)
      modifies this
      ensures state == WithDeviceStatus(old(state), status)
    {
      state := state.(deviceStatus := status);
    }

    /** Shows `message` now; the timed clear that follows is not modelled. */
    method Toast(message: string)
      modifies this
      ensures state == WithToast(old(state), message)
    {
      state := state.(toastMessage := message);
    }

    method UpdateMessageArray(message: Message)
      modifies this
      ensures state == WithMessage(old(state), message)
    {
      state := state.(messageArray := state.messageArray + [message]);
    }

    method Reset()
      modifies this
      ensures state == DefaultRoomState()
    {
      state := DefaultRoomState();
    }
  }
}
