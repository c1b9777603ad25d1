/**
 * The in-room transcription view with its socket, recorder and microphone
 * stream reduced to their observable states. Socket events (open,
 * message, close, error), the record toggle, the save callback, the fetches
 * made on entry, teardown and the host's exit popup are methods of one
 * class whose fields are the component's state and refs.
 */
module AudioTranscription {
  import opened Wrappers
  import opened JsText
  import FetchService

  const IDLE_STATUS: string := "Click to start transcription"
  const CONNECTED_STATUS: string := "Connected. Ready to record."
  const ERROR_STATUS: string := "Connection error. Please try again."
  const CONNECTING_STATUS: string := "Connecting..."
  const CONNECT_FAILED_STATUS: string := "Failed to connect. Please try again."
  const RECORDING_STATUS: string := "Recording..."
  const RECORDING_FAILED_STATUS: string := "Failed to start recording."
  const LOGIN_PATH: string := "/login"
  const JOIN_ROOM_PATH: string := "/join-room"
  /** The live buffer's texts are joined with this when a turn is finalised. */
  const SEPARATOR: string := " "

  datatype User = User(uid: string, username: string)

  datatype TranscriptLine = TranscriptLine(speakerName: string, speakerUid: Option<string>, text: string, createdAt: string)

  /** One entry of the transcript history as the backend returns it. */
  datatype TranscriptionRecord = TranscriptionRecord(createdAt: string, userUid: string, transcriptedText: string, username: string)

  datatype ReadyState = Connecting | Open | Closing | Closed

  /** `socketRef.current` */
  datatype SocketRef = NoSocket | Socket(readyState: ReadyState)

  datatype RecorderState = Inactive | Recording

  /** `recorderRef.current` */
  datatype RecorderRef = NoRecorder | Recorder(state: RecorderState)

  /** `streamRef.current`, with whether its tracks are still live. */
  datatype StreamRef = NoStream | Stream(tracksLive: bool)

  // ---------------------------------------------------------------------
  // Pure parts: the history mapping, the buffer's texts, finalisation

  function ToLine(r: TranscriptionRecord): TranscriptLine {
    TranscriptLine(r.username, Some(r.userUid), r.transcriptedText, r.createdAt)
  }

  /** The history `map` of `getConversations`: one line per record, same order, field by field. */
  function MapHistory(records: seq<TranscriptionRecord>): (lines: seq<TranscriptLine>)
    ensures |lines| == |records|
    ensures forall i :: 0 <= i < |records| ==>
      && lines[i].speakerName == records[i].username
      && lines[i].speakerUid == Some(records[i].userUid)
      && lines[i].text == records[i].transcriptedText
      && lines[i].createdAt == records[i].createdAt
  {
    if records == [] then [] else [ToLine(records[0])] + MapHistory(records[1..])
  }

  /** `transcript.map(t => t.text)` */
  function Texts(buffer: seq<TranscriptLine>): (texts: seq<string>)
    ensures |texts| == |buffer|
    ensures forall i :: 0 <= i < |buffer| ==> texts[i] == buffer[i].text
  {
    if buffer == [] then [] else [buffer[0].text] + Texts(buffer[1..])
  }

  /**
   * The line a stop appends to the permanent transcript: the buffer's texts
   * joined by a space, tagged with the current user. There is none only for
   * an empty buffer or a buffer of one empty text; otherwise the line's text
   * starts with the buffer's first text.
   */
  function Finalize(buffer: seq<TranscriptLine>, user: User, now: string): (line: Option<TranscriptLine>)
    ensures line.None? <==> buffer == [] || (|buffer| == 1 && buffer[0].text == "")
    ensures line.Some? ==>
      && line.value.speakerName == user.username && line.value.speakerUid == Some(user.uid)
      && line.value.createdAt == now && line.value.text != ""
      && buffer[0].text <= line.value.text
  {
    if |buffer| > 0 then
      var text := Join(Texts(buffer), SEPARATOR);
      JoinLength(Texts(buffer), SEPARATOR);
      assert Texts(buffer)[0] <= text;
      if text != "" then Some(TranscriptLine(user.username, Some(user.uid), text, now)) else None
    else None
  }

  /** Every line of the live buffer has text and is attributed to `user`. */
  ghost predicate LiveBufferOf(buffer: seq<TranscriptLine>, user: Option<User>) {
    forall i :: 0 <= i < |buffer| ==>
      buffer[i].text != "" && user.Some? && buffer[i].speakerName == user.value.username
      && buffer[i].speakerUid == Some(user.value.uid)
  }

  lemma TextsConcat(a: seq<TranscriptLine>, b: seq<TranscriptLine>)
    ensures Texts(a + b) == Texts(a) + Texts(b)
  {
  }

  /**
   * A live buffer yields a finalised line exactly when it is non-empty, and
   * that line holds the joined texts under the buffer owner's name.
   */
  lemma FinalizeLine(buffer: seq<TranscriptLine>, user: User, now: string)
    requires LiveBufferOf(buffer, Some(user))
    ensures Finalize(buffer, user, now).None? <==> buffer == []
    ensures buffer != [] ==>
      Finalize(buffer, user, now) == Some(TranscriptLine(user.username, Some(user.uid), Join(Texts(buffer), SEPARATOR), now))
  {
    JoinEmptyIff(Texts(buffer), SEPARATOR);
  }

  /**
   * Texts keep their arrival order: a message that arrives later ends up
   * after a space at the end of the finalised text.
   */
  lemma FinalizeInArrivalOrder(buffer: seq<TranscriptLine>, line: TranscriptLine, user: User, now: string)
    requires buffer != [] && LiveBufferOf(buffer + [line], Some(user))
    ensures Finalize(buffer + [line], user, now).Some? && Finalize(buffer, user, now).Some?
    ensures Finalize(buffer + [line], user, now).value.text == Finalize(buffer, user, now).value.text + SEPARATOR + line.text
  {
    assert LiveBufferOf(buffer, Some(user)) by {
      assert forall i :: 0 <= i < |buffer| ==> buffer[i] == (buffer + [line])[i];
    }
    FinalizeLine(buffer, user, now);
    FinalizeLine(buffer + [line], user, now);
    TextsConcat(buffer, [line]);
    JoinConcat(Texts(buffer), Texts([line]), SEPARATOR);
  }

  /**
   * A buffer that a failed save left in place is finalised again, as the
   * start of the next turn's text, at the following stop.
   */
  lemma KeptBufferIsFinalizedAgain(kept: seq<TranscriptLine>, later: seq<TranscriptLine>, user: User, now: string)
    requires kept != [] && LiveBufferOf(kept + later, Some(user))
    ensures Finalize(kept, user, now).Some? && Finalize(kept + later, user, now).Some?
    ensures Finalize(kept, user, now).value.text <= Finalize(kept + later, user, now).value.text
  {
    assert LiveBufferOf(kept, Some(user)) by {
      assert forall i :: 0 <= i < |kept| ==> kept[i] == (kept + later)[i];
    }
    FinalizeLine(kept, user, now);
    FinalizeLine(kept + later, user, now);
    if later == [] {
      assert kept + later == kept;
    } else {
      TextsConcat(kept, later);
      JoinConcat(Texts(kept), Texts(later), SEPARATOR);
    }
  }

  // ---------------------------------------------------------------------
  // Resource states

  /** `setupWebSocketConnection`: no socket without a user and a room id, else a new connecting one. */
  function Connect(user: Option<User>, roomId: Option<string>): (s: SocketRef)
    ensures s.Socket? <==> user.Some? && roomId.Some?
    ensures s.Socket? ==> s.readyState == Connecting
  {
    if user.Some? && roomId.Some? then Socket(Connecting) else NoSocket
  }

  /** The reconnect in the start branch, after its wait: open if the socket opened in time. */
  function AfterWait(user: Option<User>, roomId: Option<string>, openedInTime: bool): SocketRef {
    match Connect(user, roomId)
    case NoSocket => NoSocket
    case Socket(_) => if openedInTime then Socket(Open) else Socket(Connecting)
  }

  /** `socket.close()`: a no-op once closing or closed. */
  function CloseSocket(s: SocketRef): SocketRef {
    match s
    case NoSocket => NoSocket
    case Socket(state) => if state == Connecting || state == Open then Socket(Closing) else s
  }

  /** Stop the recorder unless it is absent or already inactive. */
  function StopRecorder(r: RecorderRef): RecorderRef {
    if r.Recorder? && r.state != Inactive then Recorder(Inactive) else r
  }

  /** `getTracks().forEach(track => track.stop())`, keeping the reference. */
  function StopTracks(s: StreamRef): StreamRef {
    if s.Stream? then Stream(false) else s
  }

  /** Nothing is left open, recording or capturing. */
  predicate Released(s: SocketRef, r: RecorderRef, m: StreamRef) {
    (s.NoSocket? || s.readyState == Closing || s.readyState == Closed)
    && (r.NoRecorder? || r.state == Inactive)
    && (m.NoStream? || !m.tracksLive)
  }

  /**
   * Teardown releases every resource, whether or not it was ever acquired,
   * and running it again changes nothing.
   */
  lemma TeardownReleases(s: SocketRef, r: RecorderRef, m: StreamRef)
    ensures Released(CloseSocket(s), StopRecorder(r), NoStream)
    ensures Released(CloseSocket(s), StopRecorder(r), StopTracks(m))
    ensures CloseSocket(CloseSocket(s)) == CloseSocket(s)
    ensures StopRecorder(StopRecorder(r)) == StopRecorder(r)
    ensures StopTracks(StopTracks(m)) == StopTracks(m)
  {
  }

  // ---------------------------------------------------------------------
  // The view

  class TranscriptionView {
    const user: Option<User>
    const roomId: Option<string>
    var status: string
    var isRecording: bool
    /** The live buffer. */
    var transcript: seq<TranscriptLine>
    /** The permanent transcript. */
    var allTranscript: seq<TranscriptLine>
    var messagesLoading: bool
    var roomName: Option<string>
    var isHost: Option<bool>
    var isExitPopupVisible: bool
    var socket: SocketRef
    var recorder: RecorderRef
    var stream: StreamRef
    /** The last `navigate` target, if any. */
    var navigatedTo: Option<string>
    /** Saves handed to `saveTranscript` whose promise has not settled yet. */
    ghost var pendingSaves: nat

    ghost predicate Valid()
      reads this
    {
      (socket.Socket? ==> user.Some? && roomId.Some?) && LiveBufferOf(transcript, user)
    }

    /** Whether the recorder's chunks would reach the server: only through an open socket. */
    predicate ForwardsAudio()
      reads this
    {
      socket == Socket(Open)
    }

    /**
     * The mount effect once the user has loaded: redirect to log-in without
     * a user, to the room list without a room id, else open one socket.
     */
    constructor Mount(user: Option<User>, roomId: Option<string>)
      ensures Valid() && this.user == user && this.roomId == roomId
      ensures status == IDLE_STATUS && !isRecording && transcript == [] && allTranscript == []
      ensures messagesLoading && roomName.None? && isHost.None? && !isExitPopupVisible
      ensures socket == Connect(user, roomId) && recorder == NoRecorder && stream == NoStream
      ensures navigatedTo == if user.None? then Some(LOGIN_PATH) else if roomId.None? then Some(JOIN_ROOM_PATH) else None
      ensures pendingSaves == 0
    {
      pendingSaves := 0;
      this.user := user;
      this.roomId := roomId;
      status := IDLE_STATUS;
      isRecording := false;
      transcript := [];
      allTranscript := [];
      messagesLoading := true;
      roomName := None;
      isHost := None;
      isExitPopupVisible := false;
      recorder := NoRecorder;
      stream := NoStream;
      if user.None? {
        navigatedTo := Some(LOGIN_PATH);
        socket := NoSocket;
      } else if roomId.None? {
        navigatedTo := Some(JOIN_ROOM_PATH);
        socket := NoSocket;
      } else {
        navigatedTo := None;
        socket := Socket(Connecting);
      }
    }

    /** `onopen` */
    method OnOpen()
      requires Valid() && socket == Socket(Connecting)
      modifies this`status, this`socket
      ensures Valid() && status == CONNECTED_STATUS && socket == Socket(Open)
    {
      status := CONNECTED_STATUS;
      socket := Socket(Open);
    }

    /**
     * `onmessage`, which a WebSocket delivers only while open: empty data is
     * ignored; otherwise one line, by this user, goes to the end of the live
     * buffer.
     */
    method OnMessage(data: string, now: string)
      requires Valid() && socket == Socket(Open)
      modifies this`transcript
      ensures Valid()
      ensures data == "" ==> transcript == old(transcript)
      ensures data != "" ==>
        transcript == old(transcript) + [TranscriptLine(user.value.username, Some(user.value.uid), data, now)]
    {
      if data == "" {
        return;
      }
      transcript := transcript + [TranscriptLine(user.value.username, Some(user.value.uid), data, now)];
    }

    /** `onclose`: back to the idle prompt, not recording. The recorder and stream are left as they are. */
    method OnClose()
      requires Valid() && socket.Socket?
      modifies this`status, this`isRecording, this`socket
      ensures Valid() && status == IDLE_STATUS && !isRecording && socket == Socket(Closed)
      ensures !ForwardsAudio()
    {
      status := IDLE_STATUS;
      isRecording := false;
      socket := Socket(Closed);
    }

    /**
     * `onerror`: the error prompt, not recording. A WebSocket reports an
     * error only once its connection has failed, so its ready state is
     * already closed; `onclose` follows.
     */
    method OnError()
      requires Valid() && socket.Socket?
      modifies this`status, this`isRecording, this`socket
      ensures Valid() && status == ERROR_STATUS && !isRecording && socket == Socket(Closed)
      ensures !ForwardsAudio()
    {
      status := ERROR_STATUS;
      isRecording := false;
      socket := Socket(Closed);
    }

    /** The recorder's `dataavailable` listener: a chunk goes out only if it is non-empty and the socket is open. */
    method OnAudioChunk(size: int) returns (forwarded: bool)
      requires recorder.Recorder?
      ensures forwarded <==> size > 0 && ForwardsAudio()
    {
      forwarded := size > 0 && socket.Socket? && socket.readyState == Open;
    }

    /**
     * `toggleRecording`. The environment's answers are parameters: whether
     * a fresh socket opened within the wait, whether the microphone was
     * granted, whether `new MediaRecorder` succeeded, and whether its
     * `start` succeeded. A recorder that was created but failed to start
     * still replaces the previous one in the ref.
     * `saved` is the text handed to `saveTranscript`, if any.
     */
    method ToggleRecording(openedInTime: bool, micGranted: bool, recorderCreated: bool, recorderStarted: bool, now: string)
      returns (saved: Option<string>)
      requires Valid()
      modifies this`status, this`isRecording, this`allTranscript, this`socket, this`recorder, this`stream, this`navigatedTo,
        this`pendingSaves
      ensures Valid() && transcript == old(transcript)
      ensures pendingSaves == old(pendingSaves) + (if saved.Some? then 1 else 0)
      // no user: alert and go to log-in, nothing else
      ensures user.None? ==>
        && navigatedTo == Some(LOGIN_PATH) && saved == None && status == old(status) && isRecording == old(isRecording)
        && allTranscript == old(allTranscript) && socket == old(socket) && recorder == old(recorder) && stream == old(stream)
      // start
      ensures user.Some? && !old(isRecording) ==>
        var ready := if old(socket) == Socket(Open) then old(socket) else AfterWait(user, roomId, openedInTime);
        && saved == None && allTranscript == old(allTranscript) && navigatedTo == old(navigatedTo)
        && socket == ready
        && (ready != Socket(Open) ==>
             status == CONNECT_FAILED_STATUS && !isRecording && recorder == old(recorder) && stream == old(stream))
        && (ready == Socket(Open) && !micGranted ==>
             status == RECORDING_FAILED_STATUS && !isRecording && recorder == old(recorder) && stream == old(stream))
        && (ready == Socket(Open) && micGranted ==> isRecording && stream == Stream(true))
        && (ready == Socket(Open) && micGranted && !recorderCreated ==>
             status == RECORDING_FAILED_STATUS && recorder == old(recorder))
        && (ready == Socket(Open) && micGranted && recorderCreated && !recorderStarted ==>
             status == RECORDING_FAILED_STATUS && recorder == Recorder(Inactive))
        && (ready == Socket(Open) && micGranted && recorderCreated && recorderStarted ==>
             status == RECORDING_STATUS && recorder == Recorder(Recording))
      // stop
      ensures user.Some? && old(isRecording) ==>
        var line := Finalize(old(transcript), user.value, now);
        && status == IDLE_STATUS && !isRecording && navigatedTo == old(navigatedTo)
        && recorder == StopRecorder(old(recorder)) && stream == NoStream
        && socket == (if old(socket) == Socket(Open) then Socket(Closing) else old(socket))
        && allTranscript == old(allTranscript) + (if line.Some? then [line.value] else [])
        && saved == (if line.Some? then Some(line.value.text) else None)
        && !ForwardsAudio()
    {
      saved := None;
      if user.None? {
        navigatedTo := Some(LOGIN_PATH);
        return;
      }
      var u := user.value;
      if !isRecording {
        if !(socket.Socket? && socket.readyState == Open) {
          status := CONNECTING_STATUS;
          socket := Connect(user, roomId);
          // the 500 ms wait, during which `onopen` may fire
          if socket.Socket? && openedInTime {
            status := CONNECTED_STATUS;
            socket := Socket(Open);
          }
          if !(socket.Socket? && socket.readyState == Open) {
            status := CONNECT_FAILED_STATUS;
            return;
          }
        }
        if !micGranted {
          status := RECORDING_FAILED_STATUS;
          return;
        }
        stream := Stream(true);
        status := RECORDING_STATUS;
        isRecording := true;
        if !recorderCreated {
          status := RECORDING_FAILED_STATUS;
          return;
        }
        recorder := Recorder(Inactive);
        if !recorderStarted {
          status := RECORDING_FAILED_STATUS;
          return;
        }
        recorder := Recorder(Recording);
      } else {
        status := IDLE_STATUS;
        isRecording := false;
        if recorder.Recorder? && recorder.state != Inactive {
          recorder := Recorder(Inactive);
        }
        if socket.Socket? && socket.readyState == Open {
          socket := Socket(Closing);
        }
        if stream.Stream? {
          stream := NoStream;
        }
        if |transcript| > 0 {
          var textToSave := Join(Texts(transcript), SEPARATOR);
          if textToSave != "" {
            allTranscript := allTranscript + [TranscriptLine(u.username, Some(u.uid), textToSave, now)];
            saved := Some(textToSave);
            pendingSaves := pendingSaves + 1;
          }
        }
      }
    }

    /**
     * `saveTranscript(...).then(...)`, for a save a stop handed over: the
     * live buffer is cleared when the save resolves and kept when it throws.
     */
    method OnSaveSettled(outcome: Result<int, FetchService.Thrown>)
      requires Valid() && pendingSaves > 0
      modifies this`transcript, this`pendingSaves
      ensures Valid() && pendingSaves == old(pendingSaves) - 1
      ensures outcome.Success? ==> transcript == []
      ensures outcome.Failure? ==> transcript == old(transcript)
    {
      pendingSaves := pendingSaves - 1;
      if outcome.Success? {
        transcript := [];
      }
    }

    /** `getRoomInfo` on success: the room's name, and whether this user created it. */
    method OnRoomInfo(createdBy: string, name: string)
      requires Valid() && user.Some?
      modifies this`roomName, this`isHost
      ensures Valid() && roomName == Some(name)
      ensures isHost == Some(createdBy == user.value.uid)
    {
      roomName := Some(name);
      isHost := Some(createdBy == user.value.uid);
    }

    /** `getConversations` on success: the mapped history replaces the permanent transcript. */
    method OnHistory(records: seq<TranscriptionRecord>)
      requires Valid()
      modifies this`allTranscript, this`messagesLoading
      ensures Valid() && allTranscript == MapHistory(records) && !messagesLoading
    {
      allTranscript := MapHistory(records);
      messagesLoading := false;
    }

    /** `getConversations` on failure: loading ends, the transcript stays as it is. */
    method OnHistoryFailed()
      requires Valid()
      modifies this`messagesLoading
      ensures Valid() && !messagesLoading
    {
      messagesLoading := false;
    }

    /** The unmount cleanup: close the socket, stop the recorder if active, stop the tracks and drop the stream. */
    method Cleanup()
      requires Valid()
      modifies this`socket, this`recorder, this`stream
      ensures Valid()
      ensures socket == CloseSocket(old(socket)) && recorder == StopRecorder(old(recorder)) && stream == NoStream
      ensures Released(socket, recorder, stream) && !ForwardsAudio()
    {
      if socket.Socket? {
        socket := CloseSocket(socket);
      }
      if recorder.Recorder? && recorder.state != Inactive {
        recorder := Recorder(Inactive);
      }
      if stream.Stream? {
        stream := NoStream;
      }
    }

    /** `handleExitConfirm`: hide the popup, tear down (keeping the stream reference), go to the room list. */
    method ExitConfirm()
      requires Valid()
      modifies this`isExitPopupVisible, this`socket, this`recorder, this`stream, this`navigatedTo
      ensures Valid() && !isExitPopupVisible && navigatedTo == Some(JOIN_ROOM_PATH)
      ensures socket == CloseSocket(old(socket)) && recorder == StopRecorder(old(recorder)) && stream == StopTracks(old(stream))
      ensures Released(socket, recorder, stream) && !ForwardsAudio()
    {
      isExitPopupVisible := false;
      if socket.Socket? {
        socket := CloseSocket(socket);
      }
      if recorder.Recorder? && recorder.state != Inactive {
        recorder := Recorder(Inactive);
      }
      if stream.Stream? {
        stream := Stream(false);
      }
      navigatedTo := Some(JOIN_ROOM_PATH);
    }

    /** `handleExitCancel`: only the popup changes. */
    method ExitCancel()
      requires Valid()
      modifies this`isExitPopupVisible
      ensures Valid() && !isExitPopupVisible
    {
      isExitPopupVisible := false;
    }
  }
}
