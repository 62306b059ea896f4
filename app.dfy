/** The stateful part of the `App` component: its React state and refs as the
    fields of one object, and the handlers that update them. Every method
    states its new state as a pure function of the old one (`Snapshot`), and
    keeps `Valid`: every scheduled source ends by the queue end
    `nextStartTime`, and transcript ids are fresh. */
module AppComponent {
  import opened Types
  import opened Transcript
  import opened Playback
  import opened Config

  /** The refs for audio devices and the connection. Each boolean stands for
      a ref that is either null or holds a context, stream or node object;
      `session` holds the configuration the session was opened with. */
  datatype Refs = Refs(
    inputContext: bool,
    outputContext: bool,
    outputNode: bool,
    mediaStream: bool,
    sourceNode: bool,
    scriptProcessor: bool,
    session: Option<LiveConfig>)

  const NoRefs: Refs := Refs(false, false, false, false, false, false, None)

  /** Everything the component holds, as a value. */
  datatype AppState = AppState(
    isActive: bool,
    error: Option<string>,
    isAudioOn: bool,
    text: TextState,
    refs: Refs,
    queue: Queue)

  /** Nothing is left playing or held: inactive, the queue idle, both audio
      contexts, the stream and the session released. */
  predicate TornDown(s: AppState)
  {
    && !s.isActive && s.queue == Idle
    && !s.refs.inputContext && !s.refs.outputContext && !s.refs.mediaStream && s.refs.session.None?
  }

  /** The state after `disconnect`. The output gain node, the media source
      node and the script processor refs are not cleared by it. */
  function Disconnected(s: AppState): (r: AppState)
    ensures TornDown(r)
    ensures r.text == s.text && r.error == s.error && r.isAudioOn == s.isAudioOn
    ensures r.refs.outputNode == s.refs.outputNode && r.refs.sourceNode == s.refs.sourceNode
    ensures r.refs.scriptProcessor == s.refs.scriptProcessor
  {
    s.(isActive := false, queue := Idle,
       refs := s.refs.(inputContext := false, outputContext := false, mediaStream := false, session := None))
  }

  /** Disconnecting an already torn-down state changes nothing. */
  lemma DisconnectTornDown(s: AppState)
    requires TornDown(s)
    ensures Disconnected(s) == s
  {
  }

  /** Calling `disconnect` twice leaves the state of calling it once. */
  lemma DisconnectIdempotent(s: AppState)
    ensures Disconnected(Disconnected(s)) == Disconnected(s)
  {
    DisconnectTornDown(Disconnected(s));
  }

  /** The state after `connect(langA, voiceA, langB, voiceB)` has run to its
      end. `mediaFailure` is `Some(msg)` when the microphone request rejects
      with message `msg`. */
  function Connected(s: AppState, langA: string, voiceA: Voice, langB: string, voiceB: Voice,
                     mediaFailure: Option<string>): (r: AppState)
    ensures langA == langB ==> r == s.(error := Some(LanguageError))
    ensures langA != langB && mediaFailure.Some? ==>
              && r.error == Some(MediaError(mediaFailure.value))
              && TornDown(r) && r.refs.outputNode
              && r.text == s.text && r.isAudioOn == s.isAudioOn
    ensures langA != langB && mediaFailure.None? ==>
              && r.error.None?
              && r.refs.inputContext && r.refs.outputContext && r.refs.outputNode && r.refs.mediaStream
              && r.refs.session == Some(SessionConfig(langA, voiceA, langB, voiceB))
              && r.refs.session.value.voiceName == BaseVoiceName(voiceA, voiceB)
              && r.isActive == s.isActive && r.text == s.text && r.isAudioOn == s.isAudioOn
              && r.queue == s.queue
  {
    var s0 := s.(error := None);
    if langA == langB then
      s0.(error := Some(LanguageError))
    else
      var s1 := s0.(refs := s0.refs.(inputContext := true, outputContext := true, outputNode := true));
      match mediaFailure
      case Some(msg) => Disconnected(s1.(error := Some(MediaError(msg))))
      case None =>
        s1.(refs := s1.refs.(mediaStream := true, session := Some(SessionConfig(langA, voiceA, langB, voiceB))))
  }

  /** How a message's audio is handled: there is none (or no output context
      or node), it is dropped because audio return is off, or it is played. */
  datatype AudioBranch = NoAudio | Muted | Play

  function Branch(s: AppState, msg: ServerMessage): (b: AudioBranch)
    ensures b != NoAudio <==> AudioOf(msg) != "" && s.refs.outputContext && s.refs.outputNode
    ensures b == Muted <==> AudioOf(msg) != "" && s.refs.outputContext && s.refs.outputNode && !s.isAudioOn
  {
    if AudioOf(msg) != "" && s.refs.outputContext && s.refs.outputNode then
      (if s.isAudioOn then Play else Muted)
    else NoAudio
  }

  /** True when the handler gets to its interruption branch: it returns early
      for muted audio, and aborts when decoding rejects. */
  predicate ReachesInterrupt(b: AudioBranch, decoded: Option<real>)
  {
    b == NoAudio || (b == Play && decoded.Some?)
  }

  /** The playback queue after the audio and interruption branches of
      `handleServerMessage`, from queue `q`, audio branch `b` and the
      message's `interrupted` flag. `currentTime` is the output clock,
      `decoded` the duration decoding yields (`None` when it rejects), and
      `played` the buffer source created for the audio. */
  function QueueAfter(q: Queue, b: AudioBranch, interrupted: bool, currentTime: real,
                      decoded: Option<real>, played: Option<BufferSource>): (r: Queue)
    requires b == Play && decoded.Some? ==> played.Some?
    ensures b == Muted ==> r == q
    ensures b == NoAudio && !interrupted ==> r == q
    ensures b == Play && decoded.None? ==> r == q.(nextStartTime := StartTime(q.nextStartTime, currentTime))
    ensures b == Play && decoded.Some? && !interrupted ==>
              && r.scheduled == q.scheduled + {played.value}
              && r.nextStartTime == StartTime(q.nextStartTime, currentTime) + decoded.value
    ensures ReachesInterrupt(b, decoded) && interrupted ==> r == Idle
  {
    match b
    case Muted => q
    case NoAudio => if interrupted then Idle else q
    case Play =>
      var start := StartTime(q.nextStartTime, currentTime);
      match decoded
      case None => q.(nextStartTime := start)
      case Some(d) =>
        if interrupted then Idle else Queue(start + d, q.scheduled + {played.value})
  }

  /** The state after `handleServerMessage(msg)`; `now` is the timestamp of
      new entries. The transcript effects happen whatever the audio branch. */
  function Handled(s: AppState, msg: ServerMessage, now: int, currentTime: real,
                   decoded: Option<real>, played: Option<BufferSource>): (r: AppState)
    requires Branch(s, msg) == Play && decoded.Some? ==> played.Some?
    ensures r.text == MessageEffects(s.text, msg, now)
    ensures r.queue == QueueAfter(s.queue, Branch(s, msg), Interrupted(msg), currentTime, decoded, played)
    ensures r.isActive == s.isActive && r.error == s.error && r.isAudioOn == s.isAudioOn && r.refs == s.refs
    ensures Extends(s.text.items, r.text.items)
    ensures FreshIds(s.text.items, s.text.nextId) ==> FreshIds(r.text.items, r.text.nextId)
    ensures Branch(s, msg) == Muted ==> r.queue == s.queue
    ensures ReachesInterrupt(Branch(s, msg), decoded) && Interrupted(msg) ==> r.queue == Idle
  {
    s.(text := MessageEffects(s.text, msg, now),
       queue := QueueAfter(s.queue, Branch(s, msg), Interrupted(msg), currentTime, decoded, played))
  }

  /** The component's state and refs. */
  class App {
    // React state
    var isActive: bool
    var error: Option<string>
    var transcripts: seq<Item>
    var isAudioOn: bool             // `isAudioOn` and `isAudioOnRef`, always written together
    // refs for audio and the connection
    var inputContext: bool
    var outputContext: bool
    var outputNode: bool
    var mediaStream: bool
    var sourceNode: bool
    var scriptProcessor: bool
    var session: Option<LiveConfig>
    // playback queue
    var nextStartTime: real
    var scheduled: set<BufferSource>
    // transcription accumulation
    var inputTrans: string
    var outputTrans: string
    var nextId: nat                 // source of fresh entry ids

    ghost function Text(): TextState
      reads this
    {
      TextState(inputTrans, outputTrans, transcripts, nextId)
    }

    ghost function Snapshot(): AppState
      reads this
    {
      AppState(isActive, error, isAudioOn, Text(),
               Refs(inputContext, outputContext, outputNode, mediaStream, sourceNode, scriptProcessor, session),
               Queue(nextStartTime, scheduled))
    }

    /** Every scheduled source has a non-negative duration and ends no later
        than the queue end; entry ids are below `nextId` and distinct. */
    ghost predicate Valid()
      reads this, scheduled
    {
      && (forall x :: x in scheduled ==> x.duration >= 0.0 && x.startTime + x.duration <= nextStartTime)
      && FreshIds(transcripts, nextId)
    }

    /** The initial values of the state and refs. */
    constructor ()
      ensures Valid()
      ensures Snapshot() == AppState(false, None, true, TextState("", "", [], 0), NoRefs, Idle)
    {
      isActive, error, transcripts, isAudioOn := false, None, [], true;
      inputContext, outputContext, outputNode, mediaStream := false, false, false, false;
      sourceNode, scriptProcessor, session := false, false, None;
      nextStartTime, scheduled := 0.0, {};
      inputTrans, outputTrans, nextId := "", "", 0;
    }

    /** `toggleAudio`: negates the audio-return flag. */
    method ToggleAudio()
      requires Valid()
      modifies this`isAudioOn
      ensures Valid()
      ensures isAudioOn == !old(isAudioOn)
      ensures Snapshot() == old(Snapshot()).(isAudioOn := !old(isAudioOn))
    {
      isAudioOn := !isAudioOn;
    }

    /** `clearTranscripts`. */
    method ClearTranscripts()
      requires Valid()
      modifies this`transcripts
      ensures Valid()
      ensures Snapshot() == old(Snapshot()).(text := old(Text()).(items := []))
    {
      transcripts := [];
    }

    /** Stops every scheduled source, clears the set and resets the queue
        end: the stop loop shared by `disconnect` and the interruption branch. */
    method FlushPlayback()
      requires Valid()
      modifies this`scheduled, this`nextStartTime, scheduled`stopped
      ensures Valid()
      ensures Snapshot() == old(Snapshot()).(queue := Idle)
      ensures forall x :: x in old(scheduled) ==> x.stopped
    {
      var pending := scheduled;
      while pending != {}
        invariant pending <= scheduled
        invariant scheduled == old(scheduled) && nextStartTime == old(nextStartTime)
        invariant forall x :: x in scheduled && x !in pending ==> x.stopped
        decreases pending
      {
        var x :| x in pending;
        x.Stop();
        pending := pending - {x};
      }
      scheduled := {};
      nextStartTime := 0.0;
    }

    /** `disconnect`: stops playback and releases both contexts, the stream
        and the session. */
    method Disconnect()
      requires Valid()
      modifies this`isActive, this`scheduled, this`nextStartTime, this`inputContext, this`outputContext,
              this`mediaStream, this`session, scheduled`stopped
      ensures Valid()
      ensures Snapshot() == Disconnected(old(Snapshot()))
      ensures forall x :: x in old(scheduled) ==> x.stopped
    {
      isActive := false;
      FlushPlayback();
      ReleaseDevices();
    }

    /** The ref-clearing tail of `disconnect`; the contexts, tracks and
        session are closed as a side effect outside the model. */
    method ReleaseDevices()
      modifies this`inputContext, this`outputContext, this`mediaStream, this`session
      ensures Snapshot() == old(Snapshot()).(refs := old(Snapshot().refs).(inputContext := false,
                outputContext := false, mediaStream := false, session := None))
    {
      inputContext, outputContext := false, false;
      mediaStream := false;
      session := None;
    }

    /** Steps 1 and 2 of `connect`: both audio contexts and the output node. */
    method OpenDevices()
      requires Valid()
      modifies this`inputContext, this`outputContext, this`outputNode
      ensures Valid()
      ensures Snapshot() == old(Snapshot()).(refs := old(Snapshot().refs).(inputContext := true, outputContext := true, outputNode := true))
    {
      inputContext, outputContext := true, true;
      outputNode := true;
    }

    /** Steps 3 to 5 of `connect`: the microphone stream and the session. */
    method OpenSession(cfg: LiveConfig)
      requires Valid()
      modifies this`mediaStream, this`session
      ensures Valid()
      ensures Snapshot() == old(Snapshot()).(refs := old(Snapshot().refs).(mediaStream := true, session := Some(cfg)))
    {
      mediaStream := true;
      session := Some(cfg);
    }

    /** `connect`, run to its end as one step. */
    method Connect(langA: string, voiceA: Voice, langB: string, voiceB: Voice, mediaFailure: Option<string>)
      requires Valid()
      modifies this`error, this`outputNode, this`isActive, this`scheduled, this`nextStartTime, this`inputContext, this`outputContext,
              this`mediaStream, this`session, scheduled`stopped
      ensures Valid()
      ensures Snapshot() == Connected(old(Snapshot()), langA, voiceA, langB, voiceB, mediaFailure)
      ensures langA != langB && mediaFailure.Some? ==> forall x :: x in old(scheduled) ==> x.stopped
      ensures langA == langB || mediaFailure.None? ==> forall x :: x in old(scheduled) ==> x.stopped == old(x.stopped)
    {
      error := None;
      if langA == langB {
        error := Some(LanguageError);
        return;
      }
      OpenDevices();
      if mediaFailure.Some? {
        error := Some(MediaError(mediaFailure.value));
        Disconnect();
        return;
      }
      OpenSession(SessionConfig(langA, voiceA, langB, voiceB));
    }

    /** The session's `onopen`: active, and capture wired up when the input
        context is still there. */
    method OnOpen()
      requires Valid()
      modifies this`isActive, this`sourceNode, this`scriptProcessor
      ensures Valid()
      ensures Snapshot() == old(Snapshot()).(isActive := true,
                refs := old(Snapshot().refs).(sourceNode := old(sourceNode || inputContext),
                                              scriptProcessor := old(scriptProcessor || inputContext)))
    {
      isActive := true;
      if !inputContext {
        return;
      }
      sourceNode := true;
      scriptProcessor := true;
    }

    /** The session's `onclose`. */
    method OnClose()
      requires Valid()
      modifies this`isActive
      ensures Valid()
      ensures Snapshot() == old(Snapshot()).(isActive := false)
    {
      isActive := false;
    }

    /** The session's `onerror`: an error message, then `disconnect`. */
    method OnError()
      requires Valid()
      modifies this`error, this`isActive, this`scheduled, this`nextStartTime, this`inputContext, this`outputContext,
              this`mediaStream, this`session, scheduled`stopped
      ensures Valid()
      ensures Snapshot() == Disconnected(old(Snapshot()).(error := Some(ConnectionError)))
      ensures forall x :: x in old(scheduled) ==> x.stopped
    {
      error := Some(ConnectionError);
      Disconnect();
    }

    /** A source's `ended` event: that one source leaves the set. */
    method OnEnded(src: BufferSource)
      requires Valid()
      modifies this`scheduled
      ensures Valid()
      ensures Snapshot() == old(Snapshot()).(queue := Queue(old(nextStartTime), old(scheduled) - {src}))
    {
      scheduled := scheduled - {src};
    }

    /** One `updateTranscript` call; it draws one fresh id. */
    method PushTranscript(source: Source, text: string, isComplete: bool, now: int)
      modifies this`transcripts, this`nextId
      ensures Text() == Push(old(Text()), source, text, isComplete, now)
    {
      transcripts := UpdateTranscript(transcripts, source, text, isComplete, nextId, now);
      nextId := nextId + 1;
    }

    /** The transcript half of `handleServerMessage`. */
    method HandleTranscription(msg: ServerMessage, now: int)
      modifies this`inputTrans, this`outputTrans, this`transcripts, this`nextId
      ensures Text() == MessageEffects(old(Text()), msg, now)
    {
      if msg.serverContent.None? {
        return;
      }
      var c := msg.serverContent.value;
      var text := FragmentOf(c.inputTranscription);
      if text != "" {
        inputTrans := inputTrans + text;
        PushTranscript(User, inputTrans, false, now);
      }
      ghost var afterInput := Text();
      text := FragmentOf(c.outputTranscription);
      if text != "" {
        outputTrans := outputTrans + text;
        PushTranscript(Model, outputTrans, false, now);
      }
      ghost var afterOutput := Text();
      assert afterOutput == Accumulate(afterInput, Model, text, now);
      if c.turnComplete {
        if inputTrans != "" {
          PushTranscript(User, inputTrans, true, now);
          inputTrans := "";
        }
        assert Text() == CompleteBuffer(afterOutput, User, now);
        ghost var afterUser := Text();
        if outputTrans != "" {
          PushTranscript(Model, outputTrans, true, now);
          outputTrans := "";
        }
        assert Text() == CompleteBuffer(afterUser, Model, now);
      }
    }

    /** The audio branch past its gate: the queue end catches up with the
        clock; then, unless decoding rejected, a fresh source is started at
        that time, joins the set, and the queue end moves past it. */
    method PlayAudio(currentTime: real, decoded: Option<real>) returns (played: Option<BufferSource>)
      requires Valid()
      requires decoded.Some? ==> decoded.value >= 0.0
      modifies this`nextStartTime, this`scheduled
      ensures Valid()
      ensures played.Some? <==> decoded.Some?
      ensures decoded.None? ==>
                nextStartTime == StartTime(old(nextStartTime), currentTime) && scheduled == old(scheduled)
      ensures played.Some? ==>
                && fresh(played.value) && !played.value.stopped
                && played.value.startTime == StartTime(old(nextStartTime), currentTime)
                && played.value.duration == decoded.value
                && scheduled == old(scheduled) + {played.value}
                && nextStartTime == played.value.startTime + decoded.value
                && (forall x :: x in old(scheduled) ==> x.startTime + x.duration <= played.value.startTime)
    {
      played := None;
      nextStartTime := StartTime(nextStartTime, currentTime);
      if decoded.None? {
        return;
      }
      var src := new BufferSource(decoded.value);
      src.Start(nextStartTime);
      scheduled := scheduled + {src};
      nextStartTime := nextStartTime + src.duration;
      played := Some(src);
    }

    /** The audio and interruption branches of `handleServerMessage`. */
    method HandleAudio(msg: ServerMessage, currentTime: real, decoded: Option<real>)
      returns (played: Option<BufferSource>)
      requires Valid()
      requires decoded.Some? ==> decoded.value >= 0.0
      modifies this`nextStartTime, this`scheduled, scheduled`stopped
      ensures Valid()
      ensures played.Some? <==> Branch(old(Snapshot()), msg) == Play && decoded.Some?
      ensures Snapshot() == old(Snapshot()).(queue := QueueAfter(old(Snapshot().queue), Branch(old(Snapshot()), msg),
                                                                Interrupted(msg), currentTime, decoded, played))
      ensures played.Some? ==>
                && fresh(played.value)
                && played.value.startTime == StartTime(old(nextStartTime), currentTime)
                && played.value.duration == decoded.value
                && (played.value.stopped <==> Interrupted(msg))
                && (forall x :: x in old(scheduled) ==> x.startTime + x.duration <= played.value.startTime)
      ensures ReachesInterrupt(Branch(old(Snapshot()), msg), decoded) && Interrupted(msg) ==>
                forall x :: x in old(scheduled) ==> x.stopped
      ensures !(ReachesInterrupt(Branch(old(Snapshot()), msg), decoded) && Interrupted(msg)) ==>
                forall x :: x in old(scheduled) ==> x.stopped == old(x.stopped)
    {
      played := None;
      if AudioOf(msg) != "" && outputContext && outputNode {
        if !isAudioOn {
          return;
        }
        played := PlayAudio(currentTime, decoded);
        if decoded.None? {
          return;
        }
      }
      if Interrupted(msg) {
        FlushPlayback();
      }
    }

    /** `handleServerMessage(msg)`: transcript effects first, then the audio
        and the interruption branches. Returns the source it scheduled. */
    method HandleServerMessage(msg: ServerMessage, now: int, currentTime: real, decoded: Option<real>)
      returns (played: Option<BufferSource>)
      requires Valid()
      requires decoded.Some? ==> decoded.value >= 0.0
      modifies this`inputTrans, this`outputTrans, this`transcripts, this`nextId
      modifies this`nextStartTime, this`scheduled, scheduled`stopped
      ensures Valid()
      ensures played.Some? <==> Branch(old(Snapshot()), msg) == Play && decoded.Some?
      ensures Snapshot() == Handled(old(Snapshot()), msg, now, currentTime, decoded, played)
      ensures played.Some? ==>
                && fresh(played.value)
                && played.value.startTime == StartTime(old(nextStartTime), currentTime)
                && played.value.duration == decoded.value
                && (played.value.stopped <==> Interrupted(msg))
                && (forall x :: x in old(scheduled) ==> x.startTime + x.duration <= played.value.startTime)
      ensures ReachesInterrupt(Branch(old(Snapshot()), msg), decoded) && Interrupted(msg) ==>
                forall x :: x in old(scheduled) ==> x.stopped
      ensures !(ReachesInterrupt(Branch(old(Snapshot()), msg), decoded) && Interrupted(msg)) ==>
                forall x :: x in old(scheduled) ==> x.stopped == old(x.stopped)
    {
      ghost var s := Snapshot();
      HandleTranscription(msg, now);
      assert Snapshot() == s.(text := MessageEffects(s.text, msg, now));
      assert Branch(Snapshot(), msg) == Branch(s, msg);
      played := HandleAudio(msg, currentTime, decoded);
    }
  }
}
