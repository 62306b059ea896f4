/** Shapes shared by the rest of the model: the transcript entry of types.ts,
    the two speaker voices, and the parts of a live server message that the
    application reads. */
module Types {

  datatype Option<+T> = None | Some(value: T)

  /** Who spoke a transcript entry: the microphone user, or the remote model. */
  datatype Source = User | Model

  function Other(s: Source): (o: Source)
    ensures o != s
  {
    if s.User? then Model else User
  }

  /** One transcript entry. `id` and `timestamp` stand for the fresh values
      the application draws from the clock and the random generator. */
  datatype Item = Item(id: nat, source: Source, text: string, isComplete: bool, timestamp: int)

  /** The voice category a participant chose. */
  datatype Voice = Girl | Boy

  /** A transcription part of a message; its text may be missing. */
  datatype Transcription = Transcription(text: Option<string>)

  /** The fields of `serverContent` that the message handler inspects.
      `modelTurnAudio` is the inline base64 audio of the first part of the
      model turn, `None` when any link of that chain is absent. */
  datatype ServerContent = ServerContent(
    inputTranscription: Option<Transcription>,
    outputTranscription: Option<Transcription>,
    turnComplete: bool,
    modelTurnAudio: Option<string>,
    interrupted: bool)

  datatype ServerMessage = ServerMessage(serverContent: Option<ServerContent>)

  /** The text of an optional transcription as the handler tests it: a missing
      transcription, a missing text and an empty text all read as "". */
  function FragmentOf(t: Option<Transcription>): (f: string)
    ensures t.None? || t.value.text.None? ==> f == ""
    ensures t.Some? && t.value.text.Some? ==> f == t.value.text.value
  {
    match t
    case None => ""
    case Some(tr) => match tr.text { case None => "" case Some(s) => s }
  }

  /** The inline audio payload of a message, "" when there is none. */
  function AudioOf(msg: ServerMessage): (data: string)
    ensures msg.serverContent.None? || msg.serverContent.value.modelTurnAudio.None? ==> data == ""
    ensures msg.serverContent.Some? && msg.serverContent.value.modelTurnAudio.Some? ==>
              data == msg.serverContent.value.modelTurnAudio.value
  {
    match msg.serverContent
    case None => ""
    case Some(c) => match c.modelTurnAudio { case None => "" case Some(d) => d }
  }

  predicate Interrupted(msg: ServerMessage)
  {
    msg.serverContent.Some? && msg.serverContent.value.interrupted
  }
}
