/** The part of a Live API server message that both voice hooks read. */
module LiveApi {
  import opened Prelude

  /**
   * `serverContent` of one message: the transcription of what the user said,
   * the transcription of what the model said, the base64 audio of the first
   * part of the model's turn, and the interruption flag.
   */
  datatype ServerMessage = ServerMessage(
    inputTranscription: Option<string>,
    outputTranscription: Option<string>,
    audio: Option<string>,
    interrupted: bool)

  /** An optional text that JavaScript treats as true: present and not empty. */
  predicate IsTruthy(t: Option<string>) {
    t.Some? && t.value != ""
  }
}
