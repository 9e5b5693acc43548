/** The values service/whisper.go exchanges with the upstream engine. How
    the request is built and sent is not part of this model: the handler
    sees only the decoded response or a failure. */
module Service {

  /** One timed piece of the transcript. */
  datatype Segment = Segment(id: int, start: real, end: real, text: string)

  /** The engine's verbose_json answer, as decoded. */
  datatype WhisperResponse = WhisperResponse(
    task: string,
    language: string,
    duration: real,
    text: string,
    segments: seq<Segment>)

  /** What service.Transcribe returns: the decoded response, or an error
      (file, network, non-200 status or decoding failure alike). */
  datatype UpstreamResult = Transcribed(response: WhisperResponse) | UpstreamFailed
}
