/** The frames that flow through the audio pipeline and the two directions
    they can travel in. Only the frame types the routing code tells apart are
    distinguished; every other frame type (start, end, cancel, ...) is an
    `OtherFrame`. */
module Frames {

  type Byte = b: int | 0 <= b < 256

  datatype Direction = Downstream | Upstream

  datatype Frame =
    | AudioRawFrame(audio: seq<Byte>, sampleRate: nat, numChannels: nat)
    | TextFrame(text: string)
    | TranscriptionFrame(text: string)
    | OtherFrame(kind: string)

  /** `isinstance(frame, TextFrame)`: a transcription is a kind of text frame. */
  predicate IsText(f: Frame) {
    f.TextFrame? || f.TranscriptionFrame?
  }
}
