/** The banner both forms show after a submission: a kind that picks its colours and a text. */
module Messages {
  datatype MessageKind = Success | Error
  datatype Message = Message(kind: MessageKind, text: string)
}
