/** The one kind of parse error: a message-only, read-only record. */
module ParsingErrors {

  datatype ParsingError = ParsingError(errorText: string)

  const AlignmentError: ParsingError := ParsingError("Alignment must be a numeric value")
  const WarningLevelError: ParsingError := ParsingError("Warning Level must be a numeric value")
}
