/** The messages carried over the web socket between the phone and the host.
    A message is a JSON object with a `type` discriminator; a Frame holds the
    `type` and every payload field that some message kind carries. A field a
    kind does not carry holds a neutral value (0.0 or "") that the handler for
    that kind never reads. */
module Wire {

  datatype Frame = Frame(
    kind: string,      // `type`
    deltaX: real,      // `move`, `scroll`
    deltaY: real,      // `move`, `scroll`
    button: string,    // `click`
    key: string,       // `key`
    message: string)   // `log`

  /** What the server gets from `JSON.parse(message.text())`: an object, or
      the exception caught in the handler. */
  datatype Inbound = Malformed | Parsed(frame: Frame)

  /** A frame of the given kind carrying nothing else. */
  function Bare(kind: string): Frame
  {
    Frame(kind, 0.0, 0.0, "", "", "")
  }
}
