/** What the backend's event stream and the page agree on, and the errors the backend raises. */
module Protocol {
  /** The in-band item that ends a reply stream (backend/app/stream_generator.py:17, frontend/src/main.ts:266). */
  const EndOfStream := "__END_OF_STREAM__"

  /**
   * FastAPI's HTTPException, raised by the endpoints and by the reply
   * framer, as the HTTP status and detail it reaches the client with.
   */
  datatype HttpError = HttpError(status: int, detail: string)
}
