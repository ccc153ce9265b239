/** What the two WhatsApp session classes see of a whatsapp-web.js client:
    a handle that is created, gets its event listeners attached, and is
    destroyed; the messages it delivers; and the callbacks a session invokes
    on behalf of its owner. */
module WhatsAppClient {
  /** A client handle. `generation` tells apart the handles one session
      creates (`new whatsapp.Client(options)`); `listening` records that the
      session's `on(...)` listeners are attached; `destroyed` that
      `destroy()` was awaited. */
  datatype Client = Client(generation: nat, listening: bool, destroyed: bool)
  {
    /** The client delivers events to the session's listeners. */
    predicate Delivers()
    {
      listening && !destroyed
    }
  }

  /** An incoming chat message: sender and text. */
  datatype Message = Message(from: string, body: string)

  /** `client.sendMessage(to, text)`. */
  datatype Outgoing = Outgoing(to: string, text: string)

  /** The owner's callbacks, as invoked by a session's listeners. */
  datatype Notification =
    | QrGenerated(qr: string)
    | ClientReady
    | ClientDisconnected
    | MessageReceived(message: Message)
}
