/** The socket event paths of app/constants/events.ts: a fixed prefix
    followed by the session id. */
module SocketEvents {
  const QrPrefix: string := "/socket/whatsapp-qr/"
  const ReceivePrefix: string := "/chat/receive/"
  const SendPrefix: string := "/chat/send/"

  /** `WHATSAPP_QR_SOCKET_EVENT`. */
  function QrEvent(sessionId: string): string
  {
    QrPrefix + sessionId
  }

  /** `WHATSAPP_CHAT_RECEIVE_SOCKET_EVENT`. */
  function ChatReceiveEvent(sessionId: string): string
  {
    ReceivePrefix + sessionId
  }

  /** `WHATSAPP_CHAT_SEND_SOCKET_EVENT`. */
  function ChatSendEvent(sessionId: string): string
  {
    SendPrefix + sessionId
  }

  /** A prefix followed by an id determines the id. */
  lemma PrefixedInjective(prefix: string, a: string, b: string)
    ensures prefix + a == prefix + b <==> a == b
  {
    if prefix + a == prefix + b {
      assert a == (prefix + a)[|prefix|..];
      assert b == (prefix + b)[|prefix|..];
    }
  }

  /** Each path names one session. */
  lemma EventsInjective(a: string, b: string)
    ensures QrEvent(a) == QrEvent(b) <==> a == b
    ensures ChatReceiveEvent(a) == ChatReceiveEvent(b) <==> a == b
    ensures ChatSendEvent(a) == ChatSendEvent(b) <==> a == b
  {
    PrefixedInjective(QrPrefix, a, b);
    PrefixedInjective(ReceivePrefix, a, b);
    PrefixedInjective(SendPrefix, a, b);
  }

  /** No receive path is a send path (they differ at position 6), and no
      chat path is a QR path (they differ at position 1), whatever the ids. */
  lemma EventsDisjoint(a: string, b: string)
    ensures ChatReceiveEvent(a) != ChatSendEvent(b)
    ensures ChatReceiveEvent(a) != QrEvent(b)
    ensures ChatSendEvent(a) != QrEvent(b)
  {
    assert ChatReceiveEvent(a)[6] == 'r' && ChatSendEvent(b)[6] == 's';
    assert ChatReceiveEvent(a)[1] == 'c' && QrEvent(b)[1] == 's';
    assert ChatSendEvent(a)[1] == 'c';
  }
}
