/**
 * The WhatsApp session wrapper of the backend controller: three module-level fields
 * mirrored from the client library's lifecycle events, and the five HTTP handlers
 * that read them.
 *
 * Every event and handler is one atomic transition from a `Session` to a `Step`
 * (new session, HTTP response if any, external calls issued in order). The client
 * library's `initialize`, `sendMessage` and `logout` are abstract calls whose
 * settlement (`Succeeds` or `Fails`) is an input of the transition that issues them.
 */
module WhatsApp {
  import opened Optional
  import Listing

  /** The stored QR data URL, `isWhatsAppConnected` and `isClientInitializing`. */
  datatype Session = Session(qr: Option<string>, connected: bool, initializing: bool)

  /** The state at module load. */
  const Initial: Session := Session(None, false, false)

  /** The design invariant: the client is never both connected and initializing. */
  predicate Valid(s: Session) {
    !(s.connected && s.initializing)
  }

  /** How an abstract external call settles: it resolves or it throws. */
  datatype Outcome = Succeeds | Fails

  /** Calls into the client library. */
  datatype Call = Initialize | SendText(chatId: string, text: string) | Logout

  /** The JSON bodies the handlers answer with. */
  datatype Body =
    | Ack(success: bool, message: string)
    | QrCode(qrCode: string)
    | Error(error: string)
    | Status(isConnected: bool)

  datatype Response = Response(status: int, body: Body)

  /** The result of one event or handler; `response` is `None` for library events. */
  datatype Step = Step(session: Session, response: Option<Response>, calls: seq<Call>)

  const MsgAlreadyConnected: string := "\U{2705} WhatsApp est déjà connecté."
  const MsgConnecting: string := "\U{1F552} Connexion WhatsApp en cours..."
  const MsgStarting: string := "\U{1F680} WhatsApp en cours de démarrage..."
  const MsgNoQr: string := "QR Code non disponible. Lancez /whatsapp/start"
  const MsgMissingFields: string := "Numéro de téléphone et message requis."
  const MsgNotConnected: string := "WhatsApp non connecté. Veuillez scanner le QR Code."
  const MsgSentPrefix: string := "Message envoyé à "
  const MsgSendFailed: string := "Erreur lors de l'envoi du message."
  const MsgLogoutNotConnected: string := "WhatsApp non connecté."
  const MsgLoggedOut: string := "WhatsApp déconnecté avec succès."
  const MsgLogoutFailed: string := "Erreur lors de la déconnexion."

  // ---------------------------------------------------------------------------
  // Internal start
  // ---------------------------------------------------------------------------

  /**
   * The guarded internal `startWhatsApp`: a no-op while connected or initializing;
   * otherwise it raises `initializing`, calls `initialize` once, and lowers the flag
   * again if that call throws.
   */
  function Start(s: Session, init: Outcome): (e: Step)
    ensures e.response == None
    ensures s.connected || s.initializing ==> e.session == s && e.calls == []
    ensures !(s.connected || s.initializing) ==>
      && e.calls == [Initialize]
      && e.session.qr == s.qr
      && !e.session.connected
      && (e.session.initializing <==> init == Succeeds)
    ensures Valid(s) ==> Valid(e.session)
  {
    if s.connected || s.initializing then Step(s, None, [])
    else
      var raised := s.(initializing := true);
      match init
      case Succeeds => Step(raised, None, [Initialize])
      case Fails => Step(raised.(initializing := false), None, [Initialize])
  }

  // ---------------------------------------------------------------------------
  // Client library events
  // ---------------------------------------------------------------------------

  /** `qr`: store the encoded QR payload; the flags are untouched. */
  function OnQr(s: Session, dataUrl: string): (t: Session)
    ensures t.qr == Some(dataUrl)
    ensures t.connected == s.connected && t.initializing == s.initializing
  {
    s.(qr := Some(dataUrl))
  }

  /** `authenticated`: connected, no longer initializing; the stored QR is kept. */
  function OnAuthenticated(s: Session): (t: Session)
    ensures t.connected && !t.initializing
    ensures t.qr == s.qr
  {
    s.(connected := true, initializing := false)
  }

  /** `ready`: the same transition as `authenticated`. */
  function OnReady(s: Session): (t: Session)
    ensures t.connected && !t.initializing
    ensures t.qr == s.qr
  {
    OnAuthenticated(s)
  }

  /** `auth_failure`: every field back to its initial value. */
  function OnAuthFailure(s: Session): (t: Session)
    ensures t == Initial
  {
    Session(None, false, false)
  }

  /**
   * The `catch` of an `initialize` that throws after other events have already run:
   * only the initializing flag drops. As an input of `Run` it may arrive at any point,
   * which covers every moment a pending `initialize` can settle.
   */
  function OnInitializeRejected(s: Session): (t: Session)
    ensures !t.initializing
    ensures t.qr == s.qr && t.connected == s.connected
  {
    s.(initializing := false)
  }

  /** `disconnected`: every field cleared, then exactly one fresh start attempt. */
  function OnDisconnected(s: Session, init: Outcome): (e: Step)
    ensures e.calls == [Initialize]
    ensures e.session.qr == None && !e.session.connected
    ensures e.session.initializing <==> init == Succeeds
    ensures e.response == None
  {
    Start(Session(None, false, false), init)
  }

  // ---------------------------------------------------------------------------
  // HTTP handlers
  // ---------------------------------------------------------------------------

  /** `POST /start`: always `success: true`; starts the client only when idle. */
  function HttpStart(s: Session, init: Outcome): (e: Step)
    ensures e.response.Some? && e.response.value.status == 200
    ensures e.response.value.body.Ack? && e.response.value.body.success
    ensures s.connected ==> e.session == s && e.calls == [] && e.response.value.body.message == MsgAlreadyConnected
    ensures !s.connected && s.initializing ==>
      e.session == s && e.calls == [] && e.response.value.body.message == MsgConnecting
    ensures !s.connected && !s.initializing ==>
      e.calls == [Initialize] && e.session == Start(s, init).session && e.response.value.body.message == MsgStarting
  {
    if s.connected then Step(s, Some(Response(200, Ack(true, MsgAlreadyConnected))), [])
    else if s.initializing then Step(s, Some(Response(200, Ack(true, MsgConnecting))), [])
    else
      var started := Start(s, init);
      Step(started.session, Some(Response(200, Ack(true, MsgStarting))), started.calls)
  }

  /** `GET /qr`: the stored QR, or 404 when none is stored (an empty string is falsy too). */
  function GetQrCode(s: Session): (r: Response)
    ensures r.status == 404 <==> !Truthy(s.qr)
    ensures r.status == 404 ==> r.body == Error(MsgNoQr)
    ensures r.status != 404 ==> r.status == 200 && r.body == QrCode(s.qr.value)
  {
    if !Truthy(s.qr) then Response(404, Error(MsgNoQr)) else Response(200, QrCode(s.qr.value))
  }

  predicate IsDigit(c: char) {
    '0' <= c <= '9'
  }

  /** `phone.replace(/\D/g, "")`: the decimal digits of `phone`. */
  function KeepDigits(phone: string): (r: string)
    ensures |r| <= |phone|
    ensures forall i :: 0 <= i < |r| ==> IsDigit(r[i])
    decreases |phone|
  {
    if phone == [] then [] else (if IsDigit(phone[0]) then [phone[0]] else []) + KeepDigits(phone[1..])
  }

  /**
   * The digits are kept in their original order and none is lost: `KeepDigits` is the
   * order-preserving filter by `IsDigit`, so its result is a sub-sequence of `phone`
   * that holds every digit of `phone`.
   */
  lemma {:induction false} KeepDigitsIsFilter(phone: string)
    ensures KeepDigits(phone) == Listing.Filter(phone, IsDigit)
    ensures Listing.IsSubseq(KeepDigits(phone), phone)
    ensures forall i :: 0 <= i < |phone| && IsDigit(phone[i]) ==> phone[i] in KeepDigits(phone)
    decreases |phone|
  {
    if phone != [] {
      KeepDigitsIsFilter(phone[1..]);
    }
  }

  /** The suffix that turns a phone number into a WhatsApp chat id. */
  const ChatSuffix: string := "@c.us"

  /** The chat id a message is sent to: the digits of `phone`, then `@c.us`. */
  function ChatId(phone: string): (r: string)
    ensures |r| >= |ChatSuffix| && r[|r| - |ChatSuffix|..] == ChatSuffix
    ensures forall i :: 0 <= i < |r| - |ChatSuffix| ==> IsDigit(r[i])
  {
    KeepDigits(phone) + ChatSuffix
  }

  /** Keeping the digits of a digit string changes nothing. */
  lemma {:induction false} KeepDigitsIdempotent(phone: string)
    ensures KeepDigits(KeepDigits(phone)) == KeepDigits(phone)
    decreases |phone|
  {
    if phone != [] {
      KeepDigitsIdempotent(phone[1..]);
      var rest := KeepDigits(phone[1..]);
      if IsDigit(phone[0]) {
        assert ([phone[0]] + rest)[0] == phone[0];
        assert ([phone[0]] + rest)[1..] == rest;
        assert KeepDigits([phone[0]] + rest) == [phone[0]] + KeepDigits(rest);
      } else {
        assert KeepDigits(phone) == [] + rest == rest;
      }
    }
  }

  /** Digit extraction distributes over concatenation. */
  lemma {:induction false} KeepDigitsAppend(a: string, b: string)
    ensures KeepDigits(a + b) == KeepDigits(a) + KeepDigits(b)
    decreases |a|
  {
    if a == [] {
      assert a + b == b;
    } else {
      assert (a + b)[1..] == a[1..] + b;
      KeepDigitsAppend(a[1..], b);
    }
  }

  /** Normalising an already normalised chat id gives it back. */
  lemma ChatIdIdempotent(phone: string)
    ensures ChatId(ChatId(phone)) == ChatId(phone)
  {
    var d := KeepDigits(phone);
    KeepDigitsAppend(d, ChatSuffix);
    KeepDigitsIdempotent(phone);
    assert KeepDigits(ChatSuffix) == [];
  }

  /** A spaced phone number: the spaces in the phone are dropped, the digits kept in order. */
  lemma ChatIdExample()
    ensures ChatId("216 99 999 999") == "21699999999@c.us"
  {
    DigitsExample();
    ChatIdOfDigits("216 99 999 999", "21699999999");
    SuffixExample();
  }

  lemma ChatIdOfDigits(phone: string, digits: string)
    requires KeepDigits(phone) == digits
    ensures ChatId(phone) == digits + ChatSuffix
  {
  }

  lemma SuffixExample()
    ensures "21699999999" + ChatSuffix == "21699999999@c.us"
  {
  }

  lemma DigitsExample()
    ensures KeepDigits("216 99 999 999") == "21699999999"
  {
    DigitsOfPieces();
    assert "216 99 999 999" == "216" + " 99" + " 999" + " 999";
    DigitsOfFourPieces("216", " 99", " 999", " 999");
  }

  lemma DigitsOfPieces()
    ensures KeepDigits("216") == "216" && KeepDigits(" 99") == "99" && KeepDigits(" 999") == "999"
  {
  }

  lemma DigitsOfFourPieces(a: string, b: string, c: string, d: string)
    requires KeepDigits(a) == "216" && KeepDigits(b) == "99" && KeepDigits(c) == "999" && KeepDigits(d) == "999"
    ensures KeepDigits(a + b + c + d) == "21699999999"
  {
    KeepDigitsAppend(a + b + c, d);
    KeepDigitsAppend(a + b, c);
    KeepDigitsAppend(a, b);
  }

  /**
   * `POST /send`: 400 when a field is missing or empty, then 403 when not connected;
   * only past both checks is the library's send called, once, and its failure is a 500.
   * The session is never changed.
   */
  function SendMessage(s: Session, phone: Option<string>, message: Option<string>, send: Outcome): (e: Step)
    ensures e.session == s && e.response.Some?
    ensures !Truthy(phone) || !Truthy(message) ==>
      e.response.value == Response(400, Error(MsgMissingFields)) && e.calls == []
    ensures Truthy(phone) && Truthy(message) && !s.connected ==>
      e.response.value == Response(403, Error(MsgNotConnected)) && e.calls == []
    ensures Truthy(phone) && Truthy(message) && s.connected ==>
      && e.calls == [SendText(ChatId(phone.value), message.value)]
      && (send == Succeeds ==> e.response.value == Response(200, Ack(true, MsgSentPrefix + phone.value)))
      && (send == Fails ==> e.response.value == Response(500, Error(MsgSendFailed)))
  {
    if !Truthy(phone) || !Truthy(message) then
      Step(s, Some(Response(400, Error(MsgMissingFields))), [])
    else if !s.connected then
      Step(s, Some(Response(403, Error(MsgNotConnected))), [])
    else
      var call := SendText(ChatId(phone.value), message.value);
      match send
      case Succeeds => Step(s, Some(Response(200, Ack(true, MsgSentPrefix + phone.value))), [call])
      case Fails => Step(s, Some(Response(500, Error(MsgSendFailed))), [call])
  }

  /** `GET /status`. */
  function GetStatus(s: Session): (r: Response)
    ensures r.status == 200
    ensures r.body.Status? && (r.body.isConnected <==> s.connected)
  {
    Response(200, Status(s.connected))
  }

  /**
   * `POST /logout`: refused with `success: false` when not connected; otherwise one
   * library `logout`, after which all three fields are cleared, or a 500 with the
   * session left as it was when that call throws.
   */
  function LogoutWhatsApp(s: Session, outcome: Outcome): (e: Step)
    ensures e.response.Some?
    ensures !s.connected ==>
      e.session == s && e.calls == [] && e.response.value == Response(200, Ack(false, MsgLogoutNotConnected))
    ensures s.connected ==> e.calls == [Logout]
    ensures s.connected && outcome == Succeeds ==>
      e.session == Initial && e.response.value == Response(200, Ack(true, MsgLoggedOut))
    ensures s.connected && outcome == Fails ==>
      e.session == s && e.response.value == Response(500, Error(MsgLogoutFailed))
  {
    if !s.connected then Step(s, Some(Response(200, Ack(false, MsgLogoutNotConnected))), [])
    else
      match outcome
      case Succeeds => Step(Session(None, false, false), Some(Response(200, Ack(true, MsgLoggedOut))), [Logout])
      case Fails => Step(s, Some(Response(500, Error(MsgLogoutFailed))), [Logout])
  }

  // ---------------------------------------------------------------------------
  // Arbitrary interleavings of events and requests
  // ---------------------------------------------------------------------------

  /** Everything that can happen to the session, with the settlement of any call it issues. */
  datatype Input =
    | QrEvent(dataUrl: string)
    | AuthenticatedEvent
    | AuthFailureEvent
    | ReadyEvent
    | DisconnectedEvent(init: Outcome)
    | InitializeRejected
    | StartRequest(init: Outcome)
    | QrRequest
    | SendRequest(phone: Option<string>, message: Option<string>, send: Outcome)
    | StatusRequest
    | LogoutRequest(outcome: Outcome)

  function Apply(s: Session, i: Input): (e: Step)
    ensures Valid(s) ==> Valid(e.session)
  {
    match i
    case QrEvent(d) => Step(OnQr(s, d), None, [])
    case AuthenticatedEvent => Step(OnAuthenticated(s), None, [])
    case AuthFailureEvent => Step(OnAuthFailure(s), None, [])
    case ReadyEvent => Step(OnReady(s), None, [])
    case DisconnectedEvent(init) => OnDisconnected(s, init)
    case InitializeRejected => Step(OnInitializeRejected(s), None, [])
    case StartRequest(init) => HttpStart(s, init)
    case QrRequest => Step(s, Some(GetQrCode(s)), [])
    case SendRequest(p, m, send) => SendMessage(s, p, m, send)
    case StatusRequest => Step(s, Some(GetStatus(s)), [])
    case LogoutRequest(o) => LogoutWhatsApp(s, o)
  }

  /** The session after the inputs, applied one at a time from the first. */
  function Run(s: Session, inputs: seq<Input>): Session
    decreases |inputs|
  {
    if inputs == [] then s else Run(Apply(s, inputs[0]).session, inputs[1..])
  }

  /** From a valid session, no sequence of events and requests ever connects while initializing. */
  lemma {:induction false} RunKeepsValid(s: Session, inputs: seq<Input>)
    requires Valid(s)
    ensures Valid(Run(s, inputs))
    decreases |inputs|
  {
    if inputs != [] {
      RunKeepsValid(Apply(s, inputs[0]).session, inputs[1..]);
    }
  }

  /** From module load, whatever happens, connected and initializing are never both set. */
  lemma NeverConnectedWhileInitializing(inputs: seq<Input>)
    ensures Valid(Run(Initial, inputs))
  {
    RunKeepsValid(Initial, inputs);
  }

  /** While initializing, repeated start requests never call `initialize` again. */
  lemma {:induction false} StartIdempotentWhileInitializing(s: Session, inits: seq<Outcome>)
    requires s.initializing
    ensures Run(s, Listing.Map(inits, o => StartRequest(o))) == s
    ensures forall i :: 0 <= i < |inits| ==> HttpStart(s, inits[i]).calls == []
    decreases |inits|
  {
    if inits != [] {
      var ins := Listing.Map(inits, o => StartRequest(o));
      assert ins[1..] == Listing.Map(inits[1..], o => StartRequest(o));
      StartIdempotentWhileInitializing(s, inits[1..]);
    }
  }

  /** A stale QR is still served once the session is ready. */
  lemma StaleQrServedWhileConnected(s: Session, dataUrl: string)
    requires dataUrl != ""
    ensures GetQrCode(OnReady(OnQr(s, dataUrl))) == Response(200, QrCode(dataUrl))
    ensures GetStatus(OnReady(OnQr(s, dataUrl))).body == Status(true)
  {
  }

  /**
   * The end-to-end scenario: start, a QR arrives and is served, the client becomes
   * ready, and a message to "216 99 999 999" goes to chat "21699999999@c.us".
   */
  lemma Scenario()
    ensures
      var s1 := HttpStart(Initial, Succeeds).session;
      var s2 := OnQr(s1, "XYZ");
      var s3 := OnReady(s2);
      && s1.initializing
      && GetQrCode(s2).body == QrCode("XYZ")
      && GetStatus(s3).body == Status(true)
      && SendMessage(s3, Some("216 99 999 999"), Some("hello"), Succeeds).calls
         == [SendText("21699999999@c.us", "hello")]
  {
    ChatIdExample();
  }
}
