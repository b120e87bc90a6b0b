/**
 * The `OBSRemote` connection object: the request/reply correlation engine and
 * the connect handshake state, as a class whose methods update its fields the
 * way the socket callbacks and public methods do.
 *
 * The socket itself is not modelled. Sockets are numbered 1, 2, ... in the
 * order `connect` creates them; `sockets` is the number created so far and the
 * current `_socket` is number `sockets` (there is none while `sockets == 0`).
 * What the client does to the outside world is logged: frames sent, `close()`
 * calls, promise settlements, emitted events and connect-promise outcomes.
 */
module Remote {

  import opened Wrappers
  import opened Ids
  import opened Json
  import opened Events
  import opened Requests
  import opened Login

  /** A frame handed to `socket.send`, before `JSON.stringify`. */
  datatype Outbound = Outbound(socket: nat, body: seq<Field>)

  datatype Outcome = Resolved | Rejected

  /** A pending request's promise settled with `payload`; `frame` is the index of its outbound frame. */
  datatype Settlement = Settlement(id: string, frame: nat, outcome: Outcome, payload: Value)

  /** What happened to the promise `connect` returned for socket `attempt`. */
  datatype ConnectOutcome =
    | HandshakeSent(attempt: nat, versionId: string, authId: string)
    | ConnectResolved(attempt: nat, info: ConnectInfo)
    | ConnectRejected(attempt: nat, error: string, code: int)

  /** What `send` returns: a promise awaiting reply `id`, or one already rejected with `Error(reason)`. */
  datatype SendResult = Sent(id: string) | Failed(reason: string)

  /** Where `socketOnMessage` sends a frame. */
  datatype Route =
    | Undecodable                               // `JSON.parse` threw
    | Dropped                                   // decoded to a falsy value
    | Update(tag: Value, message: Value)        // truthy `update-type`
    | Reply(id: Option<Value>, message: Value)  // everything else

  /** The four handlers `connect` installs on a socket. */
  datatype Handler = OnOpen | OnMessage | OnError | OnClose

  /** How `login` stands after one of its steps. */
  datatype LoginProgress =
    | LoggedIn
    | LoginFailed(reason: Arg)
    | AwaitingAuthenticate(id: string)

  /**
   * The names `_promises[key]` finds on `Object.prototype` when `_promises` has
   * no such own property; each is truthy and has no `resolve` or `reject`.
   */
  const InheritedNames: set<string> := {
    "constructor", "hasOwnProperty", "isPrototypeOf", "propertyIsEnumerable",
    "toLocaleString", "toString", "valueOf", "__proto__",
    "__defineGetter__", "__defineSetter__", "__lookupGetter__", "__lookupSetter__"
  }

  /** `message.status === 'error'`. */
  predicate IsError(message: Value) {
    Get(message, "status") == Some(JStr("error"))
  }

  /** The classification `socketOnMessage` applies to the result of `JSON.parse`. */
  function Classify(decoded: Option<Value>): (r: Route)
    ensures r.Undecodable? <==> decoded.None?
    ensures r.Dropped? <==> decoded.Some? && !Truthy(decoded)
    ensures r.Update? <==> Truthy(decoded) && Truthy(Get(decoded.value, "update-type"))
    ensures r.Update? ==> Some(r.tag) == Get(decoded.value, "update-type") && r.message == decoded.value
    ensures r.Reply? ==> r.id == Get(decoded.value, "message-id") && r.message == decoded.value
  {
    match decoded
    case None => Undecodable
    case Some(received) =>
      if !Truthy(decoded) then Dropped
      else
        var tag := Get(received, "update-type");
        if Truthy(tag) then Update(tag.value, received)
        else Reply(Get(received, "message-id"), received)
  }

  /** The frame `send` writes for a convenience request stamped with `id`, on socket `socket`. */
  function Stamped(socket: nat, req: Request, id: string): Outbound {
    Outbound(socket, Body(req) + [Field("message-id", JStr(id))])
  }

  /** Every pending identifier is that of one of the first `count` frames, the one it names. */
  ghost predicate PendingIssued(pending: map<string, nat>, count: nat) {
    forall id :: id in pending ==> pending[id] < count && id == Decimal(pending[id] + 1)
  }

  /** The next identifier is not pending yet, and registering it keeps every entry issued. */
  lemma PendingIssuedAdd(pending: map<string, nat>, count: nat)
    requires PendingIssued(pending, count)
    ensures Decimal(count + 1) !in pending
    ensures PendingIssued(pending[Decimal(count + 1) := count], count + 1)
  {
    var id := Decimal(count + 1);
    if id in pending {
      DecimalInjective(pending[id] + 1, count + 1);
    }
  }

  lemma AppendTwo<T>(s: seq<T>, a: T, b: T)
    ensures s + [a] + [b] == s + [a, b]
  {
  }

  /** An inherited name is never a request identifier, so it never collides with a pending entry. */
  lemma InheritedNamesAreNotIds(n: nat)
    ensures Decimal(n) !in InheritedNames
  {
    DecimalCanonical(n);
    var s := Decimal(n);
    assert IsDigit(s[0]);
  }

  class OBSRemote {

    var debug: bool
    var host: string
    var port: int

    /** The socket number whose connect promise is still outstanding (`_connecting`). */
    var connecting: Option<nat>
    /** `_idCounter`: the counter the next identifier is made from. */
    var idCounter: nat
    /** `_promises`: each pending identifier, with the index of the frame that carried it. */
    var pending: map<string, nat>
    /** How many sockets `connect` has created; the current one is the last. */
    var sockets: nat

    var sent: seq<Outbound>
    /** Every identifier issued so far, in order: the one stamped on each frame sent. */
    ghost var issued: seq<string>
    var closes: seq<nat>
    var settled: seq<Settlement>
    var events: seq<Event>
    var connectLog: seq<ConnectOutcome>

    /**
     * The counter is one past the last identifier issued (one identifier per
     * frame sent, "1", "2", ... in order), every pending entry is the
     * identifier of an earlier frame, and an outstanding connect belongs to the
     * current socket.
     */
    ghost predicate Valid()
      reads this
    {
      && idCounter == |sent| + 1
      && issued == IssuedIds(|sent|)
      && PendingIssued(pending, |sent|)
      && (connecting.Some? ==> connecting.value == sockets >= 1)
    }

    predicate HasSocket()
      reads this
    {
      sockets > 0
    }

    /**
     * Whether socket `s` still calls handler `h`. `connect` clears `onopen`
     * and `onerror` of the socket it replaces but writes `_onmessage` and
     * `_onclose`, which are not the handler properties, so every socket ever
     * created keeps delivering messages and close events.
     */
    predicate HandlerAttached(s: nat, h: Handler)
      reads this
    {
      1 <= s <= sockets && (s == sockets || h == OnMessage || h == OnClose)
    }

    constructor (host: string, port: int)
      ensures Valid()
      ensures this.host == host && this.port == port && !debug
      ensures connecting == None && idCounter == 1 && pending == map[] && sockets == 0
      ensures sent == [] && issued == [] && closes == [] && settled == [] && events == [] && connectLog == []
    {
      this.debug := false;
      this.host := host;
      this.port := port;
      connecting := None;
      idCounter := 1;
      pending := map[];
      sockets := 0;
      sent := [];
      issued := [];
      closes := [];
      settled := [];
      events := [];
      connectLog := [];
    }

    /** `connect`: close the current socket, if any, and open the next one. */
    method Connect()
      requires Valid()
      modifies this`closes, this`connecting, this`sockets
      ensures Valid()
      ensures sockets == old(sockets) + 1 && connecting == Some(sockets)
      ensures closes == if old(HasSocket()) then old(closes) + [old(sockets)] else old(closes)
      ensures forall s :: 1 <= s < sockets ==>
        HandlerAttached(s, OnMessage) && HandlerAttached(s, OnClose) &&
        !HandlerAttached(s, OnOpen) && !HandlerAttached(s, OnError)
    {
      if sockets > 0 {
        closes := closes + [sockets];
      }
      sockets := sockets + 1;
      connecting := Some(sockets);
    }

    /** `close`: asks the current socket to close; its close event arrives later. */
    method Close()
      modifies this`closes
      ensures closes == if HasSocket() then old(closes) + [sockets] else old(closes)
    {
      if sockets > 0 {
        closes := closes + [sockets];
      }
    }

    /** `_nextID`: the counter's decimal text, then the counter moves on. */
    method NextId() returns (id: string)
      modifies this`idCounter
      ensures id == Decimal(old(idCounter)) && idCounter == old(idCounter) + 1
    {
      id := Decimal(idCounter);
      idCounter := idCounter + 1;
    }

    /**
     * `send`: with a socket, issue the next identifier, register it as
     * pending, stamp it on the message as `message-id` and send the message;
     * without one, reject and change nothing.
     */
    method Send(message: seq<Field>) returns (r: SendResult)
      requires Valid()
      modifies this`idCounter, this`pending, this`sent, this`issued
      ensures Valid()
      ensures old(HasSocket()) ==>
        && r == Sent(Decimal(old(idCounter)))
        && r.id !in old(issued) && r.id !in old(pending)
        && issued == old(issued) + [r.id]
        && idCounter == old(idCounter) + 1
        && pending == old(pending)[r.id := |old(sent)|]
        && sent == old(sent) + [Outbound(sockets, Put(message, "message-id", JStr(r.id)))]
      ensures !old(HasSocket()) ==>
        r == Failed("Connection isn't opened") &&
        idCounter == old(idCounter) && pending == old(pending) && sent == old(sent) && issued == old(issued)
    {
      if sockets > 0 {
        var n := |sent|;
        var id := NextId();
        PendingIssuedAdd(pending, n);
        IssuedIdsNext(n);
        var body := Put(message, "message-id", JStr(id));
        pending := pending[id := n];
        issued := issued + [id];
        sent := sent + [Outbound(sockets, body)];
        r := Sent(id);
      } else {
        r := Failed("Connection isn't opened");
      }
    }

    /** A convenience method: `send` of the request's fixed-shape body. */
    method SendRequest(req: Request) returns (r: SendResult)
      requires Valid()
      modifies this`idCounter, this`pending, this`sent, this`issued
      ensures Valid()
      ensures old(HasSocket()) ==>
        && r == Sent(Decimal(old(idCounter)))
        && r.id !in old(issued) && r.id !in old(pending)
        && issued == old(issued) + [r.id]
        && idCounter == old(idCounter) + 1
        && pending == old(pending)[r.id := |old(sent)|]
        && sent == old(sent) + [Stamped(sockets, req, r.id)]
      ensures !old(HasSocket()) ==>
        r == Failed("Connection isn't opened") &&
        idCounter == old(idCounter) && pending == old(pending) && sent == old(sent) && issued == old(issued)
    {
      r := Send(Body(req));
      StampedBody(req, Decimal(old(idCounter)));
    }

    /** Socket `s` fired `open`; only the current socket still has this handler. */
    method DeliverOpen(s: nat)
      requires Valid()
      modifies this`idCounter, this`pending, this`sent, this`issued, this`connecting, this`connectLog, this`events
      ensures Valid()
      ensures !old(HandlerAttached(s, OnOpen)) ==> unchanged(this)
      ensures old(HandlerAttached(s, OnOpen)) ==>
        connecting == None && events == old(events) + [Event("socket.open", [])]
      ensures old(HandlerAttached(s, OnOpen)) && old(connecting).None? ==>
        idCounter == old(idCounter) && pending == old(pending) && sent == old(sent) &&
        connectLog == old(connectLog)
      ensures old(HandlerAttached(s, OnOpen)) && old(connecting).Some? ==>
        var v, a := Decimal(old(idCounter)), Decimal(old(idCounter) + 1);
        && idCounter == old(idCounter) + 2
        && pending == old(pending)[v := |old(sent)|][a := |old(sent)| + 1]
        && sent == old(sent) + [Stamped(sockets, GetVersion, v), Stamped(sockets, GetAuthRequired, a)]
        && connectLog == old(connectLog) + [HandshakeSent(old(connecting).value, v, a)]
    {
      if HandlerAttached(s, OnOpen) {
        SocketOnOpen();
      }
    }

    /**
     * `socketOnOpen`: if a connect is outstanding, query the version and the
     * authentication requirement and consume `_connecting`; always emit
     * `socket.open`.
     */
    method SocketOnOpen()
      requires Valid() && HasSocket()
      modifies this`idCounter, this`pending, this`sent, this`issued, this`connecting, this`connectLog, this`events
      ensures Valid()
      ensures connecting == None
      ensures events == old(events) + [Event("socket.open", [])]
      ensures old(connecting).None? ==>
        idCounter == old(idCounter) && pending == old(pending) && sent == old(sent) &&
        connectLog == old(connectLog)
      ensures old(connecting).Some? ==>
        var v, a := Decimal(old(idCounter)), Decimal(old(idCounter) + 1);
        && idCounter == old(idCounter) + 2
        && pending == old(pending)[v := |old(sent)|][a := |old(sent)| + 1]
        && sent == old(sent) + [Stamped(sockets, GetVersion, v), Stamped(sockets, GetAuthRequired, a)]
        && connectLog == old(connectLog) + [HandshakeSent(old(connecting).value, v, a)]
    {
      if connecting.Some? {
        var attempt := connecting.value;
        var version, auth := QueryCapabilities();
        connectLog := connectLog + [HandshakeSent(attempt, version, auth)];
        connecting := None;
      }
      events := events + [Event("socket.open", [])];
    }

    /** The two requests of the connect handshake: `getVersion()` then `getAuthRequired()`. */
    method QueryCapabilities() returns (version: string, auth: string)
      requires Valid() && HasSocket()
      modifies this`idCounter, this`pending, this`sent, this`issued
      ensures Valid()
      ensures version == Decimal(old(idCounter)) && auth == Decimal(old(idCounter) + 1)
      ensures idCounter == old(idCounter) + 2
      ensures pending == old(pending)[version := |old(sent)|][auth := |old(sent)| + 1]
      ensures sent == old(sent) + [Stamped(sockets, GetVersion, version), Stamped(sockets, GetAuthRequired, auth)]
    {
      ghost var sent0 := sent;
      var v := SendRequest(GetVersion);
      ghost var sent1 := sent;
      var a := SendRequest(GetAuthRequired);
      AppendTwo(sent0, sent1[|sent0|], sent[|sent1|]);
      version, auth := v.id, a.id;
    }

    /**
     * The handshake's continuation, run once both capability queries have
     * resolved (if either is rejected it never runs and the connect promise
     * never settles): resolve the connect promise, then emit `ready` when no
     * authentication is required.
     */
    method HandshakeReplied(attempt: nat, versionReply: Value, authReply: Value)
      modifies this`connectLog, this`events
      ensures connectLog == old(connectLog) + [ConnectResolved(attempt, HandshakeInfo(versionReply, authReply))]
      ensures events == old(events) +
        (if Truthy(Get(authReply, "authRequired")) then [] else [Event("ready", [])])
    {
      connectLog := connectLog + [ConnectResolved(attempt, HandshakeInfo(versionReply, authReply))];
      if !Truthy(HandshakeInfo(versionReply, authReply).auth) {
        events := events + [Event("ready", [])];
      }
    }

    /** Socket `s` fired `error`; only the current socket still has this handler. */
    method DeliverError(s: nat, detail: string)
      modifies this`events
      ensures events == old(events) +
        (if HandlerAttached(s, OnError) then [Event("socket.error", [SocketErrorEvent(detail)])] else [])
    {
      if HandlerAttached(s, OnError) {
        events := events + [Event("socket.error", [SocketErrorEvent(detail)])];
      }
    }

    /** Socket `s` fired `close`; every socket ever created still has this handler. */
    method DeliverClose(s: nat, code: int)
      requires Valid()
      modifies this`connecting, this`connectLog, this`events
      ensures Valid()
      ensures !old(HandlerAttached(s, OnClose)) ==> unchanged(this)
      ensures old(HandlerAttached(s, OnClose)) ==>
        connecting == None &&
        events == old(events) + [Event("socket.close", [])] &&
        connectLog == old(connectLog) +
          (if old(connecting).Some? then [ConnectRejected(old(connecting).value, DisconnectReason(code), code)] else [])
    {
      if HandlerAttached(s, OnClose) {
        SocketOnClose(code);
      }
    }

    /**
     * `socketOnClose`: a close while connecting rejects the connect promise
     * with the reason for `code` and consumes `_connecting`; always emit
     * `socket.close`.
     */
    method SocketOnClose(code: int)
      requires Valid()
      modifies this`connecting, this`connectLog, this`events
      ensures Valid()
      ensures connecting == None
      ensures events == old(events) + [Event("socket.close", [])]
      ensures connectLog == old(connectLog) +
        (if old(connecting).Some? then [ConnectRejected(old(connecting).value, DisconnectReason(code), code)] else [])
    {
      if connecting.Some? {
        connectLog := connectLog + [ConnectRejected(connecting.value, DisconnectReason(code), code)];
        connecting := None;
      }
      events := events + [Event("socket.close", [])];
    }

    /** Socket `s` delivered a frame that decoded to `decoded` (`None`: `JSON.parse` threw). */
    method DeliverMessage(s: nat, decoded: Option<Value>) returns (thrown: bool)
      requires Valid()
      modifies this`pending, this`settled, this`events
      ensures Valid()
      ensures !old(HandlerAttached(s, OnMessage)) ==> !thrown && unchanged(this)
      ensures old(HandlerAttached(s, OnMessage)) ==>
        MessageEffect(old(pending), old(settled), old(events), decoded, pending, settled, events, thrown)
    {
      thrown := false;
      if HandlerAttached(s, OnMessage) {
        thrown := SocketOnMessage(decoded);
      }
    }

    /**
     * `socketOnMessage`: an undecodable frame emits one `error` event, a falsy
     * value is dropped, a frame with a truthy `update-type` goes to
     * `handleUpdate` and anything else to `handleCallback`. The identifier
     * counter and the frames sent never change.
     */
    method SocketOnMessage(decoded: Option<Value>) returns (thrown: bool)
      requires Valid()
      modifies this`pending, this`settled, this`events
      ensures Valid()
      ensures MessageEffect(old(pending), old(settled), old(events), decoded, pending, settled, events, thrown)
    {
      thrown := false;
      var route := Classify(decoded);
      match route
      case Undecodable =>
        events := events + [Event("error", [ParseError])];
      case Dropped =>
      case Update(tag, message) =>
        HandleUpdate(tag, message);
      case Reply(id, message) =>
        thrown := HandleCallback(id, message);
    }

    /**
     * What `socketOnMessage(decoded)` does, from the pending table, the
     * settlement log and the event log before to the same three after: only a
     * reply can throw, and only through `handleCallback`.
     */
    static ghost predicate MessageEffect(
      pending0: map<string, nat>, settled0: seq<Settlement>, events0: seq<Event>,
      decoded: Option<Value>,
      pending1: map<string, nat>, settled1: seq<Settlement>, events1: seq<Event>, thrown: bool)
    {
      match Classify(decoded)
      case Undecodable =>
        !thrown && pending1 == pending0 && settled1 == settled0 && events1 == events0 + [Event("error", [ParseError])]
      case Dropped =>
        !thrown && pending1 == pending0 && settled1 == settled0 && events1 == events0
      case Update(tag, message) =>
        !thrown && pending1 == pending0 && settled1 == settled0 && events1 == events0 + UpdateEvents(tag, message)
      case Reply(id, message) =>
        CallbackEffect(pending0, settled0, events0, id, message, pending1, settled1, events1, thrown)
    }

    /** A reply whose key names a pending entry settles and removes that entry, and emits nothing. */
    static lemma ReplySettlesPending(
      pending0: map<string, nat>, settled0: seq<Settlement>, events0: seq<Event>,
      decoded: Option<Value>, key: string,
      pending1: map<string, nat>, settled1: seq<Settlement>, events1: seq<Event>, thrown: bool)
      requires Classify(decoded).Reply? && PropertyKey(Classify(decoded).id) == Some(key) && key in pending0
      requires MessageEffect(pending0, settled0, events0, decoded, pending1, settled1, events1, thrown)
      ensures !thrown && pending1 == pending0 - {key} && events1 == events0
      ensures settled1 == settled0 +
        [Settlement(key, pending0[key], if IsError(decoded.value) then Rejected else Resolved, decoded.value)]
    {
    }

    /** The events `handleUpdate` emits for a tag: one for a known tag, none otherwise. */
    static function UpdateEvents(tag: Value, message: Value): (es: seq<Event>)
      ensures |es| <= 1
      ensures es == [] <==> UpdateEventName(tag).None?
      ensures es != [] ==> es[0] == Event(UpdateTable[tag.s], [Val(message)])
    {
      match UpdateEventName(tag)
      case None => []
      case Some(name) => [Event(name, [Val(message)])]
    }

    /** `handleUpdate`: emit the routed event for `tag` with the whole message. */
    method HandleUpdate(tag: Value, message: Value)
      modifies this`events
      ensures events == old(events) + UpdateEvents(tag, message)
    {
      match UpdateEventName(tag)
      case None =>
      case Some(name) =>
        events := events + [Event(name, [Val(message)])];
    }

    /**
     * What `handleCallback(id, message)` does, from the pending table, the
     * settlement log and the event log before to the same three after.
     * `_promises[id]` looks up `String(id)`. When that conversion throws (an
     * object with an own `toString`), nothing changes. Otherwise an own entry
     * is settled and removed; an inherited `Object.prototype` name makes
     * `promise.resolve` or `promise.reject` throw a TypeError before anything
     * changes; any other key reports an orphaned error reply, or drops a
     * non-error one.
     */
    static ghost predicate CallbackEffect(
      pending0: map<string, nat>, settled0: seq<Settlement>, events0: seq<Event>,
      id: Option<Value>, message: Value,
      pending1: map<string, nat>, settled1: seq<Settlement>, events1: seq<Event>, thrown: bool)
    {
      match PropertyKey(id)
      case None =>
        thrown && pending1 == pending0 && settled1 == settled0 && events1 == events0
      case Some(key) =>
        if key in pending0 then
          && !thrown
          && pending1 == pending0 - {key}
          && settled1 == settled0 + [Settlement(key, pending0[key], if IsError(message) then Rejected else Resolved, message)]
          && events1 == events0
        else
          && pending1 == pending0
          && settled1 == settled0
          && thrown == (key in InheritedNames)
          && events1 == events0 +
               (if !thrown && IsError(message) then [Event("error", [ArgOf(Get(message, "error")), Val(message)])] else [])
    }

    /** `handleCallback`: settle and remove the matching pending entry, or report an orphaned error. */
    method HandleCallback(id: Option<Value>, message: Value) returns (thrown: bool)
      requires Valid()
      modifies this`pending, this`settled, this`events
      ensures Valid()
      ensures CallbackEffect(old(pending), old(settled), old(events), id, message, pending, settled, events, thrown)
    {
      thrown := false;
      var k := PropertyKey(id);
      if k.None? {
        return true;
      }
      var key := k.value;
      if key in pending {
        var outcome := if IsError(message) then Rejected else Resolved;
        settled := settled + [Settlement(key, pending[key], outcome, message)];
        pending := pending - {key};
      } else if key in InheritedNames {
        thrown := true;
      } else if IsError(message) {
        events := events + [Event("error", [ArgOf(Get(message, "error")), Val(message)])];
      }
    }

    /** `login` begins with `getAuthRequired`. */
    method Login() returns (r: SendResult)
      requires Valid()
      modifies this`idCounter, this`pending, this`sent, this`issued
      ensures Valid()
      ensures old(HasSocket()) ==>
        && r == Sent(Decimal(old(idCounter)))
        && idCounter == old(idCounter) + 1
        && pending == old(pending)[r.id := |old(sent)|]
        && sent == old(sent) + [Outbound(sockets, Body(GetAuthRequired) + [Field("message-id", JStr(r.id))])]
      ensures !old(HasSocket()) ==>
        r == Failed("Connection isn't opened") &&
        idCounter == old(idCounter) && pending == old(pending) && sent == old(sent)
    {
      r := SendRequest(GetAuthRequired);
    }

    /**
     * `login`'s continuation once `getAuthRequired` settles: a rejection
     * propagates; otherwise no authentication needed resolves `true`, a missing
     * password rejects, and otherwise the challenge response is sent with
     * `authenticate` (whose own failure to send rejects with `error.error`,
     * which an `Error` lacks).
     */
    method LoginAuthInfo(outcome: Outcome, authInfo: Value, password: Option<Value>,
                         digest: (Option<Value>, Option<Value>) -> string) returns (r: LoginProgress)
      requires Valid()
      modifies this`idCounter, this`pending, this`sent, this`issued
      ensures Valid()
      ensures outcome == Rejected ==> r == LoginFailed(Val(authInfo))
      ensures outcome == Resolved ==> match LoginDecision(authInfo, password, digest)
        case NoAuthNeeded => r == LoggedIn
        case PasswordRequired => r == LoginFailed(ErrorObject("Password Required"))
        case SendAuthenticate(auth) =>
          if old(HasSocket()) then
            && r == AwaitingAuthenticate(Decimal(old(idCounter)))
            && idCounter == old(idCounter) + 1
            && pending == old(pending)[r.id := |old(sent)|]
            && sent == old(sent) + [Outbound(sockets, Body(Authenticate(JStr(auth))) + [Field("message-id", JStr(r.id))])]
          else
            && r == LoginFailed(Undefined)
            && idCounter == old(idCounter) && pending == old(pending) && sent == old(sent)
      ensures !(outcome == Resolved && LoginDecision(authInfo, password, digest).SendAuthenticate?) ==>
        idCounter == old(idCounter) && pending == old(pending) && sent == old(sent)
    {
      if outcome == Rejected {
        return LoginFailed(Val(authInfo));
      }
      match LoginDecision(authInfo, password, digest)
      case NoAuthNeeded =>
        r := LoggedIn;
      case PasswordRequired =>
        r := LoginFailed(ErrorObject("Password Required"));
      case SendAuthenticate(auth) =>
        var s := SendRequest(Authenticate(JStr(auth)));
        r := if s.Sent? then AwaitingAuthenticate(s.id) else LoginFailed(Undefined);
    }

    /** `login`'s final step: on success emit `ready` and resolve `true`; on failure reject with the reply's `error`. */
    method LoginAuthenticated(outcome: Outcome, reply: Value) returns (r: LoginProgress)
      modifies this`events
      ensures outcome == Resolved ==> r == LoggedIn && events == old(events) + [Event("ready", [])]
      ensures outcome == Rejected ==> r == LoginFailed(ArgOf(Get(reply, "error"))) && events == old(events)
    {
      if outcome == Resolved {
        events := events + [Event("ready", [])];
        r := LoggedIn;
      } else {
        r := LoginFailed(ArgOf(Get(reply, "error")));
      }
    }
  }

  /**
   * Reconnecting while the first socket is still open. The first socket keeps
   * its close handler, so its close event rejects the second connect promise,
   * and the second socket's `open` then finds no connect left to finish.
   */
  method ReconnectScenario() {
    var obs := new OBSRemote("localhost", 4444);
    obs.Connect();
    obs.DeliverOpen(1);
    assert obs.connectLog == [HandshakeSent(1, "1", "2")];
    obs.Connect();
    assert obs.closes == [1] && obs.connecting == Some(2);
    obs.DeliverClose(1, 1005);
    assert obs.connectLog[1] == ConnectRejected(2, "Unknown Error", 1005);
    obs.DeliverOpen(2);
    assert |obs.sent| == 2 && |obs.connectLog| == 2;
  }

  /** The reply `{"message-id": "1"}`: a reply for identifier "1" that is not an error. */
  lemma ReplyForFirstId()
    ensures var reply := JObj([Field("message-id", JStr("1"))]);
      Classify(Some(reply)) == Reply(Some(JStr("1")), reply) &&
      PropertyKey(Some(JStr("1"))) == Some("1") && !IsError(reply)
  {
    var reply := JObj([Field("message-id", JStr("1"))]);
    assert Get(reply, "update-type") == None && Get(reply, "status") == None;
  }

  /**
   * A reply that arrives on a replaced socket still settles the request: the
   * first socket keeps its message handler after the second `connect`.
   */
  method StaleSocketReplyScenario() {
    var obs := new OBSRemote("localhost", 4444);
    obs.Connect();
    var r := obs.SendRequest(GetSceneList);
    assert r == Sent("1") && obs.pending == map["1" := 0];
    obs.Connect();
    var reply := JObj([Field("message-id", JStr("1"))]);
    ReplyForFirstId();
    ghost var pending0, settled0, events0 := obs.pending, obs.settled, obs.events;
    var thrown := obs.DeliverMessage(1, Some(reply));
    OBSRemote.ReplySettlesPending(pending0, settled0, events0, Some(reply), "1",
                                  obs.pending, obs.settled, obs.events, thrown);
    assert !thrown && "1" !in obs.pending;
    assert obs.settled == settled0 + [Settlement("1", 0, Resolved, reply)];
  }
}
