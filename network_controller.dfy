/**
 * The browser client's request/reply multiplexer over one WebSocket
 * (NETWORKING/NetworkController.ts). Every frame is `VERB:RESOURCE$PAYLOAD`.
 * Replies to the client's own verbs go to one-shot waiters, which are
 * removed when used; pushes from the server go to durable subscribers.
 * A waiter is a ticket number standing for the promise the request returned;
 * a subscriber is whatever the caller registers (`H`).
 */
module NetworkController {
  import opened Wrappers
  import opened Text

  /** Which side originates a verb: the client (its replies resolve waiters) or the server (pushes). */
  datatype Direction = FromClient | FromServer

  /** The verb table, `true` meaning sent by the server. */
  const VerbsDirection: map<string, bool> := map[
    "GET" := false, "INSERT" := false, "UPDATE" := false, "DELETE" := false, "ACTION" := false,
    "SET" := true, "SERVER_INSERT" := true, "SERVER_UPDATE" := true, "SERVER_DELETE" := true]

  const ClientVerbs: set<string> := {"GET", "INSERT", "UPDATE", "DELETE", "ACTION"}
  const ServerVerbs: set<string> := {"SET", "SERVER_INSERT", "SERVER_UPDATE", "SERVER_DELETE"}

  /**
   * Names every plain JavaScript object inherits. Looking one of them up in
   * the verb table yields a function or an object, which is neither `null`
   * nor falsy, so the frame is treated as a server push.
   */
  const ObjectPrototypeNames: set<string> := {"constructor", "__proto__", "hasOwnProperty",
    "isPrototypeOf", "propertyIsEnumerable", "toLocaleString", "toString", "valueOf",
    "__defineGetter__", "__defineSetter__", "__lookupGetter__", "__lookupSetter__"}

  /** `WebSocketVerbsDirection[verb]`, read the way the `== null` test and the `if` read it. */
  function VerbDirection(verb: string): (d: Option<Direction>)
    ensures d == Some(FromClient) <==> verb in ClientVerbs
    ensures verb in ServerVerbs ==> d == Some(FromServer)
    ensures d == Some(FromServer) <==> verb in ServerVerbs || verb in ObjectPrototypeNames
    ensures d.None? <==> verb !in ClientVerbs && verb !in ServerVerbs && verb !in ObjectPrototypeNames
  {
    if verb in VerbsDirection then Some(if VerbsDirection[verb] then FromServer else FromClient)
    else if verb in ObjectPrototypeNames then Some(FromServer)
    else None
  }

  /** A frame that passed every check: its header, whose verb it carries, and its payload. */
  datatype Frame = Frame(header: string, direction: Direction, payload: string)

  /**
   * The checks of `onWebSocketMessage`: a `$` after at least one character,
   * a header that splits on `:` into exactly two parts, and a known verb.
   * (The source's second test, an empty header, cannot fail once the `$`
   * is past position 0.)
   */
  function ParseFrame(message: string): (r: Option<Frame>)
    ensures r.Some? ==>
              var i := IndexOf(message, '$');
              && 0 < i && r.value.header == message[..i] && r.value.payload == message[i + 1..]
              && '$' !in r.value.header && Count(r.value.header, ':') == 1
  {
    var i := IndexOf(message, '$');
    if i <= 0 then None
    else
      var command := message[..i];
      var verb := Split(command, ':');
      if |verb| != 2 then None
      else
        match VerbDirection(verb[0])
        case None => None
        case Some(d) => Some(Frame(command, d, message[i + 1..]))
  }

  /** What receiving a frame hands on: the payload for a waiter (by ticket) or for a subscriber. */
  datatype Delivery<H> = ToWaiter(ticket: nat, payload: string) | ToSubscriber(handler: H, payload: string)

  /** Which listener, if any, `message` reaches. */
  function Dispatch<H>(message: string, waiters: map<string, nat>, subscribers: map<string, H>): (r: Option<Delivery<H>>)
    ensures r.Some? ==> ParseFrame(message).Some? && r.value.payload == ParseFrame(message).value.payload
    ensures r.Some? && r.value.ToSubscriber? ==>
              var f := ParseFrame(message).value;
              f.direction == FromServer && f.header in subscribers && r.value.handler == subscribers[f.header]
    ensures r.Some? && r.value.ToWaiter? ==>
              var f := ParseFrame(message).value;
              f.direction == FromClient && f.header in waiters && r.value.ticket == waiters[f.header]
  {
    match ParseFrame(message)
    case None => None
    case Some(f) =>
      if f.direction == FromServer then
        if f.header in subscribers then Some(ToSubscriber(subscribers[f.header], f.payload)) else None
      else
        if f.header in waiters then Some(ToWaiter(waiters[f.header], f.payload)) else None
  }

  /** The waiters left after `message`: a reply to a client verb uses up its waiter. */
  function WaitersAfter(message: string, waiters: map<string, nat>): (r: map<string, nat>)
    ensures r == waiters || (ParseFrame(message).Some? && ParseFrame(message).value.direction == FromClient
                             && r == waiters - {ParseFrame(message).value.header})
  {
    match ParseFrame(message)
    case Some(f) => if f.direction == FromClient && f.header in waiters then waiters - {f.header} else waiters
    case None => waiters
  }

  /** The text a request sends. */
  function RequestFrame(verb: string, resource: string, payload: string): (frame: string)
    ensures |frame| == |verb| + |resource| + |payload| + 2
  {
    verb + ":" + resource + "$" + payload
  }

  // ----- properties of a single frame -----

  /** No `$`, or `$` first: nothing is delivered and no waiter is used up. */
  lemma MisplacedDollarIgnored<H>(message: string, waiters: map<string, nat>, subscribers: map<string, H>)
    requires IndexOf(message, '$') <= 0
    ensures Dispatch(message, waiters, subscribers).None?
    ensures WaitersAfter(message, waiters) == waiters
  {
  }

  /** A header that is not exactly one `:`-separated pair is dropped with no effect. */
  lemma HeaderMustBeOnePair<H>(header: string, payload: string, waiters: map<string, nat>, subscribers: map<string, H>)
    requires '$' !in header && Count(header, ':') != 1
    ensures Dispatch(header + "$" + payload, waiters, subscribers).None?
    ensures WaitersAfter(header + "$" + payload, waiters) == waiters
  {
    IndexOfAfterPrefix(header, '$', payload);
    assert (header + "$" + payload)[..|header|] == header;
  }

  /** Parsing a well-formed frame recovers its header and everything after the first `$`, later `$`s included. */
  lemma {:induction false} ParseWellFormed(verb: string, resource: string, payload: string)
    requires verb != "" && ':' !in verb && '$' !in verb
    requires ':' !in resource && '$' !in resource
    ensures var f := ParseFrame(RequestFrame(verb, resource, payload));
      VerbDirection(verb).None? ==> f.None?
    ensures var f := ParseFrame(RequestFrame(verb, resource, payload));
      VerbDirection(verb).Some? ==> f == Some(Frame(verb + ":" + resource, VerbDirection(verb).value, payload))
  {
    var header := verb + ":" + resource;
    var message := RequestFrame(verb, resource, payload);
    assert message == header + "$" + payload;
    assert '$' !in header;
    IndexOfAfterPrefix(header, '$', payload);
    assert message[..|header|] == header;
    assert message[|header| + 1..] == payload;
    SplitAroundSeparator(verb, ':', resource);
  }

  /** Every verb of the table is a non-empty word with no `:` and no `$`. */
  lemma VerbIsPlain(verb: string)
    requires verb in ClientVerbs || verb in ServerVerbs
    ensures verb != "" && ':' !in verb && '$' !in verb
  {
    if verb == "GET" { assert verb == ['G', 'E', 'T']; }
    else if verb == "INSERT" { assert verb == ['I', 'N', 'S', 'E', 'R', 'T']; }
    else if verb == "UPDATE" { assert verb == ['U', 'P', 'D', 'A', 'T', 'E']; }
    else if verb == "DELETE" { assert verb == ['D', 'E', 'L', 'E', 'T', 'E']; }
    else if verb == "ACTION" { assert verb == ['A', 'C', 'T', 'I', 'O', 'N']; }
    else if verb == "SET" { assert verb == ['S', 'E', 'T']; }
    else if verb == "SERVER_INSERT" { assert verb == ['S', 'E', 'R', 'V', 'E', 'R', '_', 'I', 'N', 'S', 'E', 'R', 'T']; }
    else if verb == "SERVER_UPDATE" { assert verb == ['S', 'E', 'R', 'V', 'E', 'R', '_', 'U', 'P', 'D', 'A', 'T', 'E']; }
    else { assert verb == ['S', 'E', 'R', 'V', 'E', 'R', '_', 'D', 'E', 'L', 'E', 'T', 'E']; }
  }

  lemma PushOfParsed<H>(m: string, header: string, payload: string, waiters: map<string, nat>, subscribers: map<string, H>)
    requires ParseFrame(m) == Some(Frame(header, FromServer, payload))
    ensures Dispatch(m, waiters, subscribers) == (if header in subscribers then Some(ToSubscriber(subscribers[header], payload)) else None)
    ensures WaitersAfter(m, waiters) == waiters
  {
  }

  lemma ReplyOfParsed<H>(m: string, header: string, payload: string, waiters: map<string, nat>, subscribers: map<string, H>)
    requires ParseFrame(m) == Some(Frame(header, FromClient, payload)) && header in waiters
    ensures Dispatch(m, waiters, subscribers) == Some(ToWaiter(waiters[header], payload))
    ensures WaitersAfter(m, waiters) == waiters - {header}
    ensures Dispatch(m, waiters - {header}, subscribers).None?
  {
  }

  /** A push reaches the subscriber registered under its exact header, and uses up no waiter. */
  lemma PushReachesSubscriber<H>(verb: string, resource: string, payload: string,
                                 waiters: map<string, nat>, subscribers: map<string, H>)
    requires verb in ServerVerbs && ':' !in resource && '$' !in resource
    ensures var m := RequestFrame(verb, resource, payload);
      && Dispatch(m, waiters, subscribers)
           == (if verb + ":" + resource in subscribers
               then Some(ToSubscriber(subscribers[verb + ":" + resource], payload)) else None)
      && WaitersAfter(m, waiters) == waiters
  {
    VerbIsPlain(verb);
    ParseWellFormed(verb, resource, payload);
    var m := RequestFrame(verb, resource, payload);
    assert ParseFrame(m) == Some(Frame(verb + ":" + resource, FromServer, payload));
    PushOfParsed(m, verb + ":" + resource, payload, waiters, subscribers);
  }

  /** A reply to a client verb reaches its waiter once: the waiter is removed, so the same reply again reaches nothing. */
  lemma ReplyConsumesWaiter<H>(verb: string, resource: string, payload: string,
                               waiters: map<string, nat>, subscribers: map<string, H>)
    requires verb in ClientVerbs && ':' !in resource && '$' !in resource
    requires verb + ":" + resource in waiters
    ensures var m := RequestFrame(verb, resource, payload);
      && Dispatch(m, waiters, subscribers) == Some(ToWaiter(waiters[verb + ":" + resource], payload))
      && WaitersAfter(m, waiters) == waiters - {verb + ":" + resource}
      && Dispatch(m, WaitersAfter(m, waiters), subscribers).None?
  {
    VerbIsPlain(verb);
    ParseWellFormed(verb, resource, payload);
    var m := RequestFrame(verb, resource, payload);
    var h := verb + ":" + resource;
    assert ParseFrame(m) == Some(Frame(h, FromClient, payload));
    ReplyOfParsed(m, h, payload, waiters, subscribers);
  }

  /**
   * The multiplexer's state: the one-shot waiters and durable subscribers,
   * keyed by `VERB:RESOURCE`, the frames sent so far, and the next ticket.
   */
  class NetworkController<H> {
    var internalListeners: map<string, nat>
    var externalListeners: map<string, H>
    var sent: seq<string>
    var nextTicket: nat

    constructor()
      ensures internalListeners == map[] && externalListeners == map[]
      ensures sent == [] && nextTicket == 0
    {
      internalListeners := map[];
      externalListeners := map[];
      sent := [];
      nextTicket := 0;
    }

    /** Registers a waiter; a waiter already under `header` is replaced. */
    method AddListenerHandler(header: string, ticket: nat)
      modifies this
      ensures internalListeners == old(internalListeners)[header := ticket]
      ensures externalListeners == old(externalListeners) && sent == old(sent) && nextTicket == old(nextTicket)
    {
      internalListeners := internalListeners[header := ticket];
    }

    /** Registers a subscriber for `verb:resource`; a subscriber already there is replaced. */
    method AddEventListenerHandle(verb: string, resource: string, listener: H)
      modifies this
      ensures externalListeners == old(externalListeners)[verb + ":" + resource := listener]
      ensures internalListeners == old(internalListeners) && sent == old(sent) && nextTicket == old(nextTicket)
    {
      externalListeners := externalListeners[verb + ":" + resource := listener];
    }

    /** Handles one incoming frame and returns the listener call it makes, if any. */
    method OnWebSocketMessage(message: string) returns (d: Option<Delivery<H>>)
      modifies this
      ensures d == Dispatch(message, old(internalListeners), old(externalListeners))
      ensures internalListeners == WaitersAfter(message, old(internalListeners))
      ensures externalListeners == old(externalListeners) && sent == old(sent) && nextTicket == old(nextTicket)
    {
      d := None;
      var i := IndexOf(message, '$');
      if i <= 0 {
        return;
      }
      var command := message[..i];
      var verb := Split(command, ':');
      if |verb| != 2 {
        return;
      }
      var fromServer := VerbDirection(verb[0]);
      if fromServer.None? {
        return;
      }
      var messageContent := message[i + 1..];
      if fromServer.value == FromServer {
        if command !in externalListeners {
          return;
        }
        d := Some(ToSubscriber(externalListeners[command], messageContent));
      } else {
        if command !in internalListeners {
          return;
        }
        var listener := internalListeners[command];
        internalListeners := internalListeners - {command};
        d := Some(ToWaiter(listener, messageContent));
      }
    }

    /** Registers a fresh waiter under `verb:resource`, then sends `verb:resource$payload`. */
    method Request(verb: string, resource: string, payload: string) returns (ticket: nat)
      modifies this
      ensures ticket == old(nextTicket) && nextTicket == old(nextTicket) + 1
      ensures internalListeners == old(internalListeners)[verb + ":" + resource := ticket]
      ensures sent == old(sent) + [RequestFrame(verb, resource, payload)]
      ensures externalListeners == old(externalListeners)
    {
      ticket := nextTicket;
      nextTicket := nextTicket + 1;
      AddListenerHandler(verb + ":" + resource, ticket);
      sent := sent + [verb + ":" + resource + "$" + payload];
    }

    method GetRows(resource: string, extraData: string) returns (ticket: nat)
      modifies this
      ensures ticket == old(nextTicket) && nextTicket == old(nextTicket) + 1
      ensures internalListeners == old(internalListeners)["GET:" + resource := ticket]
      ensures sent == old(sent) + [RequestFrame("GET", resource, extraData)]
      ensures externalListeners == old(externalListeners)
    {
      assert "GET" + ":" + resource == "GET:" + resource;
      ticket := Request("GET", resource, extraData);
    }

    /** `row` is the JSON text of the record. */
    method AddRows(resource: string, row: string) returns (ticket: nat)
      modifies this
      ensures ticket == old(nextTicket) && nextTicket == old(nextTicket) + 1
      ensures internalListeners == old(internalListeners)["INSERT:" + resource := ticket]
      ensures sent == old(sent) + [RequestFrame("INSERT", resource, row)]
      ensures externalListeners == old(externalListeners)
    {
      assert "INSERT" + ":" + resource == "INSERT:" + resource;
      ticket := Request("INSERT", resource, row);
    }

    method UpdateRows(resource: string, row: string) returns (ticket: nat)
      modifies this
      ensures ticket == old(nextTicket) && nextTicket == old(nextTicket) + 1
      ensures internalListeners == old(internalListeners)["UPDATE:" + resource := ticket]
      ensures sent == old(sent) + [RequestFrame("UPDATE", resource, row)]
      ensures externalListeners == old(externalListeners)
    {
      assert "UPDATE" + ":" + resource == "UPDATE:" + resource;
      ticket := Request("UPDATE", resource, row);
    }

    /** `rowId` is the text `'' + rowId` gives. */
    method DeleteRows(resource: string, rowId: string) returns (ticket: nat)
      modifies this
      ensures ticket == old(nextTicket) && nextTicket == old(nextTicket) + 1
      ensures internalListeners == old(internalListeners)["DELETE:" + resource := ticket]
      ensures sent == old(sent) + [RequestFrame("DELETE", resource, rowId)]
      ensures externalListeners == old(externalListeners)
    {
      assert "DELETE" + ":" + resource == "DELETE:" + resource;
      ticket := Request("DELETE", resource, rowId);
    }

    method ExecuteAction(resource: string, extraData: string) returns (ticket: nat)
      modifies this
      ensures ticket == old(nextTicket) && nextTicket == old(nextTicket) + 1
      ensures internalListeners == old(internalListeners)["ACTION:" + resource := ticket]
      ensures sent == old(sent) + [RequestFrame("ACTION", resource, extraData)]
      ensures externalListeners == old(externalListeners)
    {
      assert "ACTION" + ":" + resource == "ACTION:" + resource;
      ticket := Request("ACTION", resource, extraData);
    }
  }
}
