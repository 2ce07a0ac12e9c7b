/**
 * The page's glue (index.tsx): one multiplexer and the store, the nine push
 * subscriptions, the three startup loads, and the request and action
 * wrappers. JSON decoding and encoding are not part of this model; they are
 * the opaque functions of a `Codec`. The list of trains is the store the
 * model keeps in full; actions for the stretch and signal lists, whose
 * reducers are not part of this model, are kept in the log of dispatched
 * actions only.
 */
module ClientApp {
  import opened Wrappers
  import opened JsData
  import opened Text
  import ClientTrain
  import ClientStretch
  import opened SignalView
  import opened NetworkController
  import TrainsSlice

  // Resource names shared with the server.
  const TRAIN := "TRAIN"
  const STRETCH := "STRETCH"
  const SIGNAL := "SIGNAL"
  const MANUALLY_JUMP_START_TRAIN := "MANUALLY_JUMP_START_TRAIN"
  const MANUALLY_STOP_TRAIN := "MANUALLY_STOP_TRAIN"
  const MANUALLY_STOP_TRAIN_AT_SIGNAL := "MANUALLY_STOP_TRAIN_AT_SIGNAL"
  const MANUALLY_CANCEL_STOP_TRAIN_AT_SIGNAL := "MANUALLY_CANCEL_STOP_TRAIN_AT_SIGNAL"
  const SWITCH_PASSTHROUGH := "SWITCH_PASSTHROUGH"
  const SWITCH_DETOUR := "SWITCH_DETOUR"
  const FORCE_RED := "FORCE_RED"
  const UNFORCE_RED := "UNFORCE_RED"

  datatype Resource = Trains | Stretches | Signals

  function ResourceName(r: Resource): string
  {
    match r
    case Trains => TRAIN
    case Stretches => STRETCH
    case Signals => SIGNAL
  }

  datatype PushKind = Inserted | Updated | Deleted

  function PushVerb(k: PushKind): string
  {
    match k
    case Inserted => "SERVER_INSERT"
    case Updated => "SERVER_UPDATE"
    case Deleted => "SERVER_DELETE"
  }

  /** One of the nine `on<Resource><Kind>` handlers. */
  datatype PushHandler = PushHandler(kind: PushKind, resource: Resource)

  function PushHeader(k: PushKind, r: Resource): string
  {
    PushVerb(k) + ":" + ResourceName(r)
  }

  /** The subscriptions `initNetworkController` makes. */
  const PushTable: map<string, PushHandler> := map[
    "SERVER_INSERT:TRAIN" := PushHandler(Inserted, Trains),
    "SERVER_UPDATE:TRAIN" := PushHandler(Updated, Trains),
    "SERVER_DELETE:TRAIN" := PushHandler(Deleted, Trains),
    "SERVER_INSERT:STRETCH" := PushHandler(Inserted, Stretches),
    "SERVER_UPDATE:STRETCH" := PushHandler(Updated, Stretches),
    "SERVER_DELETE:STRETCH" := PushHandler(Deleted, Stretches),
    "SERVER_INSERT:SIGNAL" := PushHandler(Inserted, Signals),
    "SERVER_UPDATE:SIGNAL" := PushHandler(Updated, Signals),
    "SERVER_DELETE:SIGNAL" := PushHandler(Deleted, Signals)]

  /** The `ManuallyJumpStartTrain` and `ManuallyStopTrainAtSignal` commands: a train and a signal. */
  datatype TrainAtSignal = TrainAtSignal(trainId: int, stretchId: int, signalId: int)

  /** `JSON.parse` of a pushed record or a loaded list, and `JSON.stringify` of what the page sends. */
  datatype Codec = Codec(
    parseTrain: string -> Js<ClientTrain.Train>,
    parseTrains: string -> seq<Js<ClientTrain.Train>>,
    parseStretch: string -> Js<ClientStretch.Stretch>,
    parseStretches: string -> seq<Js<ClientStretch.Stretch>>,
    parseSignal: string -> Js<SignalRecord>,
    parseSignals: string -> seq<Js<SignalRecord>>,
    trainText: ClientTrain.Train -> string,
    stretchText: ClientStretch.Stretch -> string,
    signalText: SignalRecord -> string,
    signalIdText: SignalIdRef -> string,
    commandText: TrainAtSignal -> string)

  /** A reducer call of one of the three slices. */
  datatype RecordOp<R> = Add(record: R) | AddMultiple(records: seq<R>) | Update(record: R) | Remove(record: R)

  datatype StoreAction =
    | ToTrains(trainOp: RecordOp<ClientTrain.Train>)
    | ToStretches(stretchOp: RecordOp<ClientStretch.Stretch>)
    | ToSignals(signalOp: RecordOp<Js<SignalRecord>>)

  /** Inserted, updated and deleted pushes call `add`, `update` and `remove`. */
  function PushOp<R>(k: PushKind, record: R): (op: RecordOp<R>)
    ensures k == Inserted <==> op == Add(record)
    ensures k == Updated <==> op == Update(record)
    ensures k == Deleted <==> op == Remove(record)
  {
    match k
    case Inserted => Add(record)
    case Updated => Update(record)
    case Deleted => Remove(record)
  }

  /** What a subscriber dispatches for a pushed payload. */
  function PushAction(h: PushHandler, payload: string, codec: Codec): StoreAction
  {
    match h.resource
    case Trains => ToTrains(PushOp(h.kind, ClientTrain.FromJson(codec.parseTrain(payload))))
    case Stretches => ToStretches(PushOp(h.kind, ClientStretch.FromJson(codec.parseStretch(payload))))
    case Signals => ToSignals(PushOp(h.kind, codec.parseSignal(payload)))
  }

  /** What a startup load dispatches once its `GET` reply arrives. */
  function LoadAction(r: Resource, payload: string, codec: Codec): StoreAction
  {
    match r
    case Trains =>
      var rows := codec.parseTrains(payload);
      ToTrains(AddMultiple(seq(|rows|, i requires 0 <= i < |rows| => ClientTrain.FromJson(rows[i]))))
    case Stretches =>
      var rows := codec.parseStretches(payload);
      ToStretches(AddMultiple(seq(|rows|, i requires 0 <= i < |rows| => ClientStretch.FromJson(rows[i]))))
    case Signals => ToSignals(AddMultiple(codec.parseSignals(payload)))
  }

  /**
   * The store action a delivery leads to: a push always dispatches; a reply
   * dispatches only when it answers a startup load (any other reply goes
   * back to the caller as its envelope).
   */
  function Effect(d: Option<Delivery<PushHandler>>, loads: map<nat, Resource>, codec: Codec): Option<StoreAction>
  {
    match d
    case None => None
    case Some(ToSubscriber(h, payload)) => Some(PushAction(h, payload, codec))
    case Some(ToWaiter(ticket, payload)) =>
      if ticket in loads then Some(LoadAction(loads[ticket], payload, codec)) else None
  }

  /** The train slice's reducer applied to one action; other slices' actions leave it alone. */
  function ApplyTrainAction(state: seq<ClientTrain.Train>, a: StoreAction): seq<ClientTrain.Train>
  {
    match a
    case ToTrains(Add(t)) => TrainsSlice.Added(state, t)
    case ToTrains(AddMultiple(ts)) => TrainsSlice.AddedMultiple(state, ts)
    case ToTrains(Update(t)) => TrainsSlice.Updated(state, t)
    case ToTrains(Remove(t)) => TrainsSlice.Removed(state, t)
    case _ => state
  }

  /** The train list that replaying `log` from the empty store gives. */
  function TrainState(log: seq<StoreAction>): seq<ClientTrain.Train>
    decreases |log|
  {
    if log == [] then [] else ApplyTrainAction(TrainState(log[..|log| - 1]), log[|log| - 1])
  }

  // ----- properties of the routing -----

  /** Every push header routes to the handler for its own kind and resource. */
  lemma PushTableRoutes(k: PushKind, r: Resource)
    ensures PushHeader(k, r) in PushTable && PushTable[PushHeader(k, r)] == PushHandler(k, r)
  {
    match k {
      case Inserted =>
        match r {
          case Trains => assert PushHeader(k, r) == "SERVER_INSERT:TRAIN";
          case Stretches => assert PushHeader(k, r) == "SERVER_INSERT:STRETCH";
          case Signals => assert PushHeader(k, r) == "SERVER_INSERT:SIGNAL";
        }
      case Updated =>
        match r {
          case Trains => assert PushHeader(k, r) == "SERVER_UPDATE:TRAIN";
          case Stretches => assert PushHeader(k, r) == "SERVER_UPDATE:STRETCH";
          case Signals => assert PushHeader(k, r) == "SERVER_UPDATE:SIGNAL";
        }
      case Deleted =>
        match r {
          case Trains => assert PushHeader(k, r) == "SERVER_DELETE:TRAIN";
          case Stretches => assert PushHeader(k, r) == "SERVER_DELETE:STRETCH";
          case Signals => assert PushHeader(k, r) == "SERVER_DELETE:SIGNAL";
        }
    }
  }

  /** Every subscription is a server verb's header. */
  lemma PushTableHeadersAreServerVerbs(header: string)
    requires header in PushTable
    ensures header == PushHeader(PushTable[header].kind, PushTable[header].resource)
    ensures PushVerb(PushTable[header].kind) in ServerVerbs
  {
  }

  /**
   * A push for one of the nine headers dispatches the matching reducer call on
   * the slice of the same resource, with the decoded payload, and uses up no waiter.
   */
  lemma PushRoutesToReducer(k: PushKind, r: Resource, payload: string, waiters: map<string, nat>,
                            loads: map<nat, Resource>, codec: Codec)
    ensures var m := RequestFrame(PushVerb(k), ResourceName(r), payload);
      && Effect(Dispatch(m, waiters, PushTable), loads, codec) == Some(PushAction(PushHandler(k, r), payload, codec))
      && WaitersAfter(m, waiters) == waiters
  {
    PushTableRoutes(k, r);
    PushRoutes(k, r, payload, waiters);
  }

  lemma PushRoutes(k: PushKind, r: Resource, payload: string, waiters: map<string, nat>)
    ensures var m := RequestFrame(PushVerb(k), ResourceName(r), payload);
      && Dispatch(m, waiters, PushTable)
           == (if PushHeader(k, r) in PushTable then Some(ToSubscriber(PushTable[PushHeader(k, r)], payload)) else None)
      && WaitersAfter(m, waiters) == waiters
  {
    PushReachesSubscriber(PushVerb(k), ResourceName(r), payload, waiters, PushTable);
  }

  /** There is no subscription for `SET`, so a `SET` frame reaches nothing and changes no table. */
  lemma SetFramesDropped(resource: string, payload: string, waiters: map<string, nat>)
    requires ':' !in resource && '$' !in resource
    ensures Dispatch(RequestFrame("SET", resource, payload), waiters, PushTable).None?
    ensures WaitersAfter(RequestFrame("SET", resource, payload), waiters) == waiters
  {
    NoSetSubscription(resource);
    PushReachesSubscriber("SET", resource, payload, waiters, PushTable);
  }

  /** Every subscribed header begins `SERVER_`; in particular its third character is `R`. */
  lemma ThirdCharOfPushHeaders()
    ensures forall h :: h in PushTable ==> |h| > 2 && h[2] == 'R'
  {
    assert PushTable.Keys == {"SERVER_INSERT:TRAIN", "SERVER_UPDATE:TRAIN", "SERVER_DELETE:TRAIN",
      "SERVER_INSERT:STRETCH", "SERVER_UPDATE:STRETCH", "SERVER_DELETE:STRETCH",
      "SERVER_INSERT:SIGNAL", "SERVER_UPDATE:SIGNAL", "SERVER_DELETE:SIGNAL"};
  }

  lemma NoSetSubscription(resource: string)
    ensures "SET" + ":" + resource !in PushTable
  {
    var header := "SET" + ":" + resource;
    ThirdCharOfPushHeaders();
    assert header[2] == 'T';
  }

  /**
   * A `GET` reply that answers a startup load dispatches `addMultiple` once:
   * its waiter is used up, so the same reply again dispatches nothing.
   */
  lemma LoadReplyDispatchesOnce(r: Resource, payload: string, waiters: map<string, nat>,
                                loads: map<nat, Resource>, codec: Codec)
    requires "GET:" + ResourceName(r) in waiters && waiters["GET:" + ResourceName(r)] in loads
    ensures var m := RequestFrame("GET", ResourceName(r), payload);
      var ticket := waiters["GET:" + ResourceName(r)];
      && Effect(Dispatch(m, waiters, PushTable), loads, codec) == Some(LoadAction(loads[ticket], payload, codec))
      && Effect(Dispatch(m, WaitersAfter(m, waiters), PushTable), loads, codec).None?
  {
    assert "GET" + ":" + ResourceName(r) == "GET:" + ResourceName(r);
    ReplyConsumesWaiter("GET", ResourceName(r), payload, waiters, PushTable);
  }

  /** A reply to any other request, an insert's or an action's, leaves the store alone. */
  lemma OtherRepliesLeaveStore(verb: string, resource: string, payload: string, waiters: map<string, nat>,
                               loads: map<nat, Resource>, codec: Codec)
    requires verb in ClientVerbs && ':' !in resource && '$' !in resource
    requires verb + ":" + resource in waiters && waiters[verb + ":" + resource] !in loads
    ensures Effect(Dispatch(RequestFrame(verb, resource, payload), waiters, PushTable), loads, codec).None?
  {
    ReplyConsumesWaiter(verb, resource, payload, waiters, PushTable);
  }

  /** Replaying one more action applies its reducer to the replayed list. */
  lemma TrainStateStep(log: seq<StoreAction>, a: StoreAction)
    ensures TrainState(log + [a]) == ApplyTrainAction(TrainState(log), a)
  {
    assert (log + [a])[..|log|] == log;
  }

  /**
   * The page: its multiplexer, the train store, every action dispatched so
   * far, and the tickets of the startup loads still waiting for their reply.
   */
  class App {
    const codec: Codec
    const nc: NetworkController<PushHandler>
    const trains: TrainsSlice.TrainsStore
    var dispatched: seq<StoreAction>
    var pendingLoads: map<nat, Resource>

    /** The subscriptions are the nine handlers, and the train list is the replay of what was dispatched. */
    ghost predicate Valid()
      reads this, nc, trains
    {
      nc.externalListeners == PushTable && trains.state == TrainState(dispatched)
    }

    /** `initNetworkController`. */
    constructor(codec: Codec)
      ensures Valid() && fresh(nc) && fresh(trains)
      ensures this.codec == codec && dispatched == [] && pendingLoads == map[]
      ensures nc.internalListeners == map[] && nc.sent == [] && nc.nextTicket == 0
    {
      var n := new NetworkController<PushHandler>();
      assert "SERVER_INSERT" + ":" + TRAIN == "SERVER_INSERT:TRAIN";
      assert "SERVER_UPDATE" + ":" + TRAIN == "SERVER_UPDATE:TRAIN";
      assert "SERVER_DELETE" + ":" + TRAIN == "SERVER_DELETE:TRAIN";
      assert "SERVER_INSERT" + ":" + STRETCH == "SERVER_INSERT:STRETCH";
      assert "SERVER_UPDATE" + ":" + STRETCH == "SERVER_UPDATE:STRETCH";
      assert "SERVER_DELETE" + ":" + STRETCH == "SERVER_DELETE:STRETCH";
      assert "SERVER_INSERT" + ":" + SIGNAL == "SERVER_INSERT:SIGNAL";
      assert "SERVER_UPDATE" + ":" + SIGNAL == "SERVER_UPDATE:SIGNAL";
      assert "SERVER_DELETE" + ":" + SIGNAL == "SERVER_DELETE:SIGNAL";
      n.AddEventListenerHandle("SERVER_INSERT", TRAIN, PushHandler(Inserted, Trains));
      n.AddEventListenerHandle("SERVER_UPDATE", TRAIN, PushHandler(Updated, Trains));
      n.AddEventListenerHandle("SERVER_DELETE", TRAIN, PushHandler(Deleted, Trains));
      n.AddEventListenerHandle("SERVER_INSERT", STRETCH, PushHandler(Inserted, Stretches));
      n.AddEventListenerHandle("SERVER_UPDATE", STRETCH, PushHandler(Updated, Stretches));
      n.AddEventListenerHandle("SERVER_DELETE", STRETCH, PushHandler(Deleted, Stretches));
      n.AddEventListenerHandle("SERVER_INSERT", SIGNAL, PushHandler(Inserted, Signals));
      n.AddEventListenerHandle("SERVER_UPDATE", SIGNAL, PushHandler(Updated, Signals));
      n.AddEventListenerHandle("SERVER_DELETE", SIGNAL, PushHandler(Deleted, Signals));
      this.codec := codec;
      nc := n;
      trains := new TrainsSlice.TrainsStore();
      dispatched := [];
      pendingLoads := map[];
    }

    /** `getTrains`, `getStretches`, `getSignals`: a `GET` whose reply is later handed to `addMultiple`. */
    method Load(r: Resource) returns (ticket: nat)
      requires Valid()
      modifies this, nc
      ensures Valid()
      ensures ticket == old(nc.nextTicket) && nc.nextTicket == ticket + 1
      ensures nc.internalListeners == old(nc.internalListeners)["GET:" + ResourceName(r) := ticket]
      ensures nc.sent == old(nc.sent) + [RequestFrame("GET", ResourceName(r), "")]
      ensures pendingLoads == old(pendingLoads)[ticket := r] && dispatched == old(dispatched)
    {
      ticket := nc.GetRows(ResourceName(r), "");
      pendingLoads := pendingLoads[ticket := r];
    }

    /** `initializeState`: three loads under three distinct headers, so each keeps its own waiter. */
    method InitializeState()
      requires Valid()
      modifies this, nc
      ensures Valid()
      ensures var t := old(nc.nextTicket);
        && nc.sent == old(nc.sent) + ["GET:TRAIN$", "GET:STRETCH$", "GET:SIGNAL$"]
        && nc.internalListeners == old(nc.internalListeners)["GET:TRAIN" := t]["GET:STRETCH" := t + 1]["GET:SIGNAL" := t + 2]
        && pendingLoads == old(pendingLoads)[t := Trains][t + 1 := Stretches][t + 2 := Signals]
      ensures forall r: Resource :: var key := "GET:" + ResourceName(r);
        key in nc.internalListeners && nc.internalListeners[key] in pendingLoads
        && pendingLoads[nc.internalListeners[key]] == r
      ensures dispatched == old(dispatched)
    {
      assert "GET:" + ResourceName(Trains) == "GET:TRAIN";
      assert "GET:" + ResourceName(Stretches) == "GET:STRETCH";
      assert "GET:" + ResourceName(Signals) == "GET:SIGNAL";
      var t0 := Load(Trains);
      var t1 := Load(Stretches);
      var t2 := Load(Signals);
      assert RequestFrame("GET", TRAIN, "") == "GET:TRAIN$";
      assert RequestFrame("GET", STRETCH, "") == "GET:STRETCH$";
      assert RequestFrame("GET", SIGNAL, "") == "GET:SIGNAL$";
    }

    /** A frame from the server: the multiplexer's dispatch, then the store action it leads to. */
    method OnMessage(message: string) returns (reply: Option<string>)
      requires Valid()
      modifies this, nc, trains
      ensures Valid()
      ensures var d := Dispatch(message, old(nc.internalListeners), old(nc.externalListeners));
        var e := Effect(d, old(pendingLoads), codec);
        && dispatched == old(dispatched) + (if e.Some? then [e.value] else [])
        && (reply.Some? <==> d.Some? && d.value.ToWaiter? && d.value.ticket !in old(pendingLoads))
        && (reply.Some? ==> reply.value == d.value.payload)
        && pendingLoads == (if d.Some? && d.value.ToWaiter? then old(pendingLoads) - {d.value.ticket}
                            else old(pendingLoads))
      ensures nc.internalListeners == WaitersAfter(message, old(nc.internalListeners))
      ensures nc.sent == old(nc.sent) && nc.nextTicket == old(nc.nextTicket)
    {
      var d := nc.OnWebSocketMessage(message);
      reply := Deliver(d);
    }

    /** What a delivery does on the page: a load's reply fills the store, another waiter's reply goes back to its caller. */
    method Deliver(d: Option<Delivery<PushHandler>>) returns (reply: Option<string>)
      requires trains.state == TrainState(dispatched)
      modifies this, trains
      ensures trains.state == TrainState(dispatched)
      ensures var e := Effect(d, old(pendingLoads), codec);
        && dispatched == old(dispatched) + (if e.Some? then [e.value] else [])
        && (reply.Some? <==> d.Some? && d.value.ToWaiter? && d.value.ticket !in old(pendingLoads))
        && (reply.Some? ==> reply.value == d.value.payload)
        && pendingLoads == (if d.Some? && d.value.ToWaiter? then old(pendingLoads) - {d.value.ticket}
                            else old(pendingLoads))
    {
      var loads := pendingLoads;
      reply := None;
      var e := Effect(d, loads, codec);
      if d.Some? && d.value.ToWaiter? {
        pendingLoads := pendingLoads - {d.value.ticket};
        if d.value.ticket !in loads {
          reply := Some(d.value.payload);
        }
      }
      if e.Some? {
        TrainStateStep(dispatched, e.value);
        ApplyToTrains(e.value);
        dispatched := dispatched + [e.value];
      }
    }

    /** `store.dispatch` as seen by the train slice. */
    method ApplyToTrains(a: StoreAction)
      modifies trains
      ensures trains.state == ApplyTrainAction(old(trains.state), a)
    {
      match a {
        case ToTrains(Add(t)) => trains.Add(t);
        case ToTrains(AddMultiple(ts)) => trains.AddMultiple(ts);
        case ToTrains(Update(t)) => trains.Update(t);
        case ToTrains(Remove(t)) => trains.Remove(t);
        case ToStretches(_) =>
        case ToSignals(_) =>
      }
    }

    // ----- requests: each sends one frame and never touches the store -----

    /** `insertTrain`, `insertStretch`, `insertSignal` send the JSON of the record. */
    method InsertTrain(t: ClientTrain.Train) returns (ticket: nat)
      requires Valid()
      modifies nc
      ensures Valid()
      ensures nc.sent == old(nc.sent) + [RequestFrame("INSERT", TRAIN, codec.trainText(t))]
      ensures nc.internalListeners == old(nc.internalListeners)["INSERT:" + TRAIN := ticket]
      ensures ticket == old(nc.nextTicket) && nc.nextTicket == ticket + 1
    {
      ticket := nc.AddRows(TRAIN, codec.trainText(t));
    }

    method UpdateTrain(t: ClientTrain.Train) returns (ticket: nat)
      requires Valid()
      modifies nc
      ensures Valid()
      ensures nc.sent == old(nc.sent) + [RequestFrame("UPDATE", TRAIN, codec.trainText(t))]
      ensures nc.internalListeners == old(nc.internalListeners)["UPDATE:" + TRAIN := ticket]
      ensures ticket == old(nc.nextTicket) && nc.nextTicket == ticket + 1
    {
      ticket := nc.UpdateRows(TRAIN, codec.trainText(t));
    }

    /** The delete wrappers send the whole record's JSON, not a bare id. */
    method DeleteTrain(t: ClientTrain.Train) returns (ticket: nat)
      requires Valid()
      modifies nc
      ensures Valid()
      ensures nc.sent == old(nc.sent) + [RequestFrame("DELETE", TRAIN, codec.trainText(t))]
      ensures nc.internalListeners == old(nc.internalListeners)["DELETE:" + TRAIN := ticket]
      ensures ticket == old(nc.nextTicket) && nc.nextTicket == ticket + 1
    {
      ticket := nc.DeleteRows(TRAIN, codec.trainText(t));
    }

    method InsertStretch(s: ClientStretch.Stretch) returns (ticket: nat)
      requires Valid()
      modifies nc
      ensures Valid()
      ensures nc.sent == old(nc.sent) + [RequestFrame("INSERT", STRETCH, codec.stretchText(s))]
      ensures nc.internalListeners == old(nc.internalListeners)["INSERT:" + STRETCH := ticket]
      ensures ticket == old(nc.nextTicket) && nc.nextTicket == ticket + 1
    {
      ticket := nc.AddRows(STRETCH, codec.stretchText(s));
    }

    method UpdateStretch(s: ClientStretch.Stretch) returns (ticket: nat)
      requires Valid()
      modifies nc
      ensures Valid()
      ensures nc.sent == old(nc.sent) + [RequestFrame("UPDATE", STRETCH, codec.stretchText(s))]
      ensures nc.internalListeners == old(nc.internalListeners)["UPDATE:" + STRETCH := ticket]
      ensures ticket == old(nc.nextTicket) && nc.nextTicket == ticket + 1
    {
      ticket := nc.UpdateRows(STRETCH, codec.stretchText(s));
    }

    method DeleteStretch(s: ClientStretch.Stretch) returns (ticket: nat)
      requires Valid()
      modifies nc
      ensures Valid()
      ensures nc.sent == old(nc.sent) + [RequestFrame("DELETE", STRETCH, codec.stretchText(s))]
      ensures nc.internalListeners == old(nc.internalListeners)["DELETE:" + STRETCH := ticket]
      ensures ticket == old(nc.nextTicket) && nc.nextTicket == ticket + 1
    {
      ticket := nc.DeleteRows(STRETCH, codec.stretchText(s));
    }

    method InsertSignal(s: SignalRecord) returns (ticket: nat)
      requires Valid()
      modifies nc
      ensures Valid()
      ensures nc.sent == old(nc.sent) + [RequestFrame("INSERT", SIGNAL, codec.signalText(s))]
      ensures nc.internalListeners == old(nc.internalListeners)["INSERT:" + SIGNAL := ticket]
      ensures ticket == old(nc.nextTicket) && nc.nextTicket == ticket + 1
    {
      ticket := nc.AddRows(SIGNAL, codec.signalText(s));
    }

    method UpdateSignal(s: SignalRecord) returns (ticket: nat)
      requires Valid()
      modifies nc
      ensures Valid()
      ensures nc.sent == old(nc.sent) + [RequestFrame("UPDATE", SIGNAL, codec.signalText(s))]
      ensures nc.internalListeners == old(nc.internalListeners)["UPDATE:" + SIGNAL := ticket]
      ensures ticket == old(nc.nextTicket) && nc.nextTicket == ticket + 1
    {
      ticket := nc.UpdateRows(SIGNAL, codec.signalText(s));
    }

    method DeleteSignal(s: SignalRecord) returns (ticket: nat)
      requires Valid()
      modifies nc
      ensures Valid()
      ensures nc.sent == old(nc.sent) + [RequestFrame("DELETE", SIGNAL, codec.signalText(s))]
      ensures nc.internalListeners == old(nc.internalListeners)["DELETE:" + SIGNAL := ticket]
      ensures ticket == old(nc.nextTicket) && nc.nextTicket == ticket + 1
    {
      ticket := nc.DeleteRows(SIGNAL, codec.signalText(s));
    }

    // ----- actions -----

    /** The commands with a train and a signal go as JSON. */
    method ManuallyJumpStartTrain(cmd: TrainAtSignal) returns (ticket: nat)
      requires Valid()
      modifies nc
      ensures Valid()
      ensures nc.sent == old(nc.sent) + [RequestFrame("ACTION", MANUALLY_JUMP_START_TRAIN, codec.commandText(cmd))]
      ensures nc.internalListeners == old(nc.internalListeners)["ACTION:" + MANUALLY_JUMP_START_TRAIN := ticket]
      ensures ticket == old(nc.nextTicket) && nc.nextTicket == ticket + 1
    {
      ticket := nc.ExecuteAction(MANUALLY_JUMP_START_TRAIN, codec.commandText(cmd));
    }

    method ManuallyStopTrainAtSignal(cmd: TrainAtSignal) returns (ticket: nat)
      requires Valid()
      modifies nc
      ensures Valid()
      ensures nc.sent == old(nc.sent) + [RequestFrame("ACTION", MANUALLY_STOP_TRAIN_AT_SIGNAL, codec.commandText(cmd))]
      ensures nc.internalListeners == old(nc.internalListeners)["ACTION:" + MANUALLY_STOP_TRAIN_AT_SIGNAL := ticket]
      ensures ticket == old(nc.nextTicket) && nc.nextTicket == ticket + 1
    {
      ticket := nc.ExecuteAction(MANUALLY_STOP_TRAIN_AT_SIGNAL, codec.commandText(cmd));
    }

    /** The commands about a train alone send its id in decimal (`"" + trainID`). */
    method ManuallyStopTrain(trainId: int) returns (ticket: nat)
      requires Valid()
      modifies nc
      ensures Valid()
      ensures nc.sent == old(nc.sent) + [RequestFrame("ACTION", MANUALLY_STOP_TRAIN, IntToString(trainId))]
      ensures nc.internalListeners == old(nc.internalListeners)["ACTION:" + MANUALLY_STOP_TRAIN := ticket]
      ensures ticket == old(nc.nextTicket) && nc.nextTicket == ticket + 1
    {
      ticket := nc.ExecuteAction(MANUALLY_STOP_TRAIN, IntToString(trainId));
    }

    method CancelManuallyStopTrainAtSignal(trainId: int) returns (ticket: nat)
      requires Valid()
      modifies nc
      ensures Valid()
      ensures nc.sent == old(nc.sent) + [RequestFrame("ACTION", MANUALLY_CANCEL_STOP_TRAIN_AT_SIGNAL, IntToString(trainId))]
      ensures nc.internalListeners == old(nc.internalListeners)["ACTION:" + MANUALLY_CANCEL_STOP_TRAIN_AT_SIGNAL := ticket]
      ensures ticket == old(nc.nextTicket) && nc.nextTicket == ticket + 1
    {
      ticket := nc.ExecuteAction(MANUALLY_CANCEL_STOP_TRAIN_AT_SIGNAL, IntToString(trainId));
    }

    /** The signal commands send the signal's id pair as JSON. */
    method SwitchPassthrough(signal: SignalIdRef) returns (ticket: nat)
      requires Valid()
      modifies nc
      ensures Valid()
      ensures nc.sent == old(nc.sent) + [RequestFrame("ACTION", SWITCH_PASSTHROUGH, codec.signalIdText(signal))]
      ensures nc.internalListeners == old(nc.internalListeners)["ACTION:" + SWITCH_PASSTHROUGH := ticket]
      ensures ticket == old(nc.nextTicket) && nc.nextTicket == ticket + 1
    {
      ticket := nc.ExecuteAction(SWITCH_PASSTHROUGH, codec.signalIdText(signal));
    }

    method SwitchDetour(signal: SignalIdRef) returns (ticket: nat)
      requires Valid()
      modifies nc
      ensures Valid()
      ensures nc.sent == old(nc.sent) + [RequestFrame("ACTION", SWITCH_DETOUR, codec.signalIdText(signal))]
      ensures nc.internalListeners == old(nc.internalListeners)["ACTION:" + SWITCH_DETOUR := ticket]
      ensures ticket == old(nc.nextTicket) && nc.nextTicket == ticket + 1
    {
      ticket := nc.ExecuteAction(SWITCH_DETOUR, codec.signalIdText(signal));
    }

    method ForceRed(signal: SignalIdRef) returns (ticket: nat)
      requires Valid()
      modifies nc
      ensures Valid()
      ensures nc.sent == old(nc.sent) + [RequestFrame("ACTION", FORCE_RED, codec.signalIdText(signal))]
      ensures nc.internalListeners == old(nc.internalListeners)["ACTION:" + FORCE_RED := ticket]
      ensures ticket == old(nc.nextTicket) && nc.nextTicket == ticket + 1
    {
      ticket := nc.ExecuteAction(FORCE_RED, codec.signalIdText(signal));
    }

    method UnforceRed(signal: SignalIdRef) returns (ticket: nat)
      requires Valid()
      modifies nc
      ensures Valid()
      ensures nc.sent == old(nc.sent) + [RequestFrame("ACTION", UNFORCE_RED, codec.signalIdText(signal))]
      ensures nc.internalListeners == old(nc.internalListeners)["ACTION:" + UNFORCE_RED := ticket]
      ensures ticket == old(nc.nextTicket) && nc.nextTicket == ticket + 1
    {
      ticket := nc.ExecuteAction(UNFORCE_RED, codec.signalIdText(signal));
    }
  }
}
