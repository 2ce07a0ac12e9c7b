/**
 * The server's in-memory state: the global `trains`, `stretches` and
 * `signals` of train.go, stretch.go and signal.go. Every signal object is
 * kept in one map keyed by its (stretch, id) pair, and a Go pointer between
 * signals is that key. The bytes written to each train's connection are
 * kept as a log. Also here: the block-aspect rule over the signal graph,
 * which signal.go applies to one signal or to a signal and the two behind it.
 */
module ServerState {
  import opened Wrappers
  import opened ServerUtils
  import opened ServerRecords

  /**
   * `SignalId.getSignal`: the signal when its stretch is known and lists it;
   * the stretch's `Signals` map is the set of ids it lists.
   */
  function GetSignal(stretches: map<uint8, Stretch>, sid: SignalId): (r: Option<SignalId>)
    ensures r.Some? <==> sid.stretchId in stretches && sid.id in stretches[sid.stretchId].signals
    ensures r.Some? ==> r.value == sid
  {
    if sid.stretchId !in stretches then None
    else if sid.id !in stretches[sid.stretchId].signals then None
    else Some(sid)
  }

  /** The bytes one `Conn.Write` pair puts on a train's connection. */
  datatype TrainWrite = TrainWrite(trainId: uint8, bytes: seq<uint8>)

  /** A pointer that is set and points at a known signal whose zone is occupied. */
  predicate Occupied(signals: map<SignalId, Signal>, link: Option<SignalId>)
  {
    link.Some? && link.value in signals && signals[link.value].zoneOccupied
  }

  /** The `NextSignal` of the signal a pointer points at, if both are set. */
  function NextOf(signals: map<SignalId, Signal>, link: Option<SignalId>): Option<SignalId>
  {
    if link.Some? && link.value in signals then signals[link.value].nextSignal else None
  }

  /**
   * The aspect `calculateSignalAspect` gives: Danger for an occupied zone,
   * else Caution for an occupied next zone, else Preliminary Caution for an
   * occupied zone after that, else Clear.
   */
  function AspectFor(signals: map<SignalId, Signal>, id: SignalId): (aspect: uint8)
    requires id in signals
    ensures aspect == SIGNAL_DANGER <==> signals[id].zoneOccupied
    ensures aspect == SIGNAL_CAUTION <==> !signals[id].zoneOccupied && Occupied(signals, signals[id].nextSignal)
    ensures aspect == SIGNAL_PRELIMINARY_CAUTION <==>
              && !signals[id].zoneOccupied && !Occupied(signals, signals[id].nextSignal)
              && Occupied(signals, NextOf(signals, signals[id].nextSignal))
    ensures aspect == SIGNAL_CLEAR <==>
              && !signals[id].zoneOccupied && !Occupied(signals, signals[id].nextSignal)
              && !Occupied(signals, NextOf(signals, signals[id].nextSignal))
  {
    var s := signals[id];
    if s.zoneOccupied then SIGNAL_DANGER
    else if Occupied(signals, s.nextSignal) then SIGNAL_CAUTION
    else if Occupied(signals, NextOf(signals, s.nextSignal)) then SIGNAL_PRELIMINARY_CAUTION
    else SIGNAL_CLEAR
  }

  /** One `calculateSignalAspect`. */
  function WithAspect(signals: map<SignalId, Signal>, id: SignalId): (r: map<SignalId, Signal>)
    requires id in signals
    ensures r.Keys == signals.Keys
    ensures r[id].aspect == AspectFor(signals, id)
  {
    signals[id := signals[id].(aspect := AspectFor(signals, id))]
  }

  /** `signalAspectChangedCalculate`: the signal, then the one behind it, then the one behind that. */
  function Recalculated(signals: map<SignalId, Signal>, id: SignalId): (r: map<SignalId, Signal>)
    requires id in signals
    ensures r.Keys == signals.Keys
  {
    var s1 := WithAspect(signals, id);
    var p := signals[id].previousSignal;
    if p.Some? && p.value in s1 then
      var s2 := WithAspect(s1, p.value);
      var pp := s2[p.value].previousSignal;
      if pp.Some? && pp.value in s2 then WithAspect(s2, pp.value) else s2
    else s1
  }

  /** The signals `signalAspectChangedCalculate` reaches from `id`. */
  function Behind(signals: map<SignalId, Signal>, id: SignalId): set<SignalId>
    requires id in signals
  {
    var p := signals[id].previousSignal;
    if p.Some? && p.value in signals then
      var pp := signals[p.value].previousSignal;
      if pp.Some? && pp.value in signals then {id, p.value, pp.value} else {id, p.value}
    else {id}
  }

  /** Two states that differ at most in their signals' aspects. */
  predicate SameButAspects(m: map<SignalId, Signal>, n: map<SignalId, Signal>)
  {
    m.Keys == n.Keys && forall k :: k in m ==> n[k] == m[k].(aspect := n[k].aspect)
  }

  /** The aspect rule reads zones and links only, never aspects. */
  lemma AspectIgnoresAspects(m: map<SignalId, Signal>, n: map<SignalId, Signal>, id: SignalId)
    requires SameButAspects(m, n) && id in m
    ensures AspectFor(n, id) == AspectFor(m, id)
  {
    forall k | k in m ensures n[k].zoneOccupied == m[k].zoneOccupied && n[k].nextSignal == m[k].nextSignal {
      assert n[k] == m[k].(aspect := n[k].aspect);
    }
  }

  /** One recalculation keeps the state the same but for aspects. */
  lemma WithAspectSameButAspects(m: map<SignalId, Signal>, n: map<SignalId, Signal>, id: SignalId)
    requires SameButAspects(m, n) && id in n
    ensures SameButAspects(m, WithAspect(n, id))
    ensures WithAspect(n, id)[id].aspect == AspectFor(m, id)
    ensures forall k :: k in n && k != id ==> WithAspect(n, id)[k] == n[k]
  {
    AspectIgnoresAspects(m, n, id);
    var r := WithAspect(n, id);
    forall k | k in m ensures r[k] == m[k].(aspect := r[k].aspect) {
      if k == id {
        assert n[id] == m[id].(aspect := n[id].aspect);
      } else {
        assert r[k] == n[k];
      }
    }
  }

  lemma SameButAspectsRefl(m: map<SignalId, Signal>)
    ensures SameButAspects(m, m)
  {
    forall k | k in m ensures m[k] == m[k].(aspect := m[k].aspect) { }
  }

  /**
   * A recalculation changes only aspects; it gives the signal and the (up
   * to) two signals behind it the aspect the rule gives on the state before
   * it, and leaves every other aspect as it was.
   */
  lemma RecalculatedTouchesOnlyBehind(signals: map<SignalId, Signal>, id: SignalId)
    requires id in signals
    ensures SameButAspects(signals, Recalculated(signals, id))
    ensures forall k :: k in signals && k in Behind(signals, id) ==> Recalculated(signals, id)[k].aspect == AspectFor(signals, k)
    ensures forall k :: k in signals && k !in Behind(signals, id) ==> Recalculated(signals, id)[k].aspect == signals[k].aspect
  {
    RecalculatedSameButAspects(signals, id);
    RecalculatedBehind(signals, id);
    RecalculatedElsewhere(signals, id);
  }

  lemma RecalculatedSameButAspects(signals: map<SignalId, Signal>, id: SignalId)
    requires id in signals
    ensures SameButAspects(signals, Recalculated(signals, id))
  {
    SameButAspectsRefl(signals);
    WithAspectSameButAspects(signals, signals, id);
    var s1 := WithAspect(signals, id);
    var p := signals[id].previousSignal;
    if p.Some? && p.value in signals {
      WithAspectSameButAspects(signals, s1, p.value);
      var s2 := WithAspect(s1, p.value);
      assert s2[p.value].previousSignal == signals[p.value].previousSignal;
      var pp := signals[p.value].previousSignal;
      if pp.Some? && pp.value in signals {
        WithAspectSameButAspects(signals, s2, pp.value);
        assert Recalculated(signals, id) == WithAspect(s2, pp.value);
        assert Behind(signals, id) == {id, p.value, pp.value};
      } else {
        assert Recalculated(signals, id) == s2;
        assert Behind(signals, id) == {id, p.value};
      }
    } else {
      assert Recalculated(signals, id) == s1;
      assert Behind(signals, id) == {id};
    }
  }

  lemma RecalculatedBehind(signals: map<SignalId, Signal>, id: SignalId)
    requires id in signals
    ensures forall k :: k in signals && k in Behind(signals, id) ==> Recalculated(signals, id)[k].aspect == AspectFor(signals, k)
  {
    SameButAspectsRefl(signals);
    WithAspectSameButAspects(signals, signals, id);
    var s1 := WithAspect(signals, id);
    var p := signals[id].previousSignal;
    if p.Some? && p.value in signals {
      WithAspectSameButAspects(signals, s1, p.value);
      var s2 := WithAspect(s1, p.value);
      assert s2[p.value].previousSignal == signals[p.value].previousSignal;
      var pp := signals[p.value].previousSignal;
      if pp.Some? && pp.value in signals {
        WithAspectSameButAspects(signals, s2, pp.value);
        var s3 := WithAspect(s2, pp.value);
        assert Recalculated(signals, id) == s3;
        assert Behind(signals, id) == {id, p.value, pp.value};
        forall k | k in {id, p.value, pp.value} ensures s3[k].aspect == AspectFor(signals, k) {
          if k != pp.value {
            assert s3[k] == s2[k];
            if k != p.value {
              assert s2[k] == s1[k];
            }
          }
        }
      } else {
        assert Recalculated(signals, id) == s2;
        assert Behind(signals, id) == {id, p.value};
        forall k | k in {id, p.value} ensures s2[k].aspect == AspectFor(signals, k) {
          if k != p.value {
            assert s2[k] == s1[k];
          }
        }
      }
    } else {
      assert Recalculated(signals, id) == s1;
      assert Behind(signals, id) == {id};
    }
  }

  lemma RecalculatedElsewhere(signals: map<SignalId, Signal>, id: SignalId)
    requires id in signals
    ensures forall k :: k in signals && k !in Behind(signals, id) ==> Recalculated(signals, id)[k].aspect == signals[k].aspect
  {
    SameButAspectsRefl(signals);
    WithAspectSameButAspects(signals, signals, id);
    var s1 := WithAspect(signals, id);
    var p := signals[id].previousSignal;
    if p.Some? && p.value in signals {
      WithAspectSameButAspects(signals, s1, p.value);
      var s2 := WithAspect(s1, p.value);
      assert s2[p.value].previousSignal == signals[p.value].previousSignal;
      var pp := signals[p.value].previousSignal;
      if pp.Some? && pp.value in signals {
        WithAspectSameButAspects(signals, s2, pp.value);
        assert Recalculated(signals, id) == WithAspect(s2, pp.value);
        assert Behind(signals, id) == {id, p.value, pp.value};
      } else {
        assert Recalculated(signals, id) == s2;
        assert Behind(signals, id) == {id, p.value};
      }
    } else {
      assert Recalculated(signals, id) == s1;
      assert Behind(signals, id) == {id};
    }
  }

  /**
   * The global state. `Valid` holds between operations: every map is keyed
   * by its records' own ids, every signal a stretch lists exists, every
   * switch has a kind, and every train's last signal exists.
   */
  class Controller {
    var trains: map<uint8, Train>
    var stretches: map<uint8, Stretch>
    var signals: map<SignalId, Signal>
    /** The global `signals` slice. */
    var signalList: seq<SignalId>
    var wire: seq<TrainWrite>

    ghost predicate Valid()
      reads this
    {
      && (forall k :: k in trains ==> trains[k].id == k)
      && (forall k :: k in stretches ==> stretches[k].id == k)
      && (forall k, i :: k in stretches && i in stretches[k].signals ==> SignalId(k, i) in signals)
      && (forall s :: s in signals ==> signals[s].stretchId == s.stretchId && signals[s].id == s.id)
      && (forall s :: s in signals ==> HasKind(signals[s]))
      && (forall k :: k in trains && trains[k].lastSignal.Some? ==> trains[k].lastSignal.value in signals)
    }

    constructor()
      ensures Valid()
      ensures trains == map[] && stretches == map[] && signals == map[] && signalList == [] && wire == []
    {
      trains := map[];
      stretches := map[];
      signals := map[];
      signalList := [];
      wire := [];
    }
  }
}
