/**
 * The in-memory operations of stretch.go on the server state: listing,
 * loading the stretches and their signals from the database, and the
 * in-memory parts of `Stretch.update` and `Stretch.delete`.
 */
module StretchOps {
  import opened Wrappers
  import opened ServerUtils
  import opened ServerRecords
  import opened ServerState
  import opened IdOrder

  /** `stretchesToArray`: every stretch once, in ascending id order. */
  method StretchesToArray(c: Controller) returns (r: seq<Stretch>)
    requires c.Valid()
    ensures |r| == |c.stretches|
    ensures forall i :: 0 <= i < |r| ==> r[i].id in c.stretches && r[i] == c.stretches[r[i].id]
    ensures forall k :: k in c.stretches ==> c.stretches[k] in r
    ensures forall i, j :: 0 <= i < j < |r| ==> r[i].id < r[j].id
  {
    r := ValuesInIdOrder(c.stretches, (s: Stretch) => s.id);
  }

  // ----- loadStretches -----

  /** The key of a signal in the global map. */
  function KeyOf(v: Signal): SignalId
  {
    SignalId(v.stretchId, v.id)
  }

  /** The ids a stretch's fresh `Signals` map holds once the rows are added. */
  function IdsOf(rows: seq<Signal>): set<uint8>
  {
    if rows == [] then {} else IdsOf(rows[..|rows| - 1]) + {rows[|rows| - 1].id}
  }

  /** A stretch lists exactly the ids of its rows. */
  lemma {:induction false} IdsOfRows(rows: seq<Signal>)
    ensures forall x :: x in IdsOf(rows) <==> exists j :: 0 <= j < |rows| && rows[j].id == x
  {
    if rows != [] {
      var init := rows[..|rows| - 1];
      IdsOfRows(init);
      assert forall j :: 0 <= j < |init| ==> init[j] == rows[j];
    }
  }

  /** The global map after the rows are initialized and added one by one. */
  function WithRows(signals: map<SignalId, Signal>, rows: seq<Signal>): map<SignalId, Signal>
  {
    if rows == [] then signals
    else
      var v := rows[|rows| - 1];
      WithRows(signals, rows[..|rows| - 1])[KeyOf(v) := Initialized(v)]
  }

  /** The keys the rows append to the global list. */
  function KeysOf(rows: seq<Signal>): seq<SignalId>
  {
    if rows == [] then [] else KeysOf(rows[..|rows| - 1]) + [KeyOf(rows[|rows| - 1])]
  }

  /** The stretches map after loading: each stretch with a fresh map holding its rows, a later stretch replacing one with its id. */
  function StretchesLoaded(stretches: map<uint8, Stretch>, db: seq<Stretch>, signalsOf: uint8 -> seq<Signal>): (r: map<uint8, Stretch>)
    ensures stretches.Keys <= r.Keys
    ensures forall i :: 0 <= i < |db| ==> db[i].id in r
  {
    if db == [] then stretches
    else
      var s := db[|db| - 1];
      StretchesLoaded(stretches, db[..|db| - 1], signalsOf)[s.id := s.(signals := IdsOf(signalsOf(s.id)))]
  }

  /** The global map after loading: no signal known before is lost. */
  function SignalsLoaded(signals: map<SignalId, Signal>, db: seq<Stretch>, signalsOf: uint8 -> seq<Signal>): (r: map<SignalId, Signal>)
    ensures signals.Keys <= r.Keys
  {
    if db == [] then signals
    else
      var before := SignalsLoaded(signals, db[..|db| - 1], signalsOf);
      WithRowsKeys(before, signalsOf(db[|db| - 1].id));
      WithRows(before, signalsOf(db[|db| - 1].id))
  }

  function ListLoaded(db: seq<Stretch>, signalsOf: uint8 -> seq<Signal>): seq<SignalId>
  {
    if db == [] then [] else ListLoaded(db[..|db| - 1], signalsOf) + KeysOf(signalsOf(db[|db| - 1].id))
  }

  /** What the database query for a stretch's signals guarantees: its own stretch id and, for a switch, a kind. */
  predicate RowsWellFormed(signalsOf: uint8 -> seq<Signal>)
  {
    forall k, j :: 0 <= j < |signalsOf(k)| ==> signalsOf(k)[j].stretchId == k && HasKind(signalsOf(k)[j])
  }

  /**
   * `loadStretches`: each stretch from the database gets a fresh `Signals`
   * map, each of its signals is initialized, added to that map under its
   * id and appended to the global list.
   */
  method LoadStretches(c: Controller, db: seq<Stretch>, signalsOf: uint8 -> seq<Signal>)
    requires c.Valid() && RowsWellFormed(signalsOf)
    modifies c
    ensures c.stretches == StretchesLoaded(old(c.stretches), db, signalsOf)
    ensures c.signals == SignalsLoaded(old(c.signals), db, signalsOf)
    ensures c.signalList == old(c.signalList) + ListLoaded(db, signalsOf)
    ensures c.trains == old(c.trains) && c.wire == old(c.wire)
    ensures c.Valid()
  {
    for i := 0 to |db|
      invariant c.stretches == StretchesLoaded(old(c.stretches), db[..i], signalsOf)
      invariant c.signals == SignalsLoaded(old(c.signals), db[..i], signalsOf)
      invariant c.signalList == old(c.signalList) + ListLoaded(db[..i], signalsOf)
      invariant c.trains == old(c.trains) && c.wire == old(c.wire)
      invariant c.Valid()
    {
      assert db[..i + 1][..i] == db[..i];
      assert db[..i + 1][i] == db[i];
      ghost var rows := signalsOf(db[i].id);
      assert StretchesLoaded(old(c.stretches), db[..i + 1], signalsOf)
          == StretchesLoaded(old(c.stretches), db[..i], signalsOf)[db[i].id := db[i].(signals := IdsOf(rows))];
      assert SignalsLoaded(old(c.signals), db[..i + 1], signalsOf) == WithRows(SignalsLoaded(old(c.signals), db[..i], signalsOf), rows);
      assert ListLoaded(db[..i + 1], signalsOf) == ListLoaded(db[..i], signalsOf) + KeysOf(rows);
      ConcatAssoc(old(c.signalList), ListLoaded(db[..i], signalsOf), KeysOf(rows));
      LoadStretch(c, db[i], signalsOf);
    }
    assert db[..|db|] == db;
  }

  lemma ConcatAssoc(a: seq<SignalId>, b: seq<SignalId>, k: seq<SignalId>)
    ensures a + (b + k) == (a + b) + k
  {
  }

  /** One round of the outer loop of `loadStretches`. */
  method LoadStretch(c: Controller, dbStretch: Stretch, signalsOf: uint8 -> seq<Signal>)
    requires c.Valid() && RowsWellFormed(signalsOf)
    modifies c
    ensures c.stretches == old(c.stretches)[dbStretch.id := dbStretch.(signals := IdsOf(signalsOf(dbStretch.id)))]
    ensures c.signals == WithRows(old(c.signals), signalsOf(dbStretch.id))
    ensures c.signalList == old(c.signalList) + KeysOf(signalsOf(dbStretch.id))
    ensures c.trains == old(c.trains) && c.wire == old(c.wire)
    ensures c.Valid()
  {
    var stretch := dbStretch.(signals := {});
    var rows := signalsOf(stretch.id);
    for j := 0 to |rows|
      invariant stretch == dbStretch.(signals := IdsOf(rows[..j]))
      invariant c.signals == WithRows(old(c.signals), rows[..j])
      invariant c.signalList == old(c.signalList) + KeysOf(rows[..j])
      invariant forall x :: x in stretch.signals ==> SignalId(stretch.id, x) in c.signals
      invariant c.stretches == old(c.stretches) && c.trains == old(c.trains) && c.wire == old(c.wire)
      invariant c.Valid()
    {
      RowsStep(old(c.signals), rows, j);
      ConcatAssoc(old(c.signalList), KeysOf(rows[..j]), [KeyOf(rows[j])]);
      AddRow(c, rows[j]);
      stretch := stretch.(signals := stretch.signals + {rows[j].id});
    }
    assert rows[..|rows|] == rows;
    PutStretch(c, stretch);
  }

  /** Taking one more row adds its initialized signal to the map and its key to the list. */
  lemma RowsStep(signals: map<SignalId, Signal>, rows: seq<Signal>, j: nat)
    requires j < |rows|
    ensures WithRows(signals, rows[..j + 1]) == WithRows(signals, rows[..j])[KeyOf(rows[j]) := Initialized(rows[j])]
    ensures KeysOf(rows[..j + 1]) == KeysOf(rows[..j]) + [KeyOf(rows[j])]
    ensures IdsOf(rows[..j + 1]) == IdsOf(rows[..j]) + {rows[j].id}
  {
    assert rows[..j + 1][..j] == rows[..j];
    assert rows[..j + 1][j] == rows[j];
  }

  /** `stretches[id] = stretch` for a stretch whose listed signals are all known. */
  method PutStretch(c: Controller, stretch: Stretch)
    requires c.Valid() && forall x :: x in stretch.signals ==> SignalId(stretch.id, x) in c.signals
    modifies c
    ensures c.stretches == old(c.stretches)[stretch.id := stretch]
    ensures c.signals == old(c.signals) && c.signalList == old(c.signalList)
    ensures c.trains == old(c.trains) && c.wire == old(c.wire)
    ensures c.Valid()
  {
    c.stretches := c.stretches[stretch.id := stretch];
  }

  /** The inner loop's body: the initialized signal enters the global map and list. */
  method AddRow(c: Controller, row: Signal)
    requires c.Valid() && HasKind(row)
    modifies c
    ensures c.signals == old(c.signals)[KeyOf(row) := Initialized(row)]
    ensures c.signalList == old(c.signalList) + [KeyOf(row)]
    ensures c.stretches == old(c.stretches) && c.trains == old(c.trains) && c.wire == old(c.wire)
    ensures c.Valid()
  {
    var v := Initialized(row);
    assert v.stretchId == row.stretchId && v.id == row.id && HasKind(v);
    c.signals := c.signals[SignalId(v.stretchId, v.id) := v];
    c.signalList := c.signalList + [SignalId(v.stretchId, v.id)];
  }

  /** A signal known after loading was known before or is one of the rows appended to the list. */
  lemma {:induction false} SignalsLoadedKeys(signals: map<SignalId, Signal>, db: seq<Stretch>, signalsOf: uint8 -> seq<Signal>)
    ensures forall k :: k in SignalsLoaded(signals, db, signalsOf) <==> k in signals || k in ListLoaded(db, signalsOf)
  {
    if db != [] {
      SignalsLoadedKeys(signals, db[..|db| - 1], signalsOf);
      WithRowsKeys(SignalsLoaded(signals, db[..|db| - 1], signalsOf), signalsOf(db[|db| - 1].id));
    }
  }

  lemma {:induction false} WithRowsKeys(signals: map<SignalId, Signal>, rows: seq<Signal>)
    ensures forall k :: k in WithRows(signals, rows) <==> k in signals || k in KeysOf(rows)
  {
    if rows != [] {
      WithRowsKeys(signals, rows[..|rows| - 1]);
    }
  }

  /** Every signal the rows add is initialized: its zone free and, for a switch, idle in passthrough. */
  lemma {:induction false} WithRowsInitialized(signals: map<SignalId, Signal>, rows: seq<Signal>)
    ensures forall k :: k in WithRows(signals, rows) && k !in signals ==>
              var v := WithRows(signals, rows)[k];
              !v.zoneOccupied && v.zoneOccupiedBy.None? && v.passthrough && (v.isSwitch ==> !v.queuedForSwitching)
  {
    if rows != [] {
      WithRowsInitialized(signals, rows[..|rows| - 1]);
    }
  }

  /** When the database lists each stretch once, every loaded stretch holds exactly the ids of its own rows. */
  lemma {:induction false} StretchesLoadedHoldRows(stretches: map<uint8, Stretch>, db: seq<Stretch>, signalsOf: uint8 -> seq<Signal>)
    requires forall i, j :: 0 <= i < j < |db| ==> db[i].id != db[j].id
    ensures forall k :: k in StretchesLoaded(stretches, db, signalsOf) <==> k in stretches || exists i :: 0 <= i < |db| && db[i].id == k
    ensures forall i :: 0 <= i < |db| ==>
              StretchesLoaded(stretches, db, signalsOf)[db[i].id] == db[i].(signals := IdsOf(signalsOf(db[i].id)))
  {
    if db != [] {
      var init := db[..|db| - 1];
      StretchesLoadedHoldRows(stretches, init, signalsOf);
      assert forall i :: 0 <= i < |init| ==> init[i] == db[i];
    }
  }

  // ----- update and delete -----

  /** The stretch after `update` copies its name and type; its signals stay. */
  function StretchWithDetails(s: Stretch, edit: Stretch): (r: Stretch)
    ensures r.name == edit.name && r.stretchType == edit.stretchType && r.id == s.id && r.signals == s.signals
    ensures StretchIsValid(r) == StretchIsValid(edit)
  {
    s.(name := edit.name, stretchType := edit.stretchType)
  }

  /** The in-memory part of `Stretch.update` (the database write is taken to succeed). */
  method UpdateStretch(c: Controller, edit: Stretch) returns (e: Envelope)
    requires c.Valid()
    modifies c
    ensures e.ok <==> edit.id != 0 && StretchIsValid(edit) && edit.id in old(c.stretches)
    ensures edit.id == 0 || !StretchIsValid(edit) ==> e == Fail(ERROR_CODE_DATA_NOT_VALID)
    ensures edit.id != 0 && StretchIsValid(edit) && edit.id !in old(c.stretches) ==> e == Fail(ERROR_CODE_COULD_NOT_FIND_RECORD)
    ensures c.stretches == if e.ok then old(c.stretches)[edit.id := StretchWithDetails(old(c.stretches)[edit.id], edit)]
                           else old(c.stretches)
    ensures e.ok ==> e == Ok
    ensures c.trains == old(c.trains) && c.signals == old(c.signals)
    ensures c.signalList == old(c.signalList) && c.wire == old(c.wire)
    ensures c.Valid()
  {
    if edit.id == 0 || !StretchIsValid(edit) {
      return Fail(ERROR_CODE_DATA_NOT_VALID);
    }
    if edit.id !in c.stretches {
      return Fail(ERROR_CODE_COULD_NOT_FIND_RECORD);
    }
    var stretch := c.stretches[edit.id];
    stretch := stretch.(name := edit.name, stretchType := edit.stretchType);
    c.stretches := c.stretches[edit.id := stretch];
    return Ok;
  }

  /**
   * The stretches map as stretch.go's `delete` leaves it: the stretch stays,
   * and the signal whose id equals the stretch's id is dropped from it.
   */
  function DeletedStretchesAsWritten(stretches: map<uint8, Stretch>, id: uint8): (r: map<uint8, Stretch>)
    requires id in stretches
    ensures r.Keys == stretches.Keys && r[id].signals == stretches[id].signals - {id}
  {
    stretches[id := stretches[id].(signals := stretches[id].signals - {id})]
  }

  /**
   * As written, deleting stretch 1 that lists signals 1 and 2 keeps the
   * stretch and its signal 2 visible and hides only its signal 1.
   */
  lemma DeleteAsWrittenKeepsStretch()
    ensures var stretches := map[1 := Stretch(1, "A", STRETCH_TYPE_ONE_WAY_SINGLE_TRACK, {1, 2})];
      var r := DeletedStretchesAsWritten(stretches, 1);
      && 1 in r && GetSignal(r, SignalId(1, 2)).Some? && GetSignal(r, SignalId(1, 1)).None?
  {
    var stretches := map[1 := Stretch(1, "A", STRETCH_TYPE_ONE_WAY_SINGLE_TRACK, {1, 2})];
    assert DeletedStretchesAsWritten(stretches, 1)[1].signals == {2};
  }

  /**
   * The in-memory part of `Stretch.delete` as intended: the stretch leaves
   * the map, so none of its signals can be looked up through it.
   */
  method DeleteStretch(c: Controller, id: uint8) returns (e: Envelope)
    requires c.Valid()
    modifies c
    ensures e.ok <==> id != 0 && id in old(c.stretches)
    ensures id == 0 ==> e == Fail(ERROR_CODE_DATA_NOT_VALID)
    ensures id != 0 && id !in old(c.stretches) ==> e == Fail(ERROR_CODE_COULD_NOT_FIND_RECORD)
    ensures c.stretches == if e.ok then old(c.stretches) - {id} else old(c.stretches)
    ensures e.ok ==> e == Ok
    ensures c.trains == old(c.trains) && c.signals == old(c.signals)
    ensures c.signalList == old(c.signalList) && c.wire == old(c.wire)
    ensures c.Valid()
  {
    if id == 0 {
      return Fail(ERROR_CODE_DATA_NOT_VALID);
    }
    if id !in c.stretches {
      return Fail(ERROR_CODE_COULD_NOT_FIND_RECORD);
    }
    c.stretches := c.stretches - {id};
    return Ok;
  }

  /** After the intended delete no signal of the stretch is found, and every other stretch's signals still are. */
  lemma DeletedStretchHidesOnlyItsSignals(stretches: map<uint8, Stretch>, id: uint8, sid: SignalId)
    ensures GetSignal(stretches - {id}, sid).Some? <==> sid.stretchId != id && GetSignal(stretches, sid).Some?
  {
  }
}
