/** The page component: the roster it holds, whether it is still loading it,
    the single storage slot it loads from and writes to, and the diagnostics it
    logs. Its handlers apply the roster transformations of module Roster. */
module AppState {
  import opened Types
  import Roster
  import GeoHook

  /** The storage slot's key; the model has one slot, so it is only a name here. */
  const LOCAL_STORAGE_KEY: string := "vendedor-daniel-rota"

  /** What the slot may hold: a roster that parses, the empty text (which reads
      as no data), or text that does not parse; a slot that cannot be read at
      all ends in the same handler as unparsable text, so it is `Malformed` too. */
  datatype StoredValue = Snapshot(clients: seq<Client>) | EmptyText | Malformed

  /** The two lines the page may write to the console. */
  datatype Diagnostic = LoadFailed | SaveFailed

  /** The roster the page starts from: the stored one when the slot holds one,
      otherwise the default roster (slot missing, empty or unreadable). */
  function LoadRoster(stored: Option<StoredValue>, names: seq<string>): (cs: seq<Client>)
    ensures stored.Some? && stored.value.Snapshot? ==> cs == stored.value.clients
    ensures stored.None? || stored == Some(EmptyText) || stored == Some(Malformed) ==>
              cs == Roster.DefaultRoster(names)
  {
    if stored.Some? && stored.value.Snapshot? then stored.value.clients
    else Roster.DefaultRoster(names)
  }

  /** Loading gives back the roster last written, and anything else yields a
      fresh default roster: sequential ids and no visits. */
  lemma LoadFallsBack(stored: Option<StoredValue>, names: seq<string>, cs: seq<Client>)
    ensures LoadRoster(Some(Snapshot(cs)), names) == cs
    ensures !(stored.Some? && stored.value.Snapshot?) ==>
              Roster.VisitedCount(LoadRoster(stored, names)) == 0 &&
              Roster.TotalCount(LoadRoster(stored, names)) == |names| &&
              forall i :: 0 <= i < |names| ==> LoadRoster(stored, names)[i].id == i + 1
  {
    Roster.DefaultRosterFresh(names);
  }

  class App {
    const defaultNames: seq<string>
    const geo: GeoHook.LocationState
    var clients: seq<Client>
    var isInitializing: bool
    var store: Option<StoredValue>
    var diagnostics: seq<Diagnostic>

    /** The first render: no clients yet, still initialising, the slot as the device has it. */
    constructor(names: seq<string>, stored: Option<StoredValue>)
      ensures defaultNames == names && fresh(geo) && geo.locationError == None
      ensures clients == [] && isInitializing && store == stored && diagnostics == []
    {
      defaultNames := names;
      geo := new GeoHook.LocationState();
      clients := [];
      isInitializing := true;
      store := stored;
      diagnostics := [];
    }

    /** The mount effect: reads the slot, falls back to the default roster when
        it is missing, empty or unreadable (logging only the unreadable case),
        and ends initialisation whatever happened. The slot is not written. */
    method LoadEffect()
      modifies this`clients, this`isInitializing, this`diagnostics
      ensures clients == LoadRoster(old(store), defaultNames)
      ensures !isInitializing
      ensures diagnostics == old(diagnostics) + (if old(store) == Some(Malformed) then [LoadFailed] else [])
    {
      if store.Some? && store.value.Snapshot? {
        clients := store.value.clients;
      } else if store == Some(Malformed) {
        diagnostics := diagnostics + [LoadFailed];
        clients := Roster.DefaultRoster(defaultNames);
      } else {
        clients := Roster.DefaultRoster(defaultNames);
      }
      isInitializing := false;
    }

    /** The persistence effect, run after the roster or the loading flag changes:
        once loading is over it writes the whole roster to the slot, or logs a
        failed write and keeps the slot and the roster as they were. */
    method PersistEffect(writeSucceeds: bool)
      modifies this`store, this`diagnostics
      ensures isInitializing ==> store == old(store) && diagnostics == old(diagnostics)
      ensures !isInitializing && writeSucceeds ==> store == Some(Snapshot(clients)) && diagnostics == old(diagnostics)
      ensures !isInitializing && !writeSucceeds ==> store == old(store) && diagnostics == old(diagnostics) + [SaveFailed]
    {
      if !isInitializing {
        if writeSucceeds {
          store := Some(Snapshot(clients));
        } else {
          diagnostics := diagnostics + [SaveFailed];
        }
      }
    }

    /** Asks for the location, then gives the client with `id` a new pending
        visit if it has none. The visit is created even when no location was
        obtained; the location is then absent. */
    method MarkVisited(id: int, supported: bool, sensor: GeoHook.PositionOptions -> GeoHook.PositionResult, timestamp: string)
      modifies this`clients, geo
      ensures var res := GeoHook.Resolve(supported, sensor(GeoHook.RequestOptions));
              clients == Roster.MarkVisited(old(clients), id, timestamp, res.location) &&
              geo.locationError == res.locationError
    {
      var location := geo.GetLocation(supported, sensor);
      clients := Roster.MarkVisited(clients, id, timestamp, location);
    }

    /** Applies a partial visit to the visit of the client with `id`, if it has one. */
    method UpdateVisit(id: int, patch: Roster.VisitPatch)
      modifies this`clients
      ensures clients == Roster.UpdateVisit(old(clients), id, patch)
    {
      clients := Roster.UpdateVisit(clients, id, patch);
    }

    /** The confirmed reset: empties the slot and starts over from the default
        roster. Removing the slot is not guarded, so when storage refuses it the
        handler stops there: the slot and the roster stay as they were. */
    method ClearData(removeSucceeds: bool)
      modifies this`clients, this`store
      ensures removeSucceeds ==> store == None && clients == Roster.DefaultRoster(defaultNames)
      ensures !removeSucceeds ==> store == old(store) && clients == old(clients)
    {
      if removeSucceeds {
        store := None;
        clients := Roster.DefaultRoster(defaultNames);
      }
    }

    function VisitedCount(): (n: nat)
      reads this
      ensures n <= TotalCount()
    {
      Roster.CountBounds(clients);
      Roster.VisitedCount(clients)
    }

    /** The total shown: one per client held, so never below the visited count. */
    function TotalCount(): (n: nat)
      reads this
      ensures n == |clients|
      ensures Roster.VisitedCount(clients) <= n
    {
      Roster.CountBounds(clients);
      Roster.TotalCount(clients)
    }
  }

  /** Start-up over an unreadable slot: the page shows the default roster, logs
      the failure once, and the first write after loading replaces the bad text. */
  method StartWithCorruptStorage(names: seq<string>) returns (app: App)
    ensures app.clients == Roster.DefaultRoster(names)
    ensures app.VisitedCount() == 0 && app.TotalCount() == |names|
    ensures app.diagnostics == [LoadFailed]
    ensures app.store == Some(Snapshot(Roster.DefaultRoster(names)))
  {
    app := new App(names, Some(Malformed));
    // The first persistence run sees the first render's values (still
    // initialising), so it runs here, before the load; the outcome is React's.
    app.PersistEffect(true);
    assert app.store == Some(Malformed);
    app.LoadEffect();
    app.PersistEffect(true);
    Roster.DefaultRosterFresh(names);
  }

  /** A denied location request still marks the client visited, with no location. */
  method MarkWithoutPermission(app: App, id: int, timestamp: string)
    requires Roster.UniqueIds(app.clients)
    requires exists k :: 0 <= k < |app.clients| && app.clients[k].id == id && !app.clients[k].Visited()
    modifies app, app.geo
    ensures app.VisitedCount() == old(app.VisitedCount()) + 1
    ensures app.geo.locationError == Some(GeoHook.PermissionDeniedMessage)
    ensures forall i :: 0 <= i < |app.clients| && app.clients[i].id == id ==>
              app.clients[i].visit == Some(Visit(timestamp, Pending, "", None))
  {
    var denied := (_: GeoHook.PositionOptions) => GeoHook.PositionError(GeoHook.PERMISSION_DENIED);
    ghost var before := app.clients;
    app.MarkVisited(id, true, denied, timestamp);
    Roster.MarkVisitedCount(before, id, timestamp, None);
  }

  /** Resetting after some visits: nothing is visited, every default client is
      back, and once written the slot holds the default roster. */
  method ResetAfterVisits(app: App)
    requires !app.isInitializing
    modifies app
    ensures app.VisitedCount() == 0 && app.TotalCount() == |app.defaultNames|
    ensures app.store == Some(Snapshot(Roster.DefaultRoster(app.defaultNames)))
    ensures LoadRoster(app.store, app.defaultNames) == Roster.DefaultRoster(app.defaultNames)
  {
    app.ClearData(true);
    app.PersistEffect(true);
    Roster.DefaultRosterFresh(app.defaultNames);
  }
}
