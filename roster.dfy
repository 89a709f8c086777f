/** The roster of clients and the transformations the page applies to it.
    Each transformation is a `map` over the roster that may replace the visit
    of the client it targets and leaves every other client as it was. */
module Roster {
  import opened Types

  /** The ids of a roster, in order. */
  function Ids(cs: seq<Client>): (ids: seq<int>)
    ensures |ids| == |cs|
    ensures forall i :: 0 <= i < |cs| ==> ids[i] == cs[i].id
  {
    seq(|cs|, i requires 0 <= i < |cs| => cs[i].id)
  }

  /** The names of a roster, in order. */
  function Names(cs: seq<Client>): (names: seq<string>)
    ensures |names| == |cs|
    ensures forall i :: 0 <= i < |cs| ==> names[i] == cs[i].name
  {
    seq(|cs|, i requires 0 <= i < |cs| => cs[i].name)
  }

  ghost predicate UniqueIds(cs: seq<Client>)
  {
    forall i, j :: 0 <= i < j < |cs| ==> cs[i].id != cs[j].id
  }

  /** Two rosters agree on everything but the visits: same length, same ids and names in the same order. */
  ghost predicate SameShape(a: seq<Client>, b: seq<Client>)
  {
    Ids(a) == Ids(b) && Names(a) == Names(b)
  }

  // ---------------------------------------------------------------------------
  // The default roster

  /** The roster built from the fixed list of names: the client at position i
      has id i + 1, the i-th name and no visit. */
  function DefaultRoster(names: seq<string>): (cs: seq<Client>)
    ensures |cs| == |names|
    ensures forall i :: 0 <= i < |cs| ==> cs[i] == Client(i + 1, names[i], None)
  {
    seq(|names|, i requires 0 <= i < |names| => Client(i + 1, names[i], None))
  }

  // ---------------------------------------------------------------------------
  // Marking a client visited

  /** The visit created when a client is marked: a pending sale, an empty note,
      the current time and whatever location was obtained. */
  function NewVisit(timestamp: string, location: Option<Geolocation>): Visit
  {
    Visit(timestamp, Pending, "", location)
  }

  function MarkClient(c: Client, id: int, timestamp: string, location: Option<Geolocation>): Client
  {
    if c.id == id && c.visit.None? then c.(visit := Some(NewVisit(timestamp, location))) else c
  }

  /** Marks the client with `id` visited. Only a client with that id and no visit
      yet gets one; every other client, including an already-visited one with
      that id, keeps exactly what it had. */
  function MarkVisited(cs: seq<Client>, id: int, timestamp: string, location: Option<Geolocation>): (r: seq<Client>)
    ensures SameShape(r, cs)
    ensures forall i :: 0 <= i < |cs| && (cs[i].id != id || cs[i].Visited()) ==> r[i] == cs[i]
    ensures forall i :: 0 <= i < |cs| && cs[i].id == id && !cs[i].Visited() ==>
              r[i].visit == Some(Visit(timestamp, Pending, "", location))
  {
    seq(|cs|, i requires 0 <= i < |cs| => MarkClient(cs[i], id, timestamp, location))
  }

  // ---------------------------------------------------------------------------
  // Updating a visit

  /** The partial visit a caller passes: each field present replaces the visit's own. */
  datatype VisitPatch = VisitPatch(
    timestamp: Option<string>,
    saleStatus: Option<SaleStatus>,
    observation: Option<string>,
    location: Option<Option<Geolocation>>)

  /** A patch that leaves the frozen fields, timestamp and location, alone. */
  predicate Safe(p: VisitPatch)
  {
    p.timestamp.None? && p.location.None?
  }

  function Pick<T>(o: Option<T>, keep: T): T
  {
    if o.Some? then o.value else keep
  }

  /** The spread of a patch over a visit: every field the patch carries wins,
      and every field it does not carry keeps the visit's value. */
  function Merge(v: Visit, p: VisitPatch): (r: Visit)
    ensures p.timestamp.Some? ==> r.timestamp == p.timestamp.value
    ensures p.timestamp.None? ==> r.timestamp == v.timestamp
    ensures p.saleStatus.Some? ==> r.saleStatus == p.saleStatus.value
    ensures p.saleStatus.None? ==> r.saleStatus == v.saleStatus
    ensures p.observation.Some? ==> r.observation == p.observation.value
    ensures p.observation.None? ==> r.observation == v.observation
    ensures p.location.Some? ==> r.location == p.location.value
    ensures p.location.None? ==> r.location == v.location
  {
    Visit(Pick(p.timestamp, v.timestamp), Pick(p.saleStatus, v.saleStatus),
          Pick(p.observation, v.observation), Pick(p.location, v.location))
  }

  /** The empty patch is the identity, applying a patch twice is applying it
      once, a later patch wins over an earlier one on the fields it carries,
      and a safe patch keeps the timestamp and location. */
  lemma MergeOverrides(v: Visit, p: VisitPatch, q: VisitPatch)
    ensures Merge(v, VisitPatch(None, None, None, None)) == v
    ensures Merge(Merge(v, p), p) == Merge(v, p)
    ensures q.timestamp.Some? && q.saleStatus.Some? && q.observation.Some? && q.location.Some? ==>
              Merge(Merge(v, p), q) == Merge(v, q)
    ensures Safe(p) ==> Merge(v, p).timestamp == v.timestamp && Merge(v, p).location == v.location
  {
  }

  /** The patches the client card builds: a new sale status, or a new note.
      Each changes exactly that one field of any visit and is safe. */
  function StatusPatch(s: SaleStatus): (p: VisitPatch)
    ensures Safe(p)
    ensures forall v :: Merge(v, p) == v.(saleStatus := s)
  {
    VisitPatch(None, Some(s), None, None)
  }

  function ObservationPatch(o: string): (p: VisitPatch)
    ensures Safe(p)
    ensures forall v :: Merge(v, p) == v.(observation := o)
  {
    VisitPatch(None, None, Some(o), None)
  }

  function UpdateClient(c: Client, id: int, p: VisitPatch): Client
  {
    if c.id == id && c.visit.Some? then c.(visit := Some(Merge(c.visit.value, p))) else c
  }

  /** Applies a patch to the visit of the client with `id`. A client without a
      visit, or with another id, is left untouched; no visit is created. */
  function UpdateVisit(cs: seq<Client>, id: int, p: VisitPatch): (r: seq<Client>)
    ensures SameShape(r, cs)
    ensures forall i :: 0 <= i < |cs| && (cs[i].id != id || !cs[i].Visited()) ==> r[i] == cs[i]
    ensures forall i :: 0 <= i < |cs| && cs[i].id == id && cs[i].Visited() ==>
              r[i].visit == Some(Merge(cs[i].visit.value, p))
  {
    seq(|cs|, i requires 0 <= i < |cs| => UpdateClient(cs[i], id, p))
  }

  // ---------------------------------------------------------------------------
  // Queries

  /** The visited clients, in roster order (the `filter` behind the visited count). */
  function VisitedClients(cs: seq<Client>): (r: seq<Client>)
    ensures |r| <= |cs|
    ensures forall c :: c in r <==> c in cs && c.Visited()
  {
    if cs == [] then []
    else (if cs[0].Visited() then [cs[0]] else []) + VisitedClients(cs[1..])
  }

  /** The positions of the roster that hold a visited client. */
  ghost function VisitedPositions(cs: seq<Client>): set<int>
  {
    set i | 0 <= i < |cs| && cs[i].Visited()
  }

  /** The visited count is the number of roster positions holding a visited client. */
  function VisitedCount(cs: seq<Client>): (n: nat)
    ensures n == |VisitedPositions(cs)|
  {
    CountIsVisitedPositions(cs);
    |VisitedClients(cs)|
  }

  /** The total count bounds the visited count. */
  function TotalCount(cs: seq<Client>): (n: nat)
    ensures VisitedCount(cs) <= n
  {
    |cs|
  }

  /** Every position of a set moved one place on. */
  ghost function Shifted(t: set<int>): (u: set<int>)
    ensures forall y :: y in u <==> y - 1 in t
  {
    set j | j in t :: j + 1
  }

  /** Moving every position one place on keeps the number of positions. */
  lemma {:induction false} ShiftKeepsSize(t: set<int>)
    ensures |Shifted(t)| == |t|
    decreases |t|
  {
    if x :| x in t {
      var rest := t - {x};
      ShiftKeepsSize(rest);
      assert Shifted(t) == Shifted(rest) + {x + 1};
      assert x + 1 !in Shifted(rest);
    } else {
      assert forall y :: y !in t;
      assert t == {};
      assert Shifted(t) == {};
    }
  }

  /** The visited positions of a roster: the first one if it is visited, and
      those of the rest moved one place on. */
  lemma PositionsSplit(cs: seq<Client>)
    requires cs != []
    ensures VisitedPositions(cs) ==
            (if cs[0].Visited() then {0} else {}) + Shifted(VisitedPositions(cs[1..]))
  {
  }

  /** The length of the filtered list is the number of visited positions. */
  lemma {:induction false} CountIsVisitedPositions(cs: seq<Client>)
    ensures |VisitedClients(cs)| == |VisitedPositions(cs)|
  {
    if cs != [] {
      var tail := VisitedPositions(cs[1..]);
      CountIsVisitedPositions(cs[1..]);
      ShiftKeepsSize(tail);
      PositionsSplit(cs);
      assert 0 !in Shifted(tail);
    }
  }

  /** The visited count never exceeds the total, and is zero exactly when no
      client has a visit. */
  lemma CountBounds(cs: seq<Client>)
    ensures VisitedCount(cs) <= TotalCount(cs)
    ensures VisitedCount(cs) == 0 <==> forall i :: 0 <= i < |cs| ==> !cs[i].Visited()
  {
  }

  /** The first client with `id`, if any (the `find` behind the selected client). */
  function FindById(cs: seq<Client>, id: int): (r: Option<Client>)
    ensures r.None? <==> forall i :: 0 <= i < |cs| ==> cs[i].id != id
    ensures r.Some? ==> exists k :: 0 <= k < |cs| && cs[k] == r.value && r.value.id == id &&
                          forall j :: 0 <= j < k ==> cs[j].id != id
  {
    if cs == [] then None
    else if cs[0].id == id then Some(cs[0])
    else
      var r := FindById(cs[1..], id);
      if r.Some? then
        ghost var k :| 0 <= k < |cs[1..]| && cs[1..][k] == r.value && r.value.id == id &&
                       forall j :: 0 <= j < k ==> cs[1..][j].id != id;
        assert cs[k + 1] == r.value;
        r
      else
        assert forall i :: 1 <= i < |cs| ==> cs[i].id == cs[1..][i - 1].id;
        r
  }

  /** The client shown in the detail card; no selection shows none. */
  function SelectedClient(cs: seq<Client>, selected: Option<int>): (r: Option<Client>)
    ensures selected.None? ==> r.None?
    ensures r.Some? ==> r.value in cs && r.value.id == selected.value
    ensures selected.Some? && (exists i :: 0 <= i < |cs| && cs[i].id == selected.value) ==> r.Some?
  {
    if selected.None? then None else FindById(cs, selected.value)
  }

  // ---------------------------------------------------------------------------
  // Properties of the transformations

  /** A roster without the id is returned as it was, by either transformation. */
  lemma UnknownIdIsNoOp(cs: seq<Client>, id: int, timestamp: string, location: Option<Geolocation>, p: VisitPatch)
    requires forall i :: 0 <= i < |cs| ==> cs[i].id != id
    ensures MarkVisited(cs, id, timestamp, location) == cs
    ensures UpdateVisit(cs, id, p) == cs
  {
  }

  /** Marking a client twice is marking it once: the second call finds the visit
      and keeps it, timestamp and location included. */
  lemma MarkVisitedIdempotent(cs: seq<Client>, id: int, t1: string, l1: Option<Geolocation>, t2: string, l2: Option<Geolocation>)
    ensures MarkVisited(MarkVisited(cs, id, t1, l1), id, t2, l2) == MarkVisited(cs, id, t1, l1)
  {
  }

  /** Updating a client that has no visit (or is absent) changes nothing. */
  lemma UpdateUnvisitedIsNoOp(cs: seq<Client>, id: int, p: VisitPatch)
    requires forall i :: 0 <= i < |cs| && cs[i].id == id ==> !cs[i].Visited()
    ensures UpdateVisit(cs, id, p) == cs
  {
  }

  /** Pointwise lemma behind the counts: rosters of equal length that agree on
      which positions are visited have the same visited count. */
  lemma {:induction false} CountSameVisited(a: seq<Client>, b: seq<Client>)
    requires |a| == |b|
    requires forall i :: 0 <= i < |a| ==> (a[i].Visited() <==> b[i].Visited())
    ensures VisitedCount(a) == VisitedCount(b)
  {
    if a != [] {
      CountSameVisited(a[1..], b[1..]);
    }
  }

  /** ... and if they agree everywhere but at one position that only `b` has
      visited, `b` has one more. */
  lemma {:induction false} CountOneMore(a: seq<Client>, b: seq<Client>, k: int)
    requires |a| == |b| && 0 <= k < |a|
    requires !a[k].Visited() && b[k].Visited()
    requires forall i :: 0 <= i < |a| && i != k ==> (a[i].Visited() <==> b[i].Visited())
    ensures VisitedCount(b) == VisitedCount(a) + 1
  {
    if k == 0 {
      CountSameVisited(a[1..], b[1..]);
    } else {
      CountOneMore(a[1..], b[1..], k - 1);
    }
  }

  /** Updating a visit never changes the visited count. */
  lemma UpdateVisitKeepsCount(cs: seq<Client>, id: int, p: VisitPatch)
    ensures VisitedCount(UpdateVisit(cs, id, p)) == VisitedCount(cs)
  {
    CountSameVisited(cs, UpdateVisit(cs, id, p));
  }

  /** Rosters of equal length where every visited position of `a` is also
      visited in `b`: `b` has at least as many visited clients. */
  lemma {:induction false} CountGrows(a: seq<Client>, b: seq<Client>)
    requires |a| == |b|
    requires forall i :: 0 <= i < |a| ==> a[i].Visited() ==> b[i].Visited()
    ensures VisitedCount(a) <= VisitedCount(b)
  {
    if a != [] {
      CountGrows(a[1..], b[1..]);
    }
  }

  /** Marking never lowers the visited count, whatever the ids. */
  lemma MarkVisitedNeverLowers(cs: seq<Client>, id: int, timestamp: string, location: Option<Geolocation>)
    ensures VisitedCount(cs) <= VisitedCount(MarkVisited(cs, id, timestamp, location))
  {
    CountGrows(cs, MarkVisited(cs, id, timestamp, location));
  }

  /** In a roster with unique ids, marking raises the visited count by one when
      the client exists and was unvisited, and leaves it unchanged otherwise. */
  lemma MarkVisitedCount(cs: seq<Client>, id: int, timestamp: string, location: Option<Geolocation>)
    requires UniqueIds(cs)
    ensures VisitedCount(MarkVisited(cs, id, timestamp, location)) ==
            VisitedCount(cs) + (if exists k :: 0 <= k < |cs| && cs[k].id == id && !cs[k].Visited() then 1 else 0)
  {
    var r := MarkVisited(cs, id, timestamp, location);
    if k :| 0 <= k < |cs| && cs[k].id == id && !cs[k].Visited() {
      CountOneMore(cs, r, k);
    } else {
      CountSameVisited(cs, r);
    }
  }

  /** The default roster has unique, sequential ids, no visits, and as many
      clients as names. */
  lemma DefaultRosterFresh(names: seq<string>)
    ensures UniqueIds(DefaultRoster(names))
    ensures Ids(DefaultRoster(names)) == seq(|names|, i => i + 1)
    ensures Names(DefaultRoster(names)) == names
    ensures VisitedCount(DefaultRoster(names)) == 0
    ensures TotalCount(DefaultRoster(names)) == |names|
  {
  }

  // ---------------------------------------------------------------------------
  // Sequences of visit operations

  /** One user action on the roster between resets. */
  datatype Action =
    | Mark(id: int, timestamp: string, location: Option<Geolocation>)
    | Update(id: int, patch: VisitPatch)

  function Apply(cs: seq<Client>, a: Action): (r: seq<Client>)
    ensures SameShape(r, cs)
  {
    match a
    case Mark(id, t, l) => MarkVisited(cs, id, t, l)
    case Update(id, p) => UpdateVisit(cs, id, p)
  }

  /** The roster after a sequence of actions, applied in order. */
  function Replay(cs: seq<Client>, acts: seq<Action>): (r: seq<Client>)
    ensures SameShape(r, cs)
    decreases |acts|
  {
    if acts == [] then cs else Replay(Apply(cs, acts[0]), acts[1..])
  }

  /** Whether every update in a sequence sends only status or note changes, as the client card does. */
  predicate SafeActions(acts: seq<Action>)
  {
    forall i :: 0 <= i < |acts| && acts[i].Update? ==> Safe(acts[i].patch)
  }

  /** Once a client has a visit it keeps one, and as long as the updates are
      safe its timestamp and location stay what they were at creation. */
  lemma {:induction false} VisitFrozen(cs: seq<Client>, acts: seq<Action>, i: int)
    requires 0 <= i < |cs| && cs[i].Visited()
    requires SafeActions(acts)
    ensures |Replay(cs, acts)| == |cs|
    ensures Replay(cs, acts)[i].Visited()
    ensures Replay(cs, acts)[i].visit.value.timestamp == cs[i].visit.value.timestamp
    ensures Replay(cs, acts)[i].visit.value.location == cs[i].visit.value.location
    decreases |acts|
  {
    if acts != [] {
      var next := Apply(cs, acts[0]);
      if acts[0].Update? {
        MergeOverrides(cs[i].visit.value, acts[0].patch, acts[0].patch);
      }
      assert SafeActions(acts[1..]) by {
        forall j | 0 <= j < |acts[1..]| && acts[1..][j].Update?
          ensures Safe(acts[1..][j].patch)
        {
          assert acts[1..][j] == acts[j + 1];
        }
      }
      VisitFrozen(next, acts[1..], i);
    }
  }

  /** The visited count never goes down while visits are marked and updated,
      duplicate ids or not. */
  lemma {:induction false} ReplayCountMonotone(cs: seq<Client>, acts: seq<Action>)
    ensures VisitedCount(cs) <= VisitedCount(Replay(cs, acts))
    decreases |acts|
  {
    if acts != [] {
      var next := Apply(cs, acts[0]);
      match acts[0] {
        case Mark(id, t, l) => MarkVisitedNeverLowers(cs, id, t, l);
        case Update(id, p) => UpdateVisitKeepsCount(cs, id, p);
      }
      ReplayCountMonotone(next, acts[1..]);
    }
  }
}
