/** Removing one database this run created, and finding out what became of an unconfirmed
    CREATE (postgres/database.py). */
module Cleanup {
  import opened Wrappers
  import opened Server
  import opened Cancellation
  import opened Cluster

  datatype Status = Removed | AlreadyAbsent | NotRemoved | OwnershipUnverified | ResultUnknown
  {
    predicate Done() { Removed? || AlreadyAbsent? }
  }

  /** The database `o` is under no name. */
  ghost predicate Absent(s: ServerState, o: Oid) {
    forall n :: n in s.catalog ==> s.catalog[n].oid != o
  }

  /** Once gone, gone: OIDs are not reused. */
  lemma AbsentStays(s: ServerState, t: ServerState, o: Oid, c: Option<Client>)
    requires Consistent(s) && o in s.home && Absent(s, o) && Moves(s, t, c)
    ensures Absent(t, o) && o in t.home
  {
  }

  lemma AbsentByName(s: ServerState, o: Oid)
    requires Consistent(s) && o in s.home
    requires s.home[o] !in s.catalog || s.catalog[s.home[o]].oid != o
    ensures Absent(s, o)
  {
  }

  /** Between two states of a protected section: nothing raised. */
  ghost predicate Quiet(c: Control, d: Control) {
    && Signals(c, d, false) && (c.requested.None? ==> d.delivered == c.delivered)
  }

  /** What one removal may add to the history: the database asked for, as it was checked. */
  ghost predicate DropsOnly(s: ServerState, t: ServerState, o: Oid, owner: Owner, c: Client) {
    && (forall p :: p in t.dropped && p !in s.dropped && p !in s.dropping ==>
         p == o && t.dropped[p].oid == o && t.dropped[p].owner == owner && t.dropped[p].marker == Of(c))
    && (forall p :: p in t.dropping && p !in s.dropping ==>
         p == o && t.dropping[p].oid == o && t.dropping[p].owner == owner && t.dropping[p].marker == Of(c))
  }

  lemma DropsOnlyChecked(base: ServerState, checked: ServerState, mid: ServerState, end: ServerState, e: Entry,
                         c: Client)
    requires Drops(base, checked, None) && Drops(mid, end, None) && e.marker == Of(c)
    requires mid.dropped == checked.dropped || mid.dropped == checked.dropped[e.oid := e]
    requires || mid.dropping == checked.dropping[e.oid := e] || mid.dropping == checked.dropping
             || mid.dropping == checked.dropping - {e.oid}
    ensures DropsOnly(base, end, e.oid, e.owner, c)
  {
    forall p | p in end.dropping && p !in base.dropping ensures p == e.oid && end.dropping[p] == e {
      assert p in mid.dropping && !(p in checked.dropping && p !in base.dropping);
    }
    forall p | p in end.dropped && p !in base.dropped && p !in base.dropping
      ensures p == e.oid && end.dropped[p] == e
    {
      assert p in mid.dropped ==> end.dropped[p] == mid.dropped[p];
      assert p !in checked.dropped && p !in checked.dropping;
    }
  }

  /** A turn of the environment inside a protected section. */
  method Wait(pg: Postgres, ghost base: ServerState, ghost before: Control, ghost c: Option<Client>)
    requires pg.Valid() && pg.control.protectedDepth > 0
    requires Moves(base, pg.s, c) && Quiet(before, pg.control.State())
    modifies pg`s, pg`now, pg`looks, pg.control
    ensures pg.Valid() && Moves(base, pg.s, c) && Moves(old(pg.s), pg.s, None)
    ensures Quiet(before, pg.control.State())
    ensures pg.control.protectedDepth == old(pg.control.protectedDepth)
    ensures pg.calm ==> pg.s == old(pg.s) && pg.control.State() == old(pg.control.State())
  {
    hide Consistent, SafeDrops, Grows, Settles, Drops, Droppable;
    var raised := pg.Turn();
    MovesAlone(old(pg.s), pg.s, c);
    MovesTransitive(base, old(pg.s), pg.s, c);
  }

  lemma NoDrops(s: ServerState, t: ServerState, o: Oid, owner: Owner, c: Client)
    requires Moves(s, t, None)
    ensures DropsOnly(s, t, o, owner, c) && Moves(s, t, Some(c))
    ensures forall p :: p in t.dropped && p !in s.dropped ==> p in s.dropping
  {
    MovesAlone(s, t, Some(c));
    hide Grows, Settles;
  }

  lemma HomeStays(s: ServerState, t: ServerState, o: Oid)
    requires o in s.home && Creationless(s, t)
    ensures o in t.home && t.home[o] == s.home[o]
  {
    hide Settles;
  }

  lemma StillDroppable(s: ServerState, t: ServerState, o: Oid, e: Entry, c: Client)
    requires Moves(s, t, None) && o in s.home && s.home[o] in s.issuedTo && s.issuedTo[s.home[o]] == c
    requires Identified(o, e.owner) in s.recorded && e.oid == o && e.marker == Of(c)
    ensures Droppable(t, o, e) && o in t.home && t.home[o] == s.home[o]
    ensures t.home[o] in t.issuedTo && t.issuedTo[t.home[o]] == c
  {
    hide Settles, Drops;
  }

  /** The identity an entry must show to be dropped: OID, owner, marker. */
  type Proof = (Oid, Owner, Marker)

  function OwnedEntry(oid: Oid, owner: Owner, c: Client): Proof {
    (oid, owner, Of(c))
  }

  function Shown(e: Entry): Proof {
    (e.oid, e.owner, e.marker)
  }

  /** What a removal comes to when nothing goes wrong: exactly the recorded database is removed. */
  ghost predicate Removes(s: ServerState, t: ServerState, n: Name, id: Proof, r: Status) {
    if n !in s.catalog then r.AlreadyAbsent? && t == s
    else if Shown(s.catalog[n]) == id then r.Removed? && t == Gone(s, n, s.catalog[n])
    else r.OwnershipUnverified? && t == s
  }

  // ---- what a status means ----

  /** The shutdown budget is used up. */
  predicate Late(deadline: Option<real>, now: real) {
    deadline.Some? && deadline.value <= now
  }

  /** The entry read is the one to drop: its OID, owner and marker. */
  predicate Matching(x: Sight, n: Name, oid: Oid, owner: Owner, c: Client) {
    && x.NameRead? && x.name == n && x.entry.Some?
    && x.entry.value.oid == oid && x.entry.value.owner == owner && x.entry.value.marker == Of(c)
  }

  /** The catalog was read, and the database was or was not there. */
  predicate SeenThere(x: Sight, n: Name, oid: Oid, there: bool) {
    x.NameRead? && x.name == n && (there <==> x.entry.Some? && x.entry.value.oid == oid)
  }

  /** The DROP was sent, and came back with nothing but `fault`. */
  predicate DropFailed(met: seq<Sight>, n: Name, oid: Oid, owner: Owner, c: Client, fault: Fault) {
    |met| == 3 && Matching(met[0], n, oid, owner, c) && met[1] == DropSent(n, Some(fault))
  }

  /** What the call met for each status: nothing if it came too late; one failure or one reading
      before the DROP; or the matching reading, the DROP, and after a fault one more reading. */
  ghost predicate Met(late: bool, met: seq<Sight>, n: Name, oid: Oid, owner: Owner, c: Client, r: Status) {
    match r
    case AlreadyAbsent =>
      !late && |met| == 1 && met[0].NameRead? && met[0].name == n && met[0].entry == None
    case OwnershipUnverified =>
      !late && |met| == 1 && met[0].NameRead? && met[0].name == n && met[0].entry != None
      && !Matching(met[0], n, oid, owner, c)
    case NotRemoved =>
      !late && (|| met == [SessionFailed(SqlState)] || met == [ReadFailed(n, SqlState)]
                || (DropFailed(met, n, oid, owner, c, SqlState) && SeenThere(met[2], n, oid, true)))
    case Removed =>
      !late && (|| (|met| == 2 && Matching(met[0], n, oid, owner, c) && met[1] == DropSent(n, None))
                || ((DropFailed(met, n, oid, owner, c, SqlState) || DropFailed(met, n, oid, owner, c, Lost))
                    && SeenThere(met[2], n, oid, false)))
    case ResultUnknown =>
      if late then met == []
      else
        || met == [SessionFailed(Lost)] || met == [ReadFailed(n, Lost)]
        || ((DropFailed(met, n, oid, owner, c, SqlState) || DropFailed(met, n, oid, owner, c, Lost))
            && met[2].ReadFailed? && met[2].name == n)
        || (DropFailed(met, n, oid, owner, c, Lost) && SeenThere(met[2], n, oid, true))
  }

  /** No two statuses fit. */
  lemma OneStatus(late: bool, met: seq<Sight>, n: Name, oid: Oid, owner: Owner, c: Client, r: Status)
    requires Met(late, met, n, oid, owner, c, r)
    ensures forall q :: Met(late, met, n, oid, owner, c, q) <==> q == r
  {
  }

  /** The entries after the first `before`. */
  ghost function New(before: seq<Sight>, after: seq<Sight>): seq<Sight> {
    if before <= after then after[|before|..] else []
  }

  lemma TooLate(trail: seq<Sight>, n: Name, oid: Oid, owner: Owner, c: Client)
    ensures forall q :: q == ResultUnknown <==> Met(true, New(trail, trail), n, oid, owner, c, q)
  {
  }

  lemma NothingSent(before: seq<Sight>, after: seq<Sight>, n: Name, oid: Oid, owner: Owner, c: Client, r: Status)
    requires |after| == |before| + 1 && before <= after && Met(false, [after[|before|]], n, oid, owner, c, r)
    ensures forall q :: q == r <==> Met(false, New(before, after), n, oid, owner, c, q)
  {
    assert New(before, after) == [after[|before|]];
    OneStatus(false, New(before, after), n, oid, owner, c, r);
    hide Met;
  }

  lemma MetAfter(met: seq<Sight>, f: Fault, n: Name, oid: Oid, owner: Owner, c: Client, r: Status)
    requires DropFailed(met, n, oid, owner, c, f) && Asked(f, met[2], n, oid, r)
    ensures Met(false, met, n, oid, owner, c, r)
  {
    match f
    case SqlState =>
      assert DropFailed(met, n, oid, owner, c, SqlState);
    case Lost =>
      assert DropFailed(met, n, oid, owner, c, Lost);
  }

  lemma TailMet(before: seq<Sight>, found: seq<Sight>, after: seq<Sight>, n: Name, oid: Oid, owner: Owner, c: Client,
                r: Status)
    requires |found| == |before| + 1 && before <= found && Matching(found[|before|], n, oid, owner, c)
    requires Tail(found, after, n, oid, r)
    ensures before <= after && forall q :: q == r <==> Met(false, New(before, after), n, oid, owner, c, q)
  {
    var m := found[|before|];
    assert found == before + [m];
    if r.Removed? && after == found + [DropSent(n, None)] {
      assert New(before, after) == [m, DropSent(n, None)];
    } else {
      var f: Fault, x :| after == found + [DropSent(n, Some(f)), x] && Asked(f, x, n, oid, r);
      ghost var met := New(before, after);
      assert met == [m, DropSent(n, Some(f)), x];
      assert DropFailed(met, n, oid, owner, c, f) && met[2] == x;
      MetAfter(met, f, n, oid, owner, c, r);
    }
    OneStatus(false, New(before, after), n, oid, owner, c, r);
  }

  /** `drop_owned_database`. Callers hold a protected section. The catalog check and the DROP
      have no foreign step between them. */
  method DropOwnedDatabase(pg: Postgres, n: Name, oid: Oid, owner: Owner, c: Client) returns (r: Status)
    requires pg.Valid() && pg.control.protectedDepth > 0
    requires oid in pg.s.home && pg.s.home[oid] == n && n in pg.s.issuedTo && pg.s.issuedTo[n] == c
    requires Identified(oid, owner) in pg.s.recorded
    modifies pg, pg.control
    ensures pg.Valid() && Moves(old(pg.s), pg.s, Some(c)) && Creationless(old(pg.s), pg.s)
    ensures Quiet(old(pg.control.State()), pg.control.State())
    ensures oid in pg.s.home && (r.Done() ==> Absent(pg.s, oid))
    ensures DropsOnly(old(pg.s), pg.s, oid, owner, c)
    ensures r.AlreadyAbsent? || r.OwnershipUnverified? ==>
      forall p :: p in pg.s.dropped && p !in old(pg.s).dropped ==> p in old(pg.s).dropping
    ensures old(pg.trail) <= pg.trail
    ensures forall q :: q == r <==>
      Met(Late(old(pg.control.deadline), old(pg.now)), New(old(pg.trail), pg.trail), n, oid, owner, c, q)
    ensures old(pg.Peaceful()) ==>
      && pg.Peaceful()
      && Removes(old(pg.s), pg.s, n, OwnedEntry(oid, owner, c), r)
  {
    hide Consistent, SafeDrops, Grows, Settles, Drops, Droppable, Absent, Met, New, Matching, Tail, Recalled;
    ghost var base, before := pg.s, pg.control.State();
    MovesRefl(base, Some(c));
    ghost var trail := pg.trail;
    if pg.control.Expired(pg.now) {
      TooLate(trail, n, oid, owner, c);
      return ResultUnknown;
    }
    var row;
    r, row := FindForDrop(pg, n, oid, owner, c);
    NoDrops(base, pg.s, oid, owner, c);
    if row.Some? {
      StillDroppable(base, pg.s, oid, row.value, c);
      ghost var found := pg.trail;
      r := DropFound(pg, n, row.value, base, before, c);
      TailMet(trail, found, pg.trail, n, oid, owner, c, r);
    } else {
      NothingSent(trail, pg.trail, n, oid, owner, c, r);
    }
    HomeStays(base, pg.s, oid);
  }

  method DropFound(pg: Postgres, n: Name, found: Entry, ghost base: ServerState, ghost before: Control, ghost c: Client)
    returns (r: Status)
    requires pg.Valid() && pg.control.protectedDepth > 0 && Consistent(base)
    requires n in pg.s.catalog && pg.s.catalog[n] == found && Droppable(pg.s, found.oid, found)
    requires found.oid in pg.s.home && pg.s.home[found.oid] == n && n in pg.s.issuedTo && pg.s.issuedTo[n] == c
    requires found.marker == Of(c)
    requires Moves(base, pg.s, None) && Quiet(before, pg.control.State())
    modifies pg, pg.control
    ensures pg.Valid() && Moves(base, pg.s, Some(c)) && Creationless(base, pg.s) && Quiet(before, pg.control.State())
    ensures r.Removed? || r.NotRemoved? || r.ResultUnknown?
    ensures r.Removed? ==> Absent(pg.s, found.oid)
    ensures Tail(old(pg.trail), pg.trail, n, found.oid, r)
    ensures DropsOnly(base, pg.s, found.oid, found.owner, c)
    ensures old(pg.Peaceful()) ==> pg.Peaceful() && r.Removed? && pg.s == Gone(old(pg.s), n, found)
  {
    hide Consistent, SafeDrops, Grows, Settles, Drops, Droppable;
    ghost var checked := pg.s;
    MovesAlone(base, checked, Some(c));
    var reply := pg.Drop(n, found, c);
    ghost var mid := pg.s;
    MovesTransitive(base, checked, mid, Some(c));
    CreationlessTransitive(base, checked, mid);
    if reply.Ok? {
      AbsentByName(pg.s, found.oid);
      MovesRefl(mid, None);
      r := Removed;
    } else {
      r := AfterLostDrop(pg, n, found.oid, reply.fault, base, before, c);
    }
    CreationlessTransitive(base, mid, pg.s);
    DropsOnlyChecked(base, checked, mid, pg.s, found, c);
  }

  /** The catalog check before the DROP: the entry if it is the one recorded, a result if not. */
  method FindForDrop(pg: Postgres, n: Name, oid: Oid, owner: Owner, c: Client)
    returns (r: Status, row: Option<Entry>)
    requires pg.Valid() && pg.control.protectedDepth > 0
    requires oid in pg.s.home && pg.s.home[oid] == n
    modifies pg, pg.control
    ensures pg.Valid() && Moves(old(pg.s), pg.s, None) && Quiet(old(pg.control.State()), pg.control.State())
    ensures row.Some? ==>
      && n in pg.s.catalog && pg.s.catalog[n] == row.value
      && (row.value.oid, row.value.owner, row.value.marker) == (oid, owner, Of(c))
    ensures row.None? && r.Done() ==> Absent(pg.s, oid)
    ensures |pg.trail| == |old(pg.trail)| + 1 && old(pg.trail) <= pg.trail
    ensures row.None? ==> Met(false, [pg.trail[|old(pg.trail)|]], n, oid, owner, c, r)
    ensures row.Some? ==> Matching(pg.trail[|old(pg.trail)|], n, oid, owner, c)
    ensures old(pg.Peaceful()) ==>
      && pg.Peaceful() && pg.s == old(pg.s)
      && (row.None? ==> Removes(pg.s, pg.s, n, OwnedEntry(oid, owner, c), r))
  {
    hide Consistent, SafeDrops, Settles, Drops, Droppable, Absent, Recalled;
    ghost var base, before := pg.s, pg.control.State();
    MovesRefl(base, None);
    row := None;
    Wait(pg, base, before, None);
    var ready := pg.Prepare();
    if ready.Failed? {
      return if ready.fault.Lost? then ResultUnknown else NotRemoved, None;
    }
    Wait(pg, base, before, None);
    var reply := pg.Identify(n);
    if reply.Failed? {
      return if reply.fault.Lost? then ResultUnknown else NotRemoved, None;
    }
    if reply.value.None? {
      AbsentByName(pg.s, oid);
      return AlreadyAbsent, None;
    }
    var found := reply.value.value;
    if (found.oid, found.owner, found.marker) != (oid, owner, Of(c)) {
      return OwnershipUnverified, None;
    }
    return ResultUnknown, Some(found);
  }

  /** From the DROP on: its confirmation, or a fault and one more reading. */
  ghost predicate Tail(before: seq<Sight>, after: seq<Sight>, n: Name, oid: Oid, r: Status) {
    || (r.Removed? && after == before + [DropSent(n, None)])
    || exists f: Fault, x :: after == before + [DropSent(n, Some(f)), x] && Asked(f, x, n, oid, r)
  }

  /** What the reading after a fault tells. */
  ghost predicate Asked(f: Fault, x: Sight, n: Name, oid: Oid, r: Status) {
    || (r.Removed? && SeenThere(x, n, oid, false))
    || (r.NotRemoved? && SeenThere(x, n, oid, true) && f.SqlState?)
    || (r.ResultUnknown? && SeenThere(x, n, oid, true) && f.Lost?)
    || (r.ResultUnknown? && x.ReadFailed? && x.name == n)
  }

  /** The DROP raised an error: ask the catalog. */
  method AfterLostDrop(pg: Postgres, n: Name, oid: Oid, fault: Fault,
                       ghost base: ServerState, ghost before: Control, ghost c: Client)
    returns (r: Status)
    requires pg.Valid() && pg.control.protectedDepth > 0 && oid in pg.s.home && pg.s.home[oid] == n
    requires Consistent(base) && Moves(base, pg.s, Some(c)) && Quiet(before, pg.control.State())
    modifies pg, pg.control
    ensures pg.Valid() && Moves(base, pg.s, Some(c)) && Moves(old(pg.s), pg.s, None)
    ensures Quiet(before, pg.control.State())
    ensures r.Removed? || r.NotRemoved? || r.ResultUnknown?
    ensures r.Removed? ==> Absent(pg.s, oid)
    ensures exists x :: pg.trail == old(pg.trail) + [x] && Asked(fault, x, n, oid, r)
    ensures r.NotRemoved? ==> fault.SqlState? && n in pg.s.catalog && pg.s.catalog[n].oid == oid
    ensures pg.calm ==>
      && (r.Removed? <==> !(n in pg.s.catalog && pg.s.catalog[n].oid == oid))
      && (!r.Removed? ==> (r.NotRemoved? <==> fault.SqlState?))
  {
    hide Consistent, SafeDrops, Settles, Drops, Droppable, Absent;
    Wait(pg, base, before, Some(c));
    var row := pg.Identify(n);
    if row.Failed? {
      return ResultUnknown;
    }
    if row.value.None? || row.value.value.oid != oid {
      AbsentByName(pg.s, oid);
      return Removed;
    }
    return if fault.SqlState? then NotRemoved else ResultUnknown;
  }

  /** `settle_unproven_create`: cancel the creating session, then look. `Some(false)` means
      the database is not there and can no longer appear. */
  method SettleUnprovenCreate(pg: Postgres, n: Name) returns (r: Option<bool>)
    requires pg.Valid() && pg.control.protectedDepth > 0
    modifies pg, pg.control
    ensures pg.Valid() && Moves(old(pg.s), pg.s, None) && Quiet(old(pg.control.State()), pg.control.State())
    ensures r == Some(false) ==> n !in pg.s.running && n !in pg.s.catalog
    ensures r.Some? ==> exists e, next :: pg.trail == old(pg.trail) + [NameRead(n, e, next)] && r.value == e.Some?
    ensures r.None? ==> old(pg.trail) <= pg.trail && forall x :: x in New(old(pg.trail), pg.trail) ==> !x.NameRead?
    ensures old(pg.Peaceful()) ==>
      && pg.Peaceful() && r == Some(n in pg.s.catalog)
      && pg.s == old(pg.s).(running := old(pg.s).running - {n})
  {
    hide Consistent, SafeDrops, Grows, Drops, Droppable, Recalled;
    ghost var base, before := pg.s, pg.control.State();
    MovesRefl(base, None);
    var ready := pg.Prepare();
    if ready.Failed? {
      return None;
    }
    var tries: nat := *;  // how often the loop gets round before `give_up`
    if pg.calm {
      tries := 1;
    }
    while true
      invariant pg.Valid() && pg.control.protectedDepth == old(pg.control.protectedDepth) && pg.trail == old(pg.trail)
      invariant Moves(base, pg.s, None) && Quiet(before, pg.control.State())
      invariant old(pg.Peaceful()) ==>
        && pg.Peaceful()
        && if tries == 1 then pg.s == base else tries == 0 && pg.s == base.(running := base.running - {n})
      decreases tries
    {
      Wait(pg, base, before, None);
      var pids := pg.CreatorSessions(n);
      if pids.Failed? {
        return None;
      }
      if !pids.value {
        break;
      }
      ghost var listed := pg.s;
      var cancelled := pg.CancelCreator(n);
      MovesTransitive(base, listed, pg.s, None);
      if cancelled.Failed? || tries == 0 {
        return None;
      }
      tries := tries - 1;
    }
    ghost var quiet := pg.s;
    Wait(pg, base, before, None);
    assert n !in pg.s.running;
    var row := pg.Identify(n);
    if row.Failed? {
      return None;
    }
    return Some(row.value.Some?);
  }
}
