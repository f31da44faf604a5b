/** Concurrent CreateIncident calls: each reads the clock, takes a number from the
    atomic counter, and only then stores the incident under the lock. */
module IncidentCreation {
  import opened Text
  import opened IncidentStore

  datatype Creator =
    | Starting(req: CreateRequest)
    | Clocked(req: CreateRequest, nanos: int)
    | Numbered(req: CreateRequest, id: string)
    | Stored(req: CreateRequest, id: string)

  datatype Machine = Machine(counter: nat, incidents: map<string, Incident>, creators: seq<Creator>)

  datatype Move =
    | Begin(req: CreateRequest)
    | ReadClock(creator: nat, nanos: int)
    | TakeNumber(creator: nat)
    | StoreIncident(creator: nat)

  const Fresh := Machine(0, map[], [])

  function Next(m: Machine, move: Move): Machine {
    match move
    case Begin(req) => m.(creators := m.creators + [Starting(req)])
    case ReadClock(i, nanos) =>
      if i < |m.creators| && m.creators[i].Starting?
      then m.(creators := m.creators[i := Clocked(m.creators[i].req, nanos)]) else m
    case TakeNumber(i) =>
      if i < |m.creators| && m.creators[i].Clocked? then
        var c := m.creators[i];
        var n := Increment(m.counter);
        m.(counter := n, creators := m.creators[i := Numbered(c.req, IncidentId(c.nanos, n))])
      else m
    case StoreIncident(i) =>
      if i < |m.creators| && m.creators[i].Numbered? then
        var c := m.creators[i];
        m.(incidents := m.incidents[c.id := NewIncident(c.req)], creators := m.creators[i := Stored(c.req, c.id)])
      else m
  }

  function Run(m: Machine, moves: seq<Move>): Machine
    decreases |moves|
  {
    if moves == [] then m else Next(Run(m, moves[..|moves| - 1]), moves[|moves| - 1])
  }

  predicate HasId(c: Creator) {
    c.Numbered? || c.Stored?
  }

  predicate StoredBySomeone(creators: seq<Creator>, id: string) {
    exists i | 0 <= i < |creators| :: creators[i].Stored? && creators[i].id == id
  }

  ghost predicate AllIssued(creators: seq<Creator>, counter: nat) {
    forall i | 0 <= i < |creators| && HasId(creators[i]) :: IssuedId(creators[i].id, counter)
  }

  ghost predicate Inv(m: Machine) {
    AllIssued(m.creators, m.counter) && Sound(m)
  }

  /** Ids are apart, and the map holds exactly what the finished creates stored. */
  predicate Sound(m: Machine) {
    && (forall i, j | 0 <= i < j < |m.creators| && HasId(m.creators[i]) && HasId(m.creators[j]) ::
          m.creators[i].id != m.creators[j].id)
    && (forall i | 0 <= i < |m.creators| && m.creators[i].Stored? ::
          m.creators[i].id in m.incidents && m.incidents[m.creators[i].id] == NewIncident(m.creators[i].req))
    && (forall i | 0 <= i < |m.creators| && m.creators[i].Numbered? :: m.creators[i].id !in m.incidents)
    && (forall id | id in m.incidents :: StoredBySomeone(m.creators, id))
  }

  lemma StillStored(creators: seq<Creator>, later: seq<Creator>, id: string)
    requires StoredBySomeone(creators, id) && |creators| <= |later|
    requires forall i | 0 <= i < |creators| && creators[i].Stored? :: later[i] == creators[i]
    ensures StoredBySomeone(later, id)
  {
    var i :| 0 <= i < |creators| && creators[i].Stored? && creators[i].id == id;
    assert later[i].Stored? && later[i].id == id;
  }

  lemma StepStaysInv(m: Machine, move: Move)
    requires Inv(m) && m.counter + 1 < TWO_TO_64
    ensures Inv(Next(m, move)) && Next(m, move).counter <= m.counter + 1
    ensures forall id | id in m.incidents ::
              id in Next(m, move).incidents && Next(m, move).incidents[id] == m.incidents[id]
  {
    match move {
      case TakeNumber(i) =>
        if i < |m.creators| && m.creators[i].Clocked? { TakeNumberStaysInv(m, i); }
      case StoreIncident(i) =>
        if i < |m.creators| && m.creators[i].Numbered? { StoreStaysInv(m, i); }
      case Begin(req) => AppendStaysInv(m, req);
      case ReadClock(i, nanos) =>
        if i < |m.creators| && m.creators[i].Starting? { ClockStaysInv(m, i, nanos); }
    }
  }

  lemma AppendStaysInv(m: Machine, req: CreateRequest)
    requires Inv(m)
    ensures Inv(Next(m, Begin(req)))
  {
    AppendStaysSound(m, req);
    IssuedStay(m.creators, m.creators + [Starting(req)], m.counter, m.counter);
  }

  lemma AppendStaysSound(m: Machine, req: CreateRequest)
    requires Sound(m)
    ensures Sound(Next(m, Begin(req)))
  {
    forall id | id in m.incidents ensures StoredBySomeone(m.creators + [Starting(req)], id) {
      StillStored(m.creators, m.creators + [Starting(req)], id);
    }
  }

  /** Creators that hold an id hold one they held before. */
  lemma IssuedStay(creators: seq<Creator>, later: seq<Creator>, m: nat, n: nat)
    requires AllIssued(creators, m) && m <= n && |creators| <= |later|
    requires forall i | 0 <= i < |later| && HasId(later[i]) ::
               i < |creators| && HasId(creators[i]) && later[i].id == creators[i].id
    ensures AllIssued(later, n)
  {
    forall i | 0 <= i < |later| && HasId(later[i]) ensures IssuedId(later[i].id, n) {
      IssuedIdStays(creators[i].id, m, n);
    }
  }

  lemma ClockStaysInv(m: Machine, i: nat, nanos: int)
    requires Inv(m) && i < |m.creators| && m.creators[i].Starting?
    ensures Inv(Next(m, ReadClock(i, nanos)))
  {
    ClockStaysSound(m, i, nanos);
    IssuedStay(m.creators, Next(m, ReadClock(i, nanos)).creators, m.counter, m.counter);
  }

  lemma ClockStaysSound(m: Machine, i: nat, nanos: int)
    requires Sound(m) && i < |m.creators| && m.creators[i].Starting?
    ensures Sound(Next(m, ReadClock(i, nanos)))
  {
    var m' := Next(m, ReadClock(i, nanos));
    forall id | id in m.incidents ensures StoredBySomeone(m'.creators, id) {
      StillStored(m.creators, m'.creators, id);
    }
  }

  lemma StoreStaysInv(m: Machine, i: nat)
    requires Inv(m) && i < |m.creators| && m.creators[i].Numbered?
    ensures Inv(Next(m, StoreIncident(i)))
    ensures m.creators[i].id !in m.incidents
  {
    StoreStaysSound(m, i);
    IssuedStay(m.creators, Next(m, StoreIncident(i)).creators, m.counter, m.counter);
  }

  lemma StoreStaysSound(m: Machine, i: nat)
    requires Sound(m) && i < |m.creators| && m.creators[i].Numbered?
    ensures Sound(Next(m, StoreIncident(i)))
    ensures m.creators[i].id !in m.incidents
  {
    var m' := Next(m, StoreIncident(i));
    forall id | id in m'.incidents ensures StoredBySomeone(m'.creators, id) {
      if id == m.creators[i].id {
        assert m'.creators[i].Stored? && m'.creators[i].id == id;
      } else {
        StillStored(m.creators, m'.creators, id);
      }
    }
  }

  lemma OldIdIsApart(earlier: string, counter: nat, nanos: int, id: string)
    requires IssuedId(earlier, counter) && id == IncidentId(nanos, counter + 1)
    ensures earlier != id
  {
    if earlier == id { NextNumberNotIssued(id, counter, nanos); }
  }

  lemma NewIdIsApart(creators: seq<Creator>, counter: nat, nanos: int, id: string)
    requires AllIssued(creators, counter) && id == IncidentId(nanos, counter + 1)
    ensures forall j | 0 <= j < |creators| && HasId(creators[j]) :: creators[j].id != id
  {
    forall j | 0 <= j < |creators| && HasId(creators[j]) ensures creators[j].id != id {
      OldIdIsApart(creators[j].id, counter, nanos, id);
    }
  }

  lemma FreshIdStaysIssued(creators: seq<Creator>, i: nat, req: CreateRequest, id: string, m: nat, n: nat)
    requires AllIssued(creators, m) && m <= n && i < |creators| && IssuedId(id, n)
    ensures AllIssued(creators[i := Numbered(req, id)], n)
  {
    var later := creators[i := Numbered(req, id)];
    forall j | 0 <= j < |later| && HasId(later[j]) ensures IssuedId(later[j].id, n) {
      if j != i { IssuedIdStays(creators[j].id, m, n); }
    }
  }

  lemma FreshIdStaysSound(m: Machine, i: nat, id: string, n: nat)
    requires Sound(m) && i < |m.creators| && m.creators[i].Clocked?
    requires forall j | 0 <= j < |m.creators| && HasId(m.creators[j]) :: m.creators[j].id != id
    ensures Sound(m.(counter := n, creators := m.creators[i := Numbered(m.creators[i].req, id)]))
  {
    var creators' := m.creators[i := Numbered(m.creators[i].req, id)];
    forall k | k in m.incidents ensures k != id && StoredBySomeone(creators', k) {
      var j :| 0 <= j < |m.creators| && m.creators[j].Stored? && m.creators[j].id == k;
      StillStored(m.creators, creators', k);
    }
  }

  lemma TakeNumberStaysInv(m: Machine, i: nat)
    requires Inv(m) && m.counter + 1 < TWO_TO_64 && i < |m.creators| && m.creators[i].Clocked?
    ensures Inv(Next(m, TakeNumber(i)))
  {
    var c := m.creators[i];
    var id := IncidentId(c.nanos, m.counter + 1);
    NewIdIssued(c.nanos, m.counter + 1);
    NewIdIsApart(m.creators, m.counter, c.nanos, id);
    FreshIdStaysSound(m, i, id, m.counter + 1);
    FreshIdStaysIssued(m.creators, i, c.req, id, m.counter, m.counter + 1);
  }

  /** Whatever the clock shows and however the creates interleave, no two of fewer
      than 2^64 creates get the same id, and what a create stored stays stored as it
      was: no create overwrites another. */
  lemma {:induction false} CreatesNeverCollide(moves: seq<Move>)
    requires |moves| < TWO_TO_64
    ensures var m := Run(Fresh, moves); Inv(m) && m.counter <= |moves|
    decreases |moves|
  {
    if moves != [] {
      CreatesNeverCollide(moves[..|moves| - 1]);
      StepStaysInv(Run(Fresh, moves[..|moves| - 1]), moves[|moves| - 1]);
    }
  }

  /** The same, read off: distinct ids, and each finished create finds its own
      incident under its id. */
  lemma FinishedCreatesKeepTheirIncident(moves: seq<Move>, i: nat, j: nat)
    requires |moves| < TWO_TO_64
    requires var cs := Run(Fresh, moves).creators; i < j < |cs| && cs[i].Stored? && cs[j].Stored?
    ensures var m := Run(Fresh, moves);
            && m.creators[i].id != m.creators[j].id
            && m.creators[i].id in m.incidents && m.incidents[m.creators[i].id] == NewIncident(m.creators[i].req)
            && m.creators[j].id in m.incidents && m.incidents[m.creators[j].id] == NewIncident(m.creators[j].req)
  {
    CreatesNeverCollide(moves);
  }
}
