/** The memory ledger that resident runtimes and active requests share. */
module Ledger {
  import opened Common

  datatype Budget = Budget(limit: Option<nat>, headroom: nat)

  /** The budget the owners may use, if there is a limit: together with the headroom it
      makes up the limit, unless the headroom alone does. */
  function Usable(b: Budget): (u: Option<nat>)
    ensures u.Some? <==> b.limit.Some?
    ensures u.Some? ==> if b.headroom <= b.limit.value then u.value + b.headroom == b.limit.value else u.value == 0
  {
    if b.limit.None? then None
    else Some(if b.limit.value <= b.headroom then 0 else b.limit.value - b.headroom)
  }

  datatype Stage = Reserved | Committed

  datatype Kind = Resident | Transient

  datatype Reservation = Reservation(id: string, requested: nat, accounted: nat, stage: Stage, kind: Kind)

  type Book = map<string, Reservation>

  datatype Decision = Admit | Reject | Unknown

  datatype Admission = Admission(decision: Decision, requested: nat, committed: nat, reserved: nat, usable: Option<nat>)

  datatype Outcome = BadArgument | Duplicate | Missing | Answer(admission: Admission) | Removed(found: bool)

  // ---- Sums ----------------------------------------------------------------

  datatype Part = Everything | Only(stage: Stage)

  function Weight(r: Reservation, part: Part): nat {
    if part.Everything? || r.stage == part.stage then r.accounted else 0
  }

  ghost function Sum(m: Book, part: Part): nat
    decreases |m.Keys|
  {
    if m.Keys == {} then 0
    else
      var k :| k in m;
      assert (m - {k}).Keys == m.Keys - {k};
      Weight(m[k], part) + Sum(m - {k}, part)
  }

  /** Any entry can be counted first. */
  lemma {:induction false} SumOf(m: Book, part: Part, k: string)
    requires k in m
    ensures Sum(m, part) == Weight(m[k], part) + Sum(m - {k}, part)
    decreases |m.Keys|
  {
    var j :| j in m && Sum(m, part) == Weight(m[j], part) + Sum(m - {j}, part);
    hide Sum, Weight;
    if j != k {
      Smaller(m, j, k);
      SumOf(m - {j}, part, k);
      SumOf(m - {k}, part, j);
    }
  }

  lemma Smaller(m: Book, j: string, k: string)
    requires j in m && k in m && j != k
    ensures |(m - {j}).Keys| < |m.Keys| && |(m - {k}).Keys| < |m.Keys|
    ensures m - {j} - {k} == m - {k} - {j} && (m - {j})[k] == m[k] && (m - {k})[j] == m[j]
  {
    assert (m - {j}).Keys == m.Keys - {j} && (m - {k}).Keys == m.Keys - {k};
  }

  lemma SumPut(m: Book, part: Part, k: string, r: Reservation)
    ensures Sum(m[k := r], part) == Weight(r, part) + Sum(m - {k}, part)
  {
    SumOf(m[k := r], part, k);
    assert m[k := r] - {k} == m - {k};
  }

  /** Every accounted byte is either committed or reserved. */
  lemma {:induction false} SumParts(m: Book)
    ensures Sum(m, Everything) == Sum(m, Only(Committed)) + Sum(m, Only(Reserved))
    decreases |m.Keys|
  {
    if m.Keys != {} {
      var k :| k in m;
      assert (m - {k}).Keys == m.Keys - {k};
      SumParts(m - {k});
      SumOf(m, Everything, k);
      SumOf(m, Only(Committed), k);
      SumOf(m, Only(Reserved), k);
    }
  }

  // ---- Operations -------------------------------------------------------------

  ghost function Totals(b: Budget, m: Book, decision: Decision, requested: nat): Admission {
    Admission(decision, requested, Sum(m, Only(Committed)), Sum(m, Only(Reserved)), Usable(b))
  }

  ghost function Decide(b: Budget, m: Book, requested: nat): Decision {
    if Usable(b).None? then Unknown
    else if Sum(m, Everything) + requested > Usable(b).value then Reject else Admit
  }

  ghost function Reserving(b: Budget, m: Book, id: string, bytes: int, kind: Kind): (Outcome, Book) {
    if Blank(id) || bytes < 0 then (BadArgument, m)
    else if id in m then (Duplicate, m)
    else
      var answer := Answer(Totals(b, m, Decide(b, m, bytes), bytes));
      (answer, if Decide(b, m, bytes) == Admit then m[id := Reservation(id, bytes, bytes, Reserved, kind)] else m)
  }

  ghost function Committing(b: Budget, m: Book, id: string, observed: Option<int>): (Outcome, Book) {
    if observed.Some? && observed.value < 0 then (BadArgument, m)
    else if id !in m then (Missing, m)
    else
      var accounted := if observed.None? then m[id].accounted else observed.value;
      var usable := Usable(b);
      if usable.Some? && Sum(m - {id}, Everything) + accounted > usable.value then
        (Answer(Totals(b, m, Reject, accounted)), m)
      else
        var next := m[id := Reservation(id, m[id].requested, accounted, Committed, m[id].kind)];
        (Answer(Totals(b, next, if usable.Some? then Admit else Unknown, accounted)), next)
  }

  ghost function Releasing(m: Book, id: string): (Outcome, Book) {
    (Removed(id in m), m - {id})
  }

  datatype Op =
    | DoReserve(id: string, bytes: int, kind: Kind)
    | DoCommit(id: string, observed: Option<int>)
    | DoRelease(id: string)

  ghost function Apply(b: Budget, m: Book, op: Op): (Outcome, Book) {
    match op
    case DoReserve(id, bytes, kind) => Reserving(b, m, id, bytes, kind)
    case DoCommit(id, observed) => Committing(b, m, id, observed)
    case DoRelease(id) => Releasing(m, id)
  }

  ghost function Run(b: Budget, ops: seq<Op>): Book {
    if ops == [] then map[] else Apply(b, Run(b, ops[..|ops| - 1]), ops[|ops| - 1]).1
  }

  // ---- Safety over whole runs ----------------------------------------------------

  /** With a limit the accounts fit the usable budget; without one nothing is ever
      recorded. */
  ghost predicate Safe(b: Budget, m: Book) {
    && (forall k :: k in m ==> m[k].id == k && !Blank(k))
    && match Usable(b)
       case Some(usable) => Sum(m, Everything) <= usable
       case None => m == map[]
  }

  lemma ReserveKeeps(b: Budget, m: Book, id: string, bytes: int, kind: Kind)
    requires Safe(b, m)
    ensures Safe(b, Reserving(b, m, id, bytes, kind).1)
  {
    hide Blank;
    if Reserving(b, m, id, bytes, kind).1 != m {
      SumPut(m, Everything, id, Reservation(id, bytes, bytes, Reserved, kind));
      assert m - {id} == m;
    }
  }

  lemma CommitKeeps(b: Budget, m: Book, id: string, observed: Option<int>)
    requires Safe(b, m)
    ensures Safe(b, Committing(b, m, id, observed).1)
  {
    hide Blank;
    var next := Committing(b, m, id, observed).1;
    if next != m {
      SumPut(m, Everything, id, next[id]);
    }
  }

  lemma ReleaseKeeps(b: Budget, m: Book, id: string)
    requires Safe(b, m)
    ensures Safe(b, Releasing(m, id).1)
  {
    hide Blank;
    if id in m {
      SumOf(m, Everything, id);
    } else {
      assert m - {id} == m;
    }
  }

  lemma EmptyIsSafe(b: Budget)
    ensures Safe(b, map[])
  {
    var none: Book := map[];
    assert none.Keys == {};
  }

  /** Whatever the owners do, together they never exceed the usable budget. */
  lemma {:induction false} RunIsSafe(b: Budget, ops: seq<Op>)
    ensures Safe(b, Run(b, ops))
  {
    hide Safe, Reserving, Committing, Releasing;
    if ops == [] {
      EmptyIsSafe(b);
    } else {
      var front, op := ops[..|ops| - 1], ops[|ops| - 1];
      RunIsSafe(b, front);
      match op
      case DoReserve(id, bytes, kind) => ReserveKeeps(b, Run(b, front), id, bytes, kind);
      case DoCommit(id, observed) => CommitKeeps(b, Run(b, front), id, observed);
      case DoRelease(id) => ReleaseKeeps(b, Run(b, front), id);
    }
  }

  /** What an answer reports: exactly the accounts, which split into committed and
      reserved bytes. A reservation reports the accounts before it is recorded, a
      commit those after. */
  lemma AnswersAddUp(b: Budget, m: Book, op: Op)
    ensures var (outcome, next) := Apply(b, m, op);
      outcome.Answer? ==>
        var a := outcome.admission;
        a.committed + a.reserved == Sum(if op.DoReserve? then m else next, Everything)
  {
    SumParts(m);
    SumParts(Apply(b, m, op).1);
  }

  /** An operation that is refused, fails or finds nothing leaves the ledger as it
      was. */
  lemma RefusalChangesNothing(b: Budget, m: Book, op: Op)
    requires var outcome := Apply(b, m, op).0;
      outcome.BadArgument? || outcome.Duplicate? || outcome.Missing? || outcome == Removed(false)
      || (outcome.Answer? && outcome.admission.decision == Reject)
    ensures Apply(b, m, op).1 == m
  {
    hide Blank, Sum;
    if op.DoRelease? {
      assert m - {op.id} == m;
    }
  }

  /** An operation touches only its own reservation, and a commit keeps what was
      requested and for whom. */
  lemma OthersUntouched(b: Budget, m: Book, op: Op)
    ensures var next := Apply(b, m, op).1;
      && next - {op.id} == m - {op.id}
      && (op.DoCommit? && op.id in m ==>
        && op.id in next && next[op.id].requested == m[op.id].requested && next[op.id].kind == m[op.id].kind)
  {
    hide Blank, Decide;
    var next := Apply(b, m, op).1;
    assert forall k :: k != op.id ==> (k in next <==> k in m) && (k in m ==> next[k] == m[k]);
  }

  /** Without a limit every reservation is answered with Unknown and every commit
      fails, over every run: the commit's own Unknown answer never occurs. */
  lemma NoLimitNothingRecorded(b: Budget, ops: seq<Op>, op: Op)
    requires b.limit.None?
    ensures Run(b, ops) == map[]
    ensures op.DoCommit? ==> !Apply(b, Run(b, ops), op).0.Answer?
    ensures op.DoReserve? && Apply(b, Run(b, ops), op).0.Answer? ==>
              Apply(b, Run(b, ops), op).0.admission.decision == Unknown
  {
    RunIsSafe(b, ops);
    hide Run, Blank, Sum;
  }

  /** Rolling back an admitted reservation restores the ledger. */
  lemma RollbackUndoesReserve(b: Budget, m: Book, id: string, bytes: int, kind: Kind)
    requires Reserving(b, m, id, bytes, kind).0.Answer?
    ensures Releasing(Reserving(b, m, id, bytes, kind).1, id).1 == m
  {
    hide Blank, Decide, Totals;
    assert m - {id} == m;
  }

  /** Room given up is room gained: what was refused for lack of room is admitted
      after a release exactly when it fits into what is then left. */
  lemma ReleaseMakesRoom(b: Budget, m: Book, id: string, other: string, bytes: nat)
    requires Safe(b, m) && Usable(b).Some? && other in m && !Blank(id) && id !in m
    ensures Reserving(b, Releasing(m, other).1, id, bytes, Resident).0.admission.decision == Admit
            <==> Sum(m, Everything) - m[other].accounted + bytes <= Usable(b).value
  {
    hide Blank, Sum;
    SumOf(m, Everything, other);
    assert Releasing(m, other).1 == m - {other} && id !in m - {other};
  }

  // ---- The manager --------------------------------------------------------------

  class ResourceManager {
    const budget: Budget
    var reservations: Book

    constructor (budget: Budget)
      ensures this.budget == budget && reservations == map[]
    {
      this.budget := budget;
      reservations := map[];
    }

    /** Adds up the accounts of one part, leaving one reservation out. */
    method Accounted(part: Part, but: Option<string>) returns (total: nat)
      ensures total == Sum(if but.Some? then reservations - {but.value} else reservations, part)
    {
      total := 0;
      ghost var m := if but.Some? then reservations - {but.value} else reservations;
      var keys := if but.Some? then reservations.Keys - {but.value} else reservations.Keys;
      ghost var rest := m;
      while keys != {}
        invariant keys == rest.Keys && (forall k :: k in rest ==> k in reservations && rest[k] == reservations[k])
        invariant total + Sum(rest, part) == Sum(m, part)
        decreases |keys|
      {
        var k :| k in keys;
        SumOf(rest, part, k);
        total := total + Weight(reservations[k], part);
        keys := keys - {k};
        rest := rest - {k};
      }
    }

    method Result(decision: Decision, requested: nat) returns (a: Admission)
      ensures a == Totals(budget, reservations, decision, requested)
    {
      var committed := Accounted(Only(Committed), None);
      var reserved := Accounted(Only(Reserved), None);
      a := Admission(decision, requested, committed, reserved, Usable(budget));
    }

    method DecisionFor(requested: nat) returns (a: Admission)
      ensures a == Totals(budget, reservations, Decide(budget, reservations, requested), requested)
    {
      var usable := Usable(budget);
      if usable.None? {
        a := Result(Unknown, requested);
        return;
      }
      var accounted := Accounted(Everything, None);
      if accounted + requested > usable.value {
        a := Result(Reject, requested);
        return;
      }
      a := Result(Admit, requested);
    }

    method Reserve(id: string, bytes: int, kind: Kind) returns (outcome: Outcome)
      modifies this
      ensures (outcome, reservations) == Reserving(budget, old(reservations), id, bytes, kind)
    {
      hide Blank;
      if Blank(id) || bytes < 0 {
        return BadArgument;
      }
      if id in reservations {
        return Duplicate;
      }
      var decision := DecisionFor(bytes);
      if decision.decision == Admit {
        reservations := reservations[id := Reservation(id, bytes, bytes, Reserved, kind)];
      }
      return Answer(decision);
    }

    method Commit(id: string, observed: Option<int>) returns (outcome: Outcome)
      modifies this
      ensures (outcome, reservations) == Committing(budget, old(reservations), id, observed)
    {
      if observed.Some? && observed.value < 0 {
        return BadArgument;
      }
      if id !in reservations {
        return Missing;
      }
      var current := reservations[id];
      var accounted := if observed.None? then current.accounted else observed.value;
      var other := Accounted(Everything, Some(id));
      var usable := Usable(budget);
      if usable.Some? && other + accounted > usable.value {
        var refused := Result(Reject, accounted);
        return Answer(refused);
      }
      reservations := reservations[id := Reservation(id, current.requested, accounted, Committed, current.kind)];
      var done := Result(if usable.Some? then Admit else Unknown, accounted);
      return Answer(done);
    }

    method Release(id: string) returns (found: bool)
      modifies this
      ensures (Removed(found), reservations) == Releasing(old(reservations), id)
    {
      found := id in reservations;
      reservations := reservations - {id};
    }
  }
}
