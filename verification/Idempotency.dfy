/** Idempotency keys under concurrent requests (`withIdempotency`, apps/server/src/idempotency.ts): the
    requests that share one organisation and key, one transaction each, in any interleaving.
    A read sees committed rows; an insert waits for another transaction's uncommitted row of the key. */
module Idempotency {
  import opened Wrappers

  datatype Reply = Reply(status: int, body: string)

  datatype Row = Row(route: string, hash: string, reply: Reply)

  datatype Phase =
    | Arrived
    | Missed // no row was found; the handler runs next
    | Ran(reply: Reply)
    | Inserted(reply: Reply) // holds the key, uncommitted
    | Raced(reply: Reply) // the insert hit the unique index
    | Replaying(reply: Reply, ran: bool)
    | Succeeded(reply: Reply, replayed: bool, ran: bool) // `ran`: its own handler's effects are committed
    | Failed // an error response; nothing committed

  datatype Request = Request(route: string, hash: string, phase: Phase)

  datatype System = System(rows: seq<Row>, requests: seq<Request>)

  datatype Move =
    | Read(i: nat)
    | Run(i: nat, outcome: Option<Reply>)
    | Insert(i: nat, ok: bool)
    | Reread(i: nat, ok: bool)
    | Commit(i: nat, ok: bool)

  predicate Initial(s: System) {
    s.rows == [] && forall i :: 0 <= i < |s.requests| ==> s.requests[i].phase.Arrived?
  }

  predicate Matches(row: Row, r: Request) {
    row.route == r.route && row.hash == r.hash
  }

  /** `replayOrReject`. */
  function Answer(row: Row, r: Request, ran: bool): Phase {
    if Matches(row, r) then Replaying(row.reply, ran) else Failed
  }

  predicate Enabled(s: System, m: Move) {
    && m.i < |s.requests|
    && match m
       case Read(i) => s.requests[i].phase.Arrived?
       case Run(i, _) => s.requests[i].phase.Missed?
       case Insert(i, _) =>
         s.requests[i].phase.Ran? && forall j :: 0 <= j < |s.requests| ==> !s.requests[j].phase.Inserted?
       case Reread(i, _) => s.requests[i].phase.Raced?
       case Commit(i, _) => s.requests[i].phase.Inserted? || s.requests[i].phase.Replaying?
  }

  function NextPhase(s: System, m: Move): Phase
    requires Enabled(s, m)
  {
    var r := s.requests[m.i];
    match m
    case Read(_) => if s.rows == [] then Missed else Answer(s.rows[0], r, false)
    case Run(_, outcome) => if outcome.None? then Failed else Ran(outcome.value)
    case Insert(_, ok) => if !ok then Failed else if s.rows == [] then Inserted(r.phase.reply) else Raced(r.phase.reply)
    case Reread(_, ok) => if !ok || s.rows == [] then Failed else Answer(s.rows[0], r, true)
    case Commit(_, ok) =>
      if !ok then Failed
      else if r.phase.Inserted? then Succeeded(r.phase.reply, false, true)
      else Succeeded(r.phase.reply, true, r.phase.ran)
  }

  /** One move of one request; a move that is not enabled waits. */
  function Step(s: System, m: Move): System {
    if !Enabled(s, m) then s
    else
      var r := s.requests[m.i];
      var stored := m.Commit? && m.ok && r.phase.Inserted?;
      System(
        if stored then s.rows + [Row(r.route, r.hash, r.phase.reply)] else s.rows,
        s.requests[m.i := r.(phase := NextPhase(s, m))])
  }

  function Trace(s: System, moves: seq<Move>): System
    decreases |moves|
  {
    if moves == [] then s else Trace(Step(s, moves[0]), moves[1..])
  }

  predicate Answered(s: System, r: Request)
    requires r.phase.Replaying? || r.phase.Succeeded?
  {
    |s.rows| == 1 && Matches(s.rows[0], r) && s.rows[0].reply == r.phase.reply
  }

  predicate First(r: Request) { r.phase.Succeeded? && !r.phase.replayed }

  /** What every step keeps. */
  ghost predicate Inv(s: System) {
    && |s.rows| <= 1
    && (forall i, j :: 0 <= i < j < |s.requests| ==> !(s.requests[i].phase.Inserted? && s.requests[j].phase.Inserted?))
    && (forall i :: 0 <= i < |s.requests| && s.requests[i].phase.Inserted? ==> s.rows == [])
    && (forall i :: 0 <= i < |s.requests| && (s.requests[i].phase.Replaying? || s.requests[i].phase.Succeeded?) ==>
      Answered(s, s.requests[i]))
    && (forall i, j :: 0 <= i < j < |s.requests| ==> !(First(s.requests[i]) && First(s.requests[j])))
    && (s.rows != [] ==> exists i :: 0 <= i < |s.requests| && First(s.requests[i]))
    && (forall i :: 0 <= i < |s.requests| && First(s.requests[i]) ==> s.requests[i].phase.ran)
  }

  lemma StepKeeps(s: System, m: Move)
    requires Inv(s)
    ensures Inv(Step(s, m))
    ensures s.rows <= Step(s, m).rows
  {
    if Enabled(s, m) {
      StepRows(s, m);
      StepFirst(s, m);
    }
  }

  lemma StepRows(s: System, m: Move)
    requires Inv(s) && Enabled(s, m)
    ensures var t := Step(s, m);
            && s.rows <= t.rows && |t.rows| <= 1
            && (forall i, j :: 0 <= i < j < |t.requests| ==>
              !(t.requests[i].phase.Inserted? && t.requests[j].phase.Inserted?))
            && (forall i :: 0 <= i < |t.requests| && t.requests[i].phase.Inserted? ==> t.rows == [])
            && (forall i ::
                  0 <= i < |t.requests| && (t.requests[i].phase.Replaying? || t.requests[i].phase.Succeeded?) ==>
                    Answered(t, t.requests[i]))
  {
    var t := Step(s, m);
    assert forall i :: 0 <= i < |t.requests| && i != m.i ==> t.requests[i] == s.requests[i];
  }

  lemma StepFirst(s: System, m: Move)
    requires Inv(s) && Enabled(s, m)
    ensures var t := Step(s, m);
            && (forall i, j :: 0 <= i < j < |t.requests| ==> !(First(t.requests[i]) && First(t.requests[j])))
            && (t.rows != [] ==> exists i :: 0 <= i < |t.requests| && First(t.requests[i]))
            && (forall i :: 0 <= i < |t.requests| && First(t.requests[i]) ==> t.requests[i].phase.ran)
  {
    var t := Step(s, m);
    if s.rows != [] {
      var i :| 0 <= i < |s.requests| && First(s.requests[i]);
      assert First(t.requests[i]);
    } else if t.rows != [] {
      assert First(t.requests[m.i]);
    }
  }

  lemma {:induction false} TraceKeeps(s: System, moves: seq<Move>)
    requires Inv(s)
    ensures Inv(Trace(s, moves)) && s.rows <= Trace(s, moves).rows
    decreases |moves|
  {
    if moves != [] {
      StepKeeps(s, moves[0]);
      TraceKeeps(Step(s, moves[0]), moves[1..]);
    }
  }

  lemma InitialInv(s: System)
    requires Initial(s)
    ensures Inv(s)
  {
  }

  /** In every interleaving at most one row is stored and it never changes; every success carries that
      row's reply; and all that succeed asked the same thing. */
  lemma OneOutcome(s: System, before: seq<Move>, after: seq<Move>)
    requires Initial(s)
    ensures var mid := Trace(s, before);
            var end := Trace(mid, after);
            && |end.rows| <= 1 && mid.rows <= end.rows
            && (forall i :: 0 <= i < |end.requests| && end.requests[i].phase.Succeeded? ==>
                  && end.rows != []
                  && end.requests[i].phase.reply == end.rows[0].reply
                  && end.requests[i].route == end.rows[0].route && end.requests[i].hash == end.rows[0].hash)
  {
    InitialInv(s);
    TraceKeeps(s, before);
    TraceKeeps(Trace(s, before), after);
  }

  // ---- and it is of use ------------------------------------------------------------------------------------

  /** A request that comes when a row is stored gets its reply, and runs nothing, if it asks what that
      row's request asked; otherwise it is refused. Either way the row stays. */
  lemma RetryReplays(s: System, i: nat)
    requires Inv(s) && s.rows != [] && i < |s.requests| && s.requests[i].phase.Arrived?
    ensures var t, r := Step(Step(s, Read(i)), Commit(i, true)), s.requests[i];
      && t.rows == s.rows
      && t.requests[i].phase ==
           if r.route == s.rows[0].route && r.hash == s.rows[0].hash then Succeeded(s.rows[0].reply, true, false)
           else Failed
  {
  }

  /** A request that comes first, with no other holding the key, runs its handler; what that answers is
      stored and returned, and a handler that fails leaves nothing. */
  lemma FirstApplies(s: System, i: nat, outcome: Option<Reply>)
    requires s.rows == [] && i < |s.requests| && s.requests[i].phase.Arrived?
    requires forall j :: 0 <= j < |s.requests| ==> !s.requests[j].phase.Inserted?
    ensures var ran := Step(Step(s, Read(i)), Run(i, outcome));
      var t, r := Step(Step(ran, Insert(i, true)), Commit(i, true)), s.requests[i];
      if outcome.None? then t.rows == [] && t.requests[i].phase.Failed?
      else && t.rows == [Row(r.route, r.hash, outcome.value)]
           && t.requests[i].phase == Succeeded(outcome.value, false, true)
  {
    var a := Step(s, Read(i));
    var b := Step(a, Run(i, outcome));
    assert forall j :: 0 <= j < |b.requests| && j != i ==> b.requests[j] == s.requests[j];
    var c := Step(b, Insert(i, true));
    assert outcome.Some? ==> c.requests[i].phase == Inserted(outcome.value);
  }

  // ---- never applied twice -------------------------------------------------------------------------------

  predicate Applied(r: Request) { r.phase.Succeeded? && r.phase.ran }

  ghost predicate AppliedTwice(s: System) {
    exists i, j :: 0 <= i < j < |s.requests| && Applied(s.requests[i]) && Applied(s.requests[j])
  }

  /** A request that lost the race, re-read the winner's row and committed. */
  predicate LoserCommitted(r: Request) { r.phase.Succeeded? && r.phase.replayed && r.phase.ran }

  /** The handler's effects are committed twice exactly when some loser of the race commits. */
  lemma AppliedOnce(s: System, moves: seq<Move>)
    requires Initial(s)
    ensures var t := Trace(s, moves);
            AppliedTwice(t) <==> exists i :: 0 <= i < |t.requests| && LoserCommitted(t.requests[i])
  {
    InitialInv(s);
    TraceKeeps(s, moves);
    var t := Trace(s, moves);
    if i :| 0 <= i < |t.requests| && LoserCommitted(t.requests[i]) {
      assert Answered(t, t.requests[i]);
      var j :| 0 <= j < |t.requests| && First(t.requests[j]);
      assert Applied(t.requests[i]) && Applied(t.requests[j]) && i != j;
    }
  }

  ghost predicate NoLoser(s: System) {
    forall i :: 0 <= i < |s.requests| ==>
      !(s.requests[i].phase.Replaying? && s.requests[i].phase.ran) && !LoserCommitted(s.requests[i])
  }

  lemma {:induction false} RefusedRereads(s: System, moves: seq<Move>)
    requires NoLoser(s)
    requires forall m :: m in moves && m.Reread? ==> !m.ok
    ensures NoLoser(Trace(s, moves))
    decreases |moves|
  {
    if moves != [] {
      assert moves[0] in moves;
      RefusedRereads(Step(s, moves[0]), moves[1..]);
    }
  }

  /** With a database that refuses every statement after the violated insert, as one does whose
      transactions abort, the loser's re-read fails and nothing is applied twice. */
  lemma AbortedLosersApplyNothing(s: System, moves: seq<Move>)
    requires Initial(s)
    requires forall m :: m in moves && m.Reread? ==> !m.ok
    ensures !AppliedTwice(Trace(s, moves))
  {
    RefusedRereads(s, moves);
    AppliedOnce(s, moves);
  }

  lemma {:induction false} TraceThen(s: System, before: seq<Move>, after: seq<Move>)
    ensures Trace(s, before + after) == Trace(Trace(s, before), after)
    decreases |before|
  {
    if before == [] {
      assert before + after == after;
    } else {
      assert (before + after)[1..] == before[1..] + after;
      TraceThen(Step(s, before[0]), before[1..], after);
    }
  }

  lemma Pair(s: System, a: Move, b: Move)
    ensures Trace(s, [a, b]) == Step(Step(s, a), b)
  {
    var s1 := Step(s, a);
    assert [a, b][1..] == [b] && [b][1..] == [];
    assert Trace(s1, [b]) == Trace(Step(s1, b), []);
  }

  function WinnerFirst(a: Reply, b: Reply): seq<Move> {
    [Read(0), Read(1)] + [Run(0, Some(a)), Run(1, Some(b))] + [Insert(0, true), Commit(0, true)]
  }

  /** Two requests read no row and run; the first one stores its result. */
  lemma BothRan(route: string, hash: string, a: Reply, b: Reply)
    ensures var r := Request(route, hash, Arrived);
            Trace(System([], [r, r]), WinnerFirst(a, b))
            == System([Row(route, hash, a)], [r.(phase := Succeeded(a, false, true)), r.(phase := Ran(b))])
  {
    var r := Request(route, hash, Arrived);
    var s := System([], [r, r]);
    var looks, runs, stores := [Read(0), Read(1)], [Run(0, Some(a)), Run(1, Some(b))],
      [Insert(0, true), Commit(0, true)];
    TraceThen(s, looks + runs, stores);
    TraceThen(s, looks, runs);
    Pair(s, Read(0), Read(1));
    var s1 := System([], [r.(phase := Missed), r.(phase := Missed)]);
    assert Step(Step(s, Read(0)), Read(1)) == s1;
    Pair(s1, Run(0, Some(a)), Run(1, Some(b)));
    var s2 := System([], [r.(phase := Ran(a)), r.(phase := Ran(b))]);
    assert Step(Step(s1, Run(0, Some(a))), Run(1, Some(b))) == s2;
    Pair(s2, Insert(0, true), Commit(0, true));
  }

  /** The condition is not idle: were the re-read to go through, two concurrent requests would both
      apply. */
  lemma LoserCouldCommit(route: string, hash: string, a: Reply, b: Reply)
    ensures var r := Request(route, hash, Arrived);
            AppliedTwice(Trace(System([], [r, r]),
              WinnerFirst(a, b) + ([Insert(1, true), Reread(1, true)] + [Commit(1, true)])))
  {
    var r := Request(route, hash, Arrived);
    var s := System([Row(route, hash, a)], [r.(phase := Succeeded(a, false, true)), r.(phase := Ran(b))]);
    BothRan(route, hash, a, b);
    TraceThen(System([], [r, r]), WinnerFirst(a, b), [Insert(1, true), Reread(1, true)] + [Commit(1, true)]);
    TraceThen(s, [Insert(1, true), Reread(1, true)], [Commit(1, true)]);
    Pair(s, Insert(1, true), Reread(1, true));
    var t := s.(requests := [r.(phase := Succeeded(a, false, true)), r.(phase := Replaying(a, true))]);
    assert Step(Step(s, Insert(1, true)), Reread(1, true)) == t;
    var u := Step(t, Commit(1, true));
    assert Trace(t, [Commit(1, true)]) == u;
    assert Applied(u.requests[0]) && Applied(u.requests[1]);
  }
}
