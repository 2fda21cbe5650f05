// The audit log of an experiment: events numbered from one, each carrying the hash of the one before.
module AuditLog {
  import opened Prelude
  import opened Digests

  predicate EventParses(e: AuditEvent) {
    IsPositiveUInt(e.sequence)
  }

  function HashBefore(events: seq<AuditEvent>, i: nat): Option<Hash>
    requires i <= |events|
  {
    if i == 0 then None else Some(EventDigest(events[i - 1]))
  }

  // Numbered 1, 2, 3, ... with no gap, each pointing at its predecessor.
  predicate Continuous(events: seq<AuditEvent>) {
    && (forall i | 0 <= i < |events| :: EventParses(events[i]) && events[i].sequence == i + 1)
    && (forall i {:trigger HashBefore(events, i)} | 0 <= i < |events| ::
          events[i].previousEventHash == HashBefore(events, i))
  }

  lemma {:induction false} NextLinked(log: seq<AuditEvent>, e: AuditEvent)
    requires Continuous(log) && EventParses(e) && e.sequence == |log| + 1
    requires e.previousEventHash == HashBefore(log, |log|)
    ensures Continuous(log + [e])
  {
    var longer := log + [e];
    forall i | 0 <= i < |longer|
      ensures EventParses(longer[i]) && longer[i].sequence == i + 1
      ensures longer[i].previousEventHash == HashBefore(longer, i)
    {
      if i < |log| { assert longer[i] == log[i] && log[i].previousEventHash == HashBefore(log, i); }
      if i > 0 { assert longer[i - 1] == log[i - 1]; }
    }
  }

  method AssertAuditContinuity(events: seq<AuditEvent>) returns (result: Result<seq<AuditEvent>>)
    ensures Continuous(events) ==> result == Ok(events)
    ensures !Continuous(events) ==>
              result == Err(if forall e | e in events :: EventParses(e) then BatchContinuity else SchemaRejected)
  {
    for i := 0 to |events|
      invariant forall j | 0 <= j < i :: EventParses(events[j])
    {
      if !EventParses(events[i]) { return Err(SchemaRejected); }
    }
    var previous: Option<Hash> := None;
    for i := 0 to |events|
      invariant Continuous(events[..i])
      invariant previous == HashBefore(events, i)
    {
      if events[i].sequence != i + 1 { return Err(BatchContinuity); }
      if events[i].previousEventHash != previous { return Err(BatchContinuity); }
      NextLinked(events[..i], events[i]);
      assert events[..i + 1] == events[..i] + [events[i]];
      previous := Some(EventDigest(events[i]));
    }
    assert events[..|events|] == events;
    return Ok(events);
  }

  datatype AuditInput = AuditInput(
    experimentId: Id, objectType: ObjectType, occurredAt: Timestamp, resultProvenance: string,
    objectSchemaVersion: string, contentHash: Hash, supersedesContentHash: Option<Hash>)

  function CreateAuditEvent(input: AuditInput, sequence: int, previous: Option<AuditEvent>): Result<AuditEvent> {
    if sequence != (if previous.Some? then previous.value.sequence else 0) + 1
       || (previous.Some? && previous.value.experimentId != input.experimentId)
    then Err(BatchContinuity)
    else if !IsPositiveUInt(sequence) then Err(SchemaRejected)
    else Ok(AuditEvent(input.experimentId, sequence, input.objectType, input.occurredAt, input.resultProvenance,
                       input.objectSchemaVersion, input.contentHash,
                       if previous.Some? then Some(EventDigest(previous.value)) else None,
                       input.supersedesContentHash))
  }

  function LastOf<T>(rows: seq<T>): Option<T> {
    if rows == [] then None else Some(rows[|rows| - 1])
  }

  // An event made from the last one of a continuous log is exactly one that continues it.
  lemma {:induction false} MadeEventContinues(events: seq<AuditEvent>, input: AuditInput, sequence: int)
    requires Continuous(events)
    requires CreateAuditEvent(input, sequence, LastOf(events)).Ok?
    ensures Continuous(events + [CreateAuditEvent(input, sequence, LastOf(events)).value])
  {
    NextLinked(events, CreateAuditEvent(input, sequence, LastOf(events)).value);
  }

  lemma {:induction false} WithoutTheLast(a: seq<AuditEvent>)
    requires Continuous(a) && a != []
    ensures Continuous(a[..|a| - 1])
    ensures a[|a| - 1].sequence == |a|
    ensures a[|a| - 1].previousEventHash == HashBefore(a[..|a| - 1], |a| - 1)
  {
    var u := a[..|a| - 1];
    assert a[|a| - 1].previousEventHash == HashBefore(a, |a| - 1);
    forall i | 0 <= i < |u|
      ensures EventParses(u[i]) && u[i].sequence == i + 1 && u[i].previousEventHash == HashBefore(u, i)
    {
      assert u[i].previousEventHash == HashBefore(a, i);
    }
  }

  // The last event's hash fixes the whole log.
  lemma {:induction false} HeadFixesLog(a: seq<AuditEvent>, b: seq<AuditEvent>)
    requires Continuous(a) && Continuous(b) && a != [] && b != []
    requires EventDigest(a[|a| - 1]) == EventDigest(b[|b| - 1])
    ensures a == b
  {
    hide Continuous;
    WithoutTheLast(a);
    WithoutTheLast(b);
    var u, v := a[..|a| - 1], b[..|b| - 1];
    if u != [] { HeadFixesLog(u, v); }
    assert a == u + [a[|a| - 1]] && b == v + [b[|b| - 1]];
  }

  /******* Leaves *******/

  function LeafHash(e: AuditEvent): Hash {
    LeafDigest(e.experimentId, e.sequence, e.objectType, e.objectSchemaVersion, e.contentHash, EventDigest(e))
  }

  function CreateLeaf(e: AuditEvent): Leaf {
    Leaf(e.experimentId, e.sequence, e.objectType, e.objectSchemaVersion, e.contentHash, EventDigest(e), LeafHash(e))
  }

  function Leaves(events: seq<AuditEvent>): (leaves: seq<Leaf>)
    ensures |leaves| == |events|
  {
    seq(|events|, i requires 0 <= i < |events| => CreateLeaf(events[i]))
  }

  function LeafHashes(leaves: seq<Leaf>): (hashes: seq<Hash>)
    ensures |hashes| == |leaves|
  {
    seq(|leaves|, i requires 0 <= i < |leaves| => leaves[i].leafHash)
  }

  /******* Rows selected by number *******/

  function Select<T>(rows: seq<T>, keep: T -> bool): (chosen: seq<T>)
    ensures |chosen| <= |rows|
    ensures forall i | 0 <= i < |chosen| :: chosen[i] in rows && keep(chosen[i])
  {
    if rows == [] then []
    else Select(rows[..|rows| - 1], keep) + if keep(rows[|rows| - 1]) then [rows[|rows| - 1]] else []
  }

  lemma {:induction false} SelectAppend<T>(rows: seq<T>, more: seq<T>, keep: T -> bool)
    ensures Select(rows + more, keep) == Select(rows, keep) + Select(more, keep)
    decreases |more|
  {
    if more == [] {
      assert rows + more == rows;
    } else {
      var init := more[..|more| - 1];
      SelectAppend(rows, init, keep);
      assert (rows + more)[..|rows + more| - 1] == rows + init;
    }
  }

  lemma {:induction false} SelectAll<T>(rows: seq<T>, keep: T -> bool)
    requires forall x | x in rows :: keep(x)
    ensures Select(rows, keep) == rows
  {
    if rows != [] { SelectAll(rows[..|rows| - 1], keep); }
  }

  lemma {:induction false} SelectNone<T>(rows: seq<T>, keep: T -> bool)
    requires forall x | x in rows :: !keep(x)
    ensures Select(rows, keep) == []
  {
    if rows != [] { SelectNone(rows[..|rows| - 1], keep); }
  }

  lemma SelectLast<T>(rows: seq<T>, keep: T -> bool)
    requires rows != []
    ensures Select(rows, keep) ==
            Select(rows[..|rows| - 1], keep) + if keep(rows[|rows| - 1]) then [rows[|rows| - 1]] else []
  {
  }

  lemma LastOfStretch<T>(rows: seq<T>, lo: nat, hi: nat)
    requires lo < hi <= |rows|
    ensures rows[..hi - 1][lo..hi - 1] + [rows[hi - 1]] == rows[lo..hi]
  {
  }

  // Of rows numbered from one, those numbered lo to hi are a stretch of the list.
  lemma {:induction false} SelectStretch<T>(rows: seq<T>, keep: T -> bool, lo: nat, hi: nat)
    requires 1 <= lo <= hi + 1 && hi <= |rows|
    requires forall i | 0 <= i < |rows| :: keep(rows[i]) <==> lo <= i + 1 <= hi
    ensures Select(rows, keep) == rows[lo - 1..hi]
    decreases |rows|
  {
    hide Select;
    var n := |rows|;
    if n == 0 {
      SelectAll(rows, keep);
    } else {
      var init := rows[..n - 1];
      assert keep(rows[n - 1]) <==> lo <= n <= hi;
      assert forall i | 0 <= i < n - 1 :: init[i] == rows[i];
      SelectLast(rows, keep);
      if hi < n {
        SelectStretch(init, keep, lo, hi);
        assert init[lo - 1..hi] == rows[lo - 1..hi];
      } else if lo <= n {
        SelectStretch(init, keep, lo, n - 1);
        LastOfStretch(rows, lo - 1, n);
      } else {
        SelectStretch(init, keep, n, n - 1);
        assert rows[lo - 1..hi] == [];
      }
    }
  }
}
