// Shared vocabulary: results, error codes, identifiers, uint256 ranges and sums over keyed collections.
module Prelude {

  type Id = string
  type Timestamp = int
  // A digest of archived bytes; the ledger only ever compares such digests.
  type SourceHash = string

  const UINT256_LIMIT: int := 0x1_0000000000000000_0000000000000000_0000000000000000_0000000000000000
  const INT256_LIMIT: int := 0x8000000000000000_0000000000000000_0000000000000000_0000000000000000

  predicate IsUInt(x: int) { 0 <= x < UINT256_LIMIT }

  predicate IsPositiveUInt(x: int) { 0 < x < UINT256_LIMIT }

  predicate IsInt256(x: int) { -INT256_LIMIT <= x < INT256_LIMIT }

  datatype Option<+T> = None | Some(value: T)

  // The PoaError codes the modelled code raises; SchemaRejected stands for a failed zod parse.
  datatype ErrorCode =
    | SchemaRejected
    | AccountingInvariant
    | InvalidTransition
    | InsufficientAvailableBalance
    | OperationConflict
    | IdempotencyConflict
    | StalePortfolio
    | ClosedPortfolio
    | PayableNotFound
    | DataUnavailable
    | CommitmentInvalid
    | BatchContinuity
    | ProvenanceSplice
    | ExportIncomplete
    | ScenarioBusy
    | ExperimentNotStarted
    | InvalidCanonicalValue
    | ArchiveIntegrity
    | UniqueViolation
    | DatabaseUnavailable
    | PolicyViolation
    | LimitExceeded
    | LiquidityUnavailable
    // The ABI encoder refuses a sequence number past 64 bits.
    | EncodingOutOfRange

  datatype Result<+T> = Ok(value: T) | Err(code: ErrorCode) {
    predicate IsFailure() { Err? }

    function PropagateFailure<U>(): Result<U>
      requires Err?
    {
      Err(code)
    }

    function Extract(): T
      requires Ok?
    {
      value
    }
  }

  /******* Sums over keyed collections *******/

  // The source reduces an array whose keys are unique: its entries are added one after the other, in some order.
  ghost predicate AddsUpTo<V>(m: map<Id, V>, f: V -> int, total: int)
    decreases |m|
  {
    if m == map[] then total == 0
    else exists k, rest :: k in m && AddsUpTo(m - {k}, f, rest) && total == f(m[k]) + rest
  }

  // The order does not matter, so there is one such total.
  ghost function Sum<V>(m: map<Id, V>, f: V -> int): int {
    if exists total :: AddsUpTo(m, f, total) then var total :| AddsUpTo(m, f, total); total else 0
  }

  // Any entry may be the one taken first.
  lemma {:induction false} AnyEntryFirst<V>(m: map<Id, V>, f: V -> int, total: int, k: Id)
    requires AddsUpTo(m, f, total) && k in m
    ensures AddsUpTo(m - {k}, f, total - f(m[k]))
    decreases |m|
  {
    var j, rest :| j in m && AddsUpTo(m - {j}, f, rest) && total == f(m[j]) + rest;
    if j != k {
      AnyEntryFirst(m - {j}, f, rest, k);
      assert m - {j} - {k} == m - {k} - {j};
      assert j in m - {k};
    }
  }

  lemma {:induction false} OneTotal<V>(m: map<Id, V>, f: V -> int, total: int, total': int)
    requires AddsUpTo(m, f, total) && AddsUpTo(m, f, total')
    ensures total == total'
    decreases |m|
  {
    if m != map[] {
      var k :| k in m;
      AnyEntryFirst(m, f, total, k);
      AnyEntryFirst(m, f, total', k);
      OneTotal(m - {k}, f, total - f(m[k]), total' - f(m[k]));
    }
  }

  lemma {:induction false} SomeTotal<V>(m: map<Id, V>, f: V -> int)
    ensures AddsUpTo(m, f, Sum(m, f))
    decreases |m|
  {
    if m == map[] {
      assert AddsUpTo(m, f, 0);
    } else {
      var k :| k in m;
      SomeTotal(m - {k}, f);
      assert AddsUpTo(m, f, f(m[k]) + Sum(m - {k}, f));
    }
  }

  lemma {:induction false} SumSplit<V>(m: map<Id, V>, f: V -> int, k: Id)
    requires k in m
    ensures Sum(m, f) == f(m[k]) + Sum(m - {k}, f)
  {
    SomeTotal(m, f);
    SomeTotal(m - {k}, f);
    AnyEntryFirst(m, f, Sum(m, f), k);
    OneTotal(m - {k}, f, Sum(m, f) - f(m[k]), Sum(m - {k}, f));
  }

  lemma {:induction false} SumPut<V>(m: map<Id, V>, f: V -> int, k: Id, v: V)
    ensures Sum(m[k := v], f) == Sum(m, f) + f(v) - (if k in m then f(m[k]) else 0)
  {
    SumSplit(m[k := v], f, k);
    assert m[k := v] - {k} == m - {k};
    if k in m {
      SumSplit(m, f, k);
    } else {
      assert m - {k} == m;
    }
  }

  lemma {:induction false} SumDrop<V>(m: map<Id, V>, f: V -> int, k: Id)
    requires k in m
    ensures Sum(m - {k}, f) == Sum(m, f) - f(m[k])
  {
    SumSplit(m, f, k);
  }

  // The loop form of the source's total(): values are consumed in some order.
  method Total<V>(m: map<Id, V>, f: V -> int) returns (total: int)
    ensures total == Sum(m, f)
  {
    var rest := m;
    total := 0;
    while rest != map[]
      invariant total + Sum(rest, f) == Sum(m, f)
      decreases |rest|
    {
      var k :| k in rest.Keys;
      SumSplit(rest, f, k);
      total := total + f(rest[k]);
      rest := rest - {k};
    }
  }
}
