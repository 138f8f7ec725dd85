/**
 * Properties of whole histories of updates to the development store: a
 * sequence of `create_mapping` and `increment_clicks` calls applied in order.
 */
module StoreHistory {
  import opened MockDatabase

  /** One state-changing call on the store. */
  datatype Op =
    | CreateOp(url: string, code: string, ip: Option<string>)
    | IncrementOp(code: string)

  function Apply(t: Table, op: Op): Table
  {
    match op
    case CreateOp(url, code, ip) => Create(t, url, code, ip)
    case IncrementOp(code) => Increment(t, code)
  }

  /** The store after running `ops` in order, starting from `t`. */
  function Run(t: Table, ops: seq<Op>): Table
    decreases |ops|
  {
    if ops == [] then t else Run(Apply(t, ops[0]), ops[1..])
  }

  /** The codes that some call in `ops` creates. */
  function CreatedCodes(ops: seq<Op>): set<string>
    decreases |ops|
  {
    if ops == [] then {}
    else (if ops[0].CreateOp? then {ops[0].code} else {}) + CreatedCodes(ops[1..])
  }

  /** The number of increments of `code` in `ops`. */
  function Increments(ops: seq<Op>, code: string): nat
    decreases |ops|
  {
    if ops == [] then 0
    else (if ops[0] == IncrementOp(code) then 1 else 0) + Increments(ops[1..], code)
  }

  /** `n` increments of `code` in a row. */
  function IncrementsOf(code: string, n: nat): (ops: seq<Op>)
    ensures |ops| == n
    ensures forall i :: 0 <= i < n ==> ops[i] == IncrementOp(code)
  {
    if n == 0 then [] else [IncrementOp(code)] + IncrementsOf(code, n - 1)
  }

  /**
   * No call removes a key: the keys after a history are exactly the keys
   * before it plus the codes it creates.
   */
  lemma {:induction false} KeysOnlyGrow(t: Table, ops: seq<Op>)
    ensures Run(t, ops).Keys == t.Keys + CreatedCodes(ops)
    ensures t.Keys <= Run(t, ops).Keys
    decreases |ops|
  {
    if ops != [] {
      KeysOnlyGrow(Apply(t, ops[0]), ops[1..]);
    }
  }

  /** Every history keeps each record under its own code with the fixed timestamp. */
  lemma {:induction false} RunPreservesWellFormed(t: Table, ops: seq<Op>)
    requires WellFormed(t)
    ensures WellFormed(Run(t, ops))
    decreases |ops|
  {
    if ops != [] {
      assert WellFormed(Apply(t, ops[0]));
      RunPreservesWellFormed(Apply(t, ops[0]), ops[1..]);
    }
  }

  /**
   * As long as a history does not re-create `code`, the record under it keeps
   * every field except the click count, which grows by exactly the number of
   * increments of `code` in the history.
   */
  lemma {:induction false} ClickCountCountsIncrements(t: Table, ops: seq<Op>, code: string)
    requires code in t
    requires code !in CreatedCodes(ops)
    ensures code in Run(t, ops)
    ensures Run(t, ops)[code] == t[code].(clickCount := t[code].clickCount + Increments(ops, code))
    decreases |ops|
  {
    if ops != [] {
      var t1 := Apply(t, ops[0]);
      assert code !in CreatedCodes(ops[1..]);
      assert code in t1;
      if ops[0] == IncrementOp(code) {
        assert t1[code] == t[code].(clickCount := t[code].clickCount + 1);
      } else {
        assert t1[code] == t[code];
      }
      ClickCountCountsIncrements(t1, ops[1..], code);
    }
  }

  /** The click count of a code never drops until the code is re-created. */
  lemma ClickCountMonotone(t: Table, ops: seq<Op>, code: string)
    requires code in t
    requires code !in CreatedCodes(ops)
    ensures code in Run(t, ops)
    ensures Run(t, ops)[code].clickCount >= t[code].clickCount
  {
    ClickCountCountsIncrements(t, ops, code);
  }

  lemma {:induction false} IncrementsOfCounts(code: string, n: nat)
    ensures Increments(IncrementsOf(code, n), code) == n
    ensures CreatedCodes(IncrementsOf(code, n)) == {}
  {
    if n > 0 {
      var ops := IncrementsOf(code, n);
      assert ops[1..] == IncrementsOf(code, n - 1);
      IncrementsOfCounts(code, n - 1);
    }
  }

  /**
   * Creating `code` and then incrementing it `n` times leaves a record with
   * click count `n` and the created URL, whatever the store held before.
   */
  lemma CreateThenIncrements(t: Table, url: string, code: string, ip: Option<string>, n: nat)
    ensures code in Run(t, [CreateOp(url, code, ip)] + IncrementsOf(code, n))
    ensures Run(t, [CreateOp(url, code, ip)] + IncrementsOf(code, n))[code]
      == Record(code, url, CreatedAt, n, true, ip)
  {
    var ops := [CreateOp(url, code, ip)] + IncrementsOf(code, n);
    assert ops[1..] == IncrementsOf(code, n);
    var t1 := Create(t, url, code, ip);
    IncrementsOfCounts(code, n);
    ClickCountCountsIncrements(t1, IncrementsOf(code, n), code);
  }

  /** An increment of a code that was never created neither adds it nor changes anything. */
  lemma {:induction false} IncrementsOfAbsentCode(t: Table, code: string, n: nat)
    requires code !in t
    ensures Run(t, IncrementsOf(code, n)) == t
  {
    if n > 0 {
      var ops := IncrementsOf(code, n);
      assert ops[1..] == IncrementsOf(code, n - 1);
      assert Apply(t, ops[0]) == t;
      IncrementsOfAbsentCode(t, code, n - 1);
    }
  }
}
