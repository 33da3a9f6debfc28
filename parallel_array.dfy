/**
 * The parallel-array assembler. A process file stores one list of records as several
 * separately located sections (names, type codes, offsets, ...); record `i` is rebuilt from
 * row `i` of each section, and the row number is all that ties the sections together.
 */
module ParallelArray {
  import opened Results

  /**
   * The records of the first `k` names, row `i` decoded by `record(names[i], i)`, in name
   * order. The first row that fails ends the whole assembly with that row's error.
   */
  function Assemble<T>(names: seq<string>, record: (string, nat) -> Result<T>, k: nat): (r: Result<seq<T>>)
    requires k <= |names|
    ensures r.Ok? ==> |r.value| == k
    decreases k
  {
    if k == 0 then Ok([])
    else
      var prefix :- Assemble(names, record, k - 1);
      var last :- record(names[k - 1], k - 1);
      Ok(prefix + [last])
  }

  /**
   * Assembly succeeds exactly when every row decodes; then there is one record per name,
   * and record `i` is the one decoded from row `i`.
   */
  lemma {:induction false} AssembleRows<T>(names: seq<string>, record: (string, nat) -> Result<T>, k: nat)
    requires k <= |names|
    ensures Assemble(names, record, k).Ok? <==> forall i :: 0 <= i < k ==> record(names[i], i).Ok?
    ensures Assemble(names, record, k).Ok? ==>
      && |Assemble(names, record, k).value| == k
      && forall i :: 0 <= i < k ==> Assemble(names, record, k).value[i] == record(names[i], i).value
    decreases k
  {
    if k > 0 {
      AssembleRows(names, record, k - 1);
    }
  }

  /** A failed assembly reports the error of its first failing row. */
  lemma {:induction false} AssembleFirstError<T>(names: seq<string>, record: (string, nat) -> Result<T>, k: nat)
    requires k <= |names|
    requires Assemble(names, record, k).Err?
    ensures exists i :: 0 <= i < k && record(names[i], i) == Err(Assemble(names, record, k).error) &&
                        (forall j :: 0 <= j < i ==> record(names[j], j).Ok?)
    decreases k
  {
    if Assemble(names, record, k - 1).Err? {
      AssembleFirstError(names, record, k - 1);
    } else {
      AssembleRows(names, record, k - 1);
      assert record(names[k - 1], k - 1) == Err(Assemble(names, record, k).error);
    }
  }

  /** Once a row fails, every longer assembly fails with that row's error. */
  lemma {:induction false} AssembleErrorPersists<T>(names: seq<string>, record: (string, nat) -> Result<T>, k: nat, m: nat)
    requires k <= m <= |names|
    requires Assemble(names, record, k).Err?
    ensures Assemble(names, record, m) == Assemble(names, record, k)
    decreases m - k
  {
    if k < m {
      AssembleErrorPersists(names, record, k, m - 1);
    }
  }

  /** The assembly of all rows stops at row `i` when the rows before it decode and it does not. */
  lemma AssembleStopsAt<T>(names: seq<string>, record: (string, nat) -> Result<T>, i: nat)
    requires i < |names|
    requires Assemble(names, record, i).Ok?
    requires record(names[i], i).Err?
    ensures Assemble(names, record, |names|) == Err(record(names[i], i).error)
  {
    assert Assemble(names, record, i + 1) == Err(record(names[i], i).error);
    AssembleErrorPersists(names, record, i + 1, |names|);
  }

  /**
   * The loop both record readers run: decodes the row of each name in turn and appends its
   * record, stopping at the first row that fails.
   */
  method AssembleEach<T>(names: seq<string>, record: (string, nat) -> Result<T>) returns (r: Result<seq<T>>)
    ensures r == Assemble(names, record, |names|)
  {
    var records: seq<T> := [];
    var i := 0;
    while i < |names|
      invariant i <= |names|
      invariant Assemble(names, record, i) == Ok(records)
    {
      var row := record(names[i], i);
      if row.Err? {
        AssembleStopsAt(names, record, i);
        return Err(row.error);
      }
      records := records + [row.value];
      i := i + 1;
    }
    return Ok(records);
  }
}
