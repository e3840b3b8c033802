/** The Parquet decoder front-end of server/utils/parquet-parser.ts.

    Which decoding library is used is decided lazily by `ensureParquetWasm`,
    a small state machine over three module-level variables: the primary
    handle `parquetWasm`, the flag `parquetWasmFailed`, and the fallback
    handle `parquetjs`. Loading a library is an outside event, so each call
    receives the outcomes of the imports it may attempt. What a library
    decodes from a buffer is likewise an input: a sequence of rows, possibly
    cut short by an error. */
module Parquet {
  import opened Wrappers
  import opened Seqs

  /** The value `ensureParquetWasm` resolves to: `null`, the primary handle
      or the fallback handle. */
  datatype Lib = NoLib | Wasm | Js

  /** `parquetWasm !== null`, `parquetWasmFailed`, `parquetjs !== null`. */
  datatype Backend = Backend(wasmLoaded: bool, wasmFailed: bool, jsLoaded: bool)

  /** What the imports attempted during one call would do:
      - `wasmImported`: `import('parquet-wasm')` yields a module; its
        rejection is caught and turned into `null`;
      - `wasmInitOk`: `await wasm.default()` succeeds;
      - `jsImported`: the first `import('parquetjs-lite')` of the call
        succeeds;
      - `jsRetryImported`: the second one, reached when the first was the
        one on the null-module path and it threw. */
  datatype LoadOutcomes = LoadOutcomes(wasmImported: bool, wasmInitOk: bool, jsImported: bool, jsRetryImported: bool)

  /** All three variables as initialised. */
  const Initial := Backend(false, false, false)

  /** What every reachable state satisfies: never both handles; the failure
      flag only with a loaded fallback; with the primary disabled, it is
      never loaded and never marked failed. */
  ghost predicate Inv(b: Backend, disabled: bool) {
    && !(b.wasmLoaded && b.jsLoaded)
    && (b.wasmFailed ==> b.jsLoaded)
    && (disabled ==> !b.wasmLoaded && !b.wasmFailed)
  }

  /** `parquetWasm || parquetjs`. */
  function Current(b: Backend): Lib {
    if b.wasmLoaded then Wasm else if b.jsLoaded then Js else NoLib
  }

  /** One call of `ensureParquetWasm`: the new state and the returned handle. */
  function Ensure(b: Backend, disabled: bool, o: LoadOutcomes): (r: (Backend, Lib))
    ensures Inv(b, disabled) ==> Inv(r.0, disabled)
    ensures Inv(b, disabled) ==> r.1 == Current(r.0)
    // a handle, once set, is never reset; nor is the failure flag
    ensures (b.wasmLoaded ==> r.0.wasmLoaded) && (b.jsLoaded ==> r.0.jsLoaded) && (b.wasmFailed ==> r.0.wasmFailed)
    // once a library is loaded, a call returns it and touches nothing
    ensures Inv(b, disabled) && Current(b) != NoLib ==> r == (b, Current(b))
    // a call that returns null records nothing
    ensures r.1 == NoLib ==> r.0 == b
    // with the primary disabled it is never loaded
    ensures disabled ==> r.0.wasmLoaded == b.wasmLoaded && r.0.wasmFailed == b.wasmFailed
    // the failure flag is only ever raised together with the fallback
    ensures r.0.wasmFailed && !b.wasmFailed ==> r.0.jsLoaded && r.1 == Js
  {
    if disabled then
      if !b.jsLoaded then
        if o.jsImported then (b.(jsLoaded := true), Js) else (b, NoLib)
      else (b, Js)
    else if b.wasmFailed && !b.jsLoaded then
      // unreachable: Inv(b, _) rules it out
      if o.jsImported then (b.(jsLoaded := true), Js) else (b, NoLib)
    else if !b.wasmLoaded && !b.jsLoaded then
      if o.wasmImported then
        if o.wasmInitOk then (b.(wasmLoaded := true), Wasm)
        else if o.jsImported then (b.(jsLoaded := true, wasmFailed := true), Js)
        else (b, NoLib)
      else if o.jsImported then (b.(jsLoaded := true, wasmFailed := true), Js)
      else if o.jsRetryImported then (b.(jsLoaded := true, wasmFailed := true), Js)
      else (b, NoLib)
    else (b, Current(b))
  }

  /** The guarded fallback branch of `ensureParquetWasm` can never be taken. */
  lemma FailedBranchDead(b: Backend, disabled: bool)
    requires Inv(b, disabled)
    ensures !(b.wasmFailed && !b.jsLoaded)
  {
  }

  /** From a state with no library, the primary is tried again (not the
      remembered fallback): the outcome depends only on this call's loads. */
  lemma RetryWithoutLibrary(b: Backend, disabled: bool, o: LoadOutcomes)
    requires Inv(b, disabled) && Current(b) == NoLib
    ensures disabled ==> Ensure(b, disabled, o).1 == (if o.jsImported then Js else NoLib)
    ensures !disabled ==> Ensure(b, disabled, o).1 == FirstLoad(o)
  {
  }

  /** The library a call without a loaded library ends up with: the primary
      when it imports and initialises, else the fallback when one of its
      imports succeeds (a second one only after a null primary module). */
  function FirstLoad(o: LoadOutcomes): Lib {
    if o.wasmImported && o.wasmInitOk then Wasm
    else if o.jsImported || (!o.wasmImported && o.jsRetryImported) then Js
    else NoLib
  }

  /** The states after a sequence of calls. */
  function After(b: Backend, disabled: bool, calls: seq<LoadOutcomes>): Backend
    decreases |calls|
  {
    if |calls| == 0 then b else Ensure(After(b, disabled, DropLast(calls)), disabled, Last(calls)).0
  }

  /** The handles returned by a sequence of calls. */
  function Returned(b: Backend, disabled: bool, calls: seq<LoadOutcomes>): (r: seq<Lib>)
    ensures |r| == |calls|
    decreases |calls|
  {
    if |calls| == 0 then []
    else Returned(b, disabled, DropLast(calls)) + [Ensure(After(b, disabled, DropLast(calls)), disabled, Last(calls)).1]
  }

  /** Every state reached from the initial one satisfies the invariant. */
  lemma {:induction false} Reachable(disabled: bool, calls: seq<LoadOutcomes>)
    ensures Inv(After(Initial, disabled, calls), disabled)
    decreases |calls|
  {
    if |calls| > 0 {
      Reachable(disabled, DropLast(calls));
    }
  }

  /** Once a library is loaded, every later call returns that library and
      the state never changes again. */
  lemma {:induction false} LoadedIsFinal(b: Backend, disabled: bool, calls: seq<LoadOutcomes>)
    requires Inv(b, disabled) && Current(b) != NoLib
    ensures After(b, disabled, calls) == b
    ensures forall i :: 0 <= i < |calls| ==> Returned(b, disabled, calls)[i] == Current(b)
    decreases |calls|
  {
    if |calls| > 0 {
      LoadedIsFinal(b, disabled, DropLast(calls));
    }
  }

  // ---------------------------------------------------------------------
  // Decoding as an input

  /** What a reader produced before stopping: all rows when `failed` is
      false; only a prefix when an error cut it short. */
  datatype Decoded<R> = Decoded(rows: seq<R>, failed: bool)

  /** A parquet-wasm table: `numRows` results of `getRow(i)`, any of which may
      be absent, possibly cut short by an error. */
  datatype WasmTable<R> = WasmTable(rows: seq<Option<R>>, failed: bool)

  /** What each library makes of one buffer. */
  datatype Source<R> = Source(wasm: WasmTable<R>, js: Decoded<R>)

  /** The rows `getRow` reports present, in row order. */
  function Present<R>(rows: seq<Option<R>>): (r: seq<R>)
    ensures |r| <= |rows|
    decreases |rows|
  {
    if |rows| == 0 then []
    else if Last(rows).Some? then Present(DropLast(rows)) + [Last(rows).value]
    else Present(DropLast(rows))
  }

  lemma {:induction false} PresentAppend<R>(a: seq<Option<R>>, b: seq<Option<R>>)
    ensures Present(a + b) == Present(a) + Present(b)
    decreases |b|
  {
    if |b| == 0 {
      assert a + b == a;
    } else {
      assert DropLast(a + b) == a + DropLast(b);
      PresentAppend(a, DropLast(b));
    }
  }

  /** The present rows are exactly the `Some` entries. */
  lemma {:induction false} PresentMembership<R>(rows: seq<Option<R>>, x: R)
    ensures x in Present(rows) <==> Some(x) in rows
    decreases |rows|
  {
    if |rows| > 0 {
      PresentMembership(DropLast(rows), x);
      assert rows == DropLast(rows) + [Last(rows)];
    }
  }

  /** A table cut short after `k` rows streams a prefix of the full output. */
  lemma CutShortIsPrefix<R>(rows: seq<Option<R>>, k: nat)
    requires k <= |rows|
    ensures Present(rows[..k]) <= Present(rows)
  {
    assert rows == rows[..k] + rows[k..];
    PresentAppend(rows[..k], rows[k..]);
  }

  /** The records `streamParquet` yields once `ensureParquetWasm` returned
      `lib`: nothing without a library, else every row produced before an error. */
  function Streamed<R>(lib: Lib, src: Source<R>): seq<R> {
    match lib
    case NoLib => []
    case Js => src.js.rows
    case Wasm => Present(src.wasm.rows)
  }

  /** The array `parseParquet` resolves to: `[]` without a library or after
      any error, else all rows (present rows, for parquet-wasm). */
  function Parsed<R>(lib: Lib, src: Source<R>): (r: seq<R>)
    ensures r == [] || r == Streamed(lib, src)
    ensures lib == Js && !src.js.failed ==> r == src.js.rows
    ensures lib == Wasm && !src.wasm.failed ==> r == Present(src.wasm.rows)
    ensures lib == NoLib || (lib == Js && src.js.failed) || (lib == Wasm && src.wasm.failed) ==> r == []
  {
    match lib
    case NoLib => []
    case Js => if src.js.failed then [] else src.js.rows
    case Wasm => if src.wasm.failed then [] else Present(src.wasm.rows)
  }

  /** One column of the schema `getParquetSchema` returns. */
  datatype Field = Field(name: string, typ: string, nullable: bool)

  /** A field of a parquetjs-lite schema; `optional` may be missing. */
  datatype JsField = JsField(name: string, typ: string, optional: Option<bool>)

  /** `{ name, type, nullable: field.optional || false }`. */
  function FromJsField(f: JsField): (r: Field)
    ensures r.name == f.name && r.typ == f.typ
    ensures r.nullable <==> f.optional == Some(true)
  {
    Field(f.name, f.typ, f.optional == Some(true))
  }

  /** The `fields` of the schema: `[]` without a library or after any error. */
  function SchemaFields(lib: Lib, cols: WasmTable<Field>, jsFields: Decoded<JsField>): (r: seq<Field>)
    ensures lib == NoLib || (lib == Js && jsFields.failed) || (lib == Wasm && cols.failed) ==> r == []
    ensures lib == Js && !jsFields.failed ==> r == Map(jsFields.rows, FromJsField)
    ensures lib == Wasm && !cols.failed ==> r == Present(cols.rows)
  {
    match lib
    case NoLib => []
    case Js => if jsFields.failed then [] else Map(jsFields.rows, FromJsField)
    case Wasm => if cols.failed then [] else Present(cols.rows)
  }

  // ---------------------------------------------------------------------
  // Combinators over the row stream

  /** The number of records `streamParquetWithFilter` stops at: `maxResults`
      of 0 or missing means no cap; any other value stops the loop as soon
      as `count >= maxResults`, which for a value below 1 is after the first
      record. */
  function CapOf(maxResults: Option<int>): Option<nat> {
    if maxResults.None? || maxResults.value == 0 then None
    else Some(Max(1, maxResults.value))
  }

  /** The records `streamParquetWithFilter` yields from `rows`: the passing
      rows, cut to the cap when there is one. */
  function Capped<R>(rows: seq<R>, keep: R -> bool, maxResults: Option<int>): (r: seq<R>)
    ensures r <= Filter(rows, keep)
    ensures CapOf(maxResults).None? ==> r == Filter(rows, keep)
    ensures CapOf(maxResults).Some? ==> |r| == Min(|Filter(rows, keep)|, CapOf(maxResults).value)
  {
    var kept := Filter(rows, keep);
    match CapOf(maxResults)
    case None => kept
    case Some(cap) => kept[..Min(|kept|, cap)]
  }

  /** Fewer rows in, a prefix of the records out. */
  lemma CappedPrefix<R>(a: seq<R>, b: seq<R>, keep: R -> bool, maxResults: Option<int>)
    requires a <= b
    ensures Capped(a, keep, maxResults) <= Capped(b, keep, maxResults)
  {
    assert b[..|a|] == a;
    FilterPrefix(b, |a|, keep);
  }

  /** A table whose stream fails after `k` rows yields a prefix of the
      records the whole table yields, under the same filter and cap. */
  lemma CappedCutShortIsPrefix<R>(rows: seq<Option<R>>, k: nat, keep: R -> bool, maxResults: Option<int>)
    requires k <= |rows|
    ensures Capped(Present(rows[..k]), keep, maxResults) <= Capped(Present(rows), keep, maxResults)
  {
    CutShortIsPrefix(rows, k);
    CappedPrefix(Present(rows[..k]), Present(rows), keep, maxResults);
  }

  /** The filter-and-count loop of `streamParquetWithFilter`: the records it
      yields are the first passing records, all of them when uncapped. */
  method FilterWithCap<R>(rows: seq<R>, keep: R -> bool, maxResults: Option<int>) returns (out: seq<R>)
    ensures out == Capped(rows, keep, maxResults)
    ensures out <= Filter(rows, keep)
    ensures CapOf(maxResults).None? ==> out == Filter(rows, keep)
    ensures CapOf(maxResults).Some? ==> |out| == Min(|Filter(rows, keep)|, CapOf(maxResults).value)
  {
    var cap := CapOf(maxResults);
    out := [];
    var count := 0;
    var i := 0;
    while i < |rows|
      invariant 0 <= i <= |rows|
      invariant out == Filter(rows[..i], keep)
      invariant count == |out|
      invariant cap.Some? ==> count < cap.value
    {
      FilterStep(rows[..i], rows[i], keep);
      PrefixStep(rows, i);
      if keep(rows[i]) {
        out := out + [rows[i]];
        count := count + 1;
        if cap.Some? && count >= cap.value {
          FilterPrefix(rows, i + 1, keep);
          return;
        }
      }
      i := i + 1;
    }
    FullPrefix(rows);
  }

  /** The batch size in effect: `batch.length >= batchSize` already holds
      at length 1 for any `batchSize` below 1. */
  function Width(batchSize: int): nat {
    Max(1, batchSize)
  }

  /** The batching loop of `processParquetInBatches`: the batches handed to
      `processor`, in call order, and the returned total. */
  method Batch<R>(rows: seq<R>, batchSize: int) returns (batches: seq<seq<R>>, total: nat)
    ensures Flatten(batches) == rows
    ensures total == |rows|
    ensures forall i :: 0 <= i < |batches| ==> 0 < |batches[i]| <= Width(batchSize)
    ensures forall i :: 0 <= i < |batches| - 1 ==> |batches[i]| == Width(batchSize)
  {
    batches := [];
    total := 0;
    var batch: seq<R> := [];
    var i := 0;
    while i < |rows|
      invariant 0 <= i <= |rows|
      invariant Flatten(batches) + batch == rows[..i]
      invariant total == |Flatten(batches)|
      invariant |batch| < Width(batchSize)
      invariant forall j :: 0 <= j < |batches| ==> |batches[j]| == Width(batchSize)
    {
      PrefixStep(rows, i);
      batch := batch + [rows[i]];
      if |batch| >= batchSize {
        FlattenStep(batches, batch);
        batches := batches + [batch];
        total := total + |batch|;
        batch := [];
      }
      i := i + 1;
    }
    FullPrefix(rows);
    if |batch| > 0 {
      FlattenStep(batches, batch);
      batches := batches + [batch];
      total := total + |batch|;
    }
  }

  /** The loop of `aggregateParquet`: `result = aggregator(result, record)`
      for each record in stream order. */
  method FoldRows<A, R>(rows: seq<R>, init: A, aggregator: (A, R) -> A) returns (result: A)
    ensures result == FoldLeft(aggregator, init, rows)
  {
    result := init;
    var i := 0;
    while i < |rows|
      invariant 0 <= i <= |rows|
      invariant result == FoldLeft(aggregator, init, rows[..i])
    {
      FoldLeftStep(aggregator, init, rows[..i], rows[i]);
      PrefixStep(rows, i);
      result := aggregator(result, rows[i]);
      i := i + 1;
    }
    FullPrefix(rows);
  }

  // ---------------------------------------------------------------------
  // The module state

  /** The three module-level variables and the `DISABLE_PARQUET_WASM`
      setting, with the exported functions that consult them. */
  class ParquetParser {
    const disabled: bool
    var wasmLoaded: bool
    var wasmFailed: bool
    var jsLoaded: bool

    function State(): Backend
      reads this
    {
      Backend(wasmLoaded, wasmFailed, jsLoaded)
    }

    ghost predicate Valid()
      reads this
    {
      Inv(State(), disabled)
    }

    constructor (disabled: bool)
      ensures this.disabled == disabled && State() == Initial && Valid()
    {
      this.disabled := disabled;
      wasmLoaded, wasmFailed, jsLoaded := false, false, false;
    }

    /** `ensureParquetWasm()`. */
    method EnsureParquetWasm(o: LoadOutcomes) returns (lib: Lib)
      modifies this
      ensures (State(), lib) == Ensure(old(State()), disabled, o)
    {
      if disabled {
        if !jsLoaded {
          if o.jsImported {
            jsLoaded := true;
            return Js;
          }
          return NoLib;
        }
        return Js;
      }
      if wasmFailed && !jsLoaded {
        if o.jsImported {
          jsLoaded := true;
          return Js;
        }
        return NoLib;
      }
      if !wasmLoaded && !jsLoaded {
        if o.wasmImported {
          if o.wasmInitOk {
            wasmLoaded := true;
            return Wasm;
          }
          // the init error falls through to the catch block
          if o.jsImported {
            jsLoaded := true;
            wasmFailed := true;
            return Js;
          }
          return NoLib;
        }
        if o.jsImported {
          jsLoaded := true;
          wasmFailed := true;
          return Js;
        }
        // the import error falls through to the catch block
        if o.jsRetryImported {
          jsLoaded := true;
          wasmFailed := true;
          return Js;
        }
        return NoLib;
      }
      lib := Current(State());
    }

    /** `streamParquet(buffer)`: its branch on `DISABLE_PARQUET_WASM ||
        parquetjs` picks the reader of the library just returned. */
    method StreamParquet<R>(o: LoadOutcomes, src: Source<R>) returns (records: seq<R>)
      requires Valid()
      modifies this
      ensures Valid()
      ensures State() == Ensure(old(State()), disabled, o).0
      ensures records == Streamed(Ensure(old(State()), disabled, o).1, src)
    {
      var lib := EnsureParquetWasm(o);
      if lib == NoLib {
        return [];
      }
      if disabled || jsLoaded {
        records := src.js.rows;
      } else if lib == Wasm {
        records := Present(src.wasm.rows);
      } else {
        records := [];
      }
    }

    /** `parseParquet(buffer)`; it never throws. */
    method ParseParquet<R>(o: LoadOutcomes, src: Source<R>) returns (records: seq<R>)
      requires Valid()
      modifies this
      ensures Valid()
      ensures State() == Ensure(old(State()), disabled, o).0
      ensures records == Parsed(Ensure(old(State()), disabled, o).1, src)
    {
      var lib := EnsureParquetWasm(o);
      if lib == NoLib {
        return [];
      }
      if jsLoaded && lib == Js {
        records := if src.js.failed then [] else src.js.rows;
      } else {
        records := if src.wasm.failed then [] else Present(src.wasm.rows);
      }
    }

    /** `getParquetSchema(buffer).fields`; it never throws. */
    method GetParquetSchema(o: LoadOutcomes, cols: WasmTable<Field>, jsFields: Decoded<JsField>) returns (fields: seq<Field>)
      requires Valid()
      modifies this
      ensures Valid()
      ensures State() == Ensure(old(State()), disabled, o).0
      ensures fields == SchemaFields(Ensure(old(State()), disabled, o).1, cols, jsFields)
    {
      var lib := EnsureParquetWasm(o);
      if lib == NoLib {
        return [];
      }
      if jsLoaded && lib == Js {
        fields := if jsFields.failed then [] else Map(jsFields.rows, FromJsField);
      } else {
        fields := if cols.failed then [] else Present(cols.rows);
      }
    }

    /** `streamParquetWithFilter(buffer, filter, maxResults)`. */
    method StreamParquetWithFilter<R>(o: LoadOutcomes, src: Source<R>, keep: R -> bool, maxResults: Option<int>)
      returns (records: seq<R>)
      requires Valid()
      modifies this
      ensures Valid()
      ensures State() == Ensure(old(State()), disabled, o).0
      ensures records == Capped(Streamed(Ensure(old(State()), disabled, o).1, src), keep, maxResults)
      ensures records <= Filter(Streamed(Ensure(old(State()), disabled, o).1, src), keep)
      ensures CapOf(maxResults).None? ==> records == Filter(Streamed(Ensure(old(State()), disabled, o).1, src), keep)
      ensures CapOf(maxResults).Some? ==>
        |records| == Min(|Filter(Streamed(Ensure(old(State()), disabled, o).1, src), keep)|, CapOf(maxResults).value)
    {
      var rows := StreamParquet(o, src);
      records := FilterWithCap(rows, keep, maxResults);
    }

    /** `processParquetInBatches(buffer, batchSize, processor)`: it consults
        `ensureParquetWasm` itself (`o1`) and again through `streamParquet`
        (`o2`); `processor` is called once per element of `batches`. */
    method ProcessParquetInBatches<R>(o1: LoadOutcomes, o2: LoadOutcomes, src: Source<R>, batchSize: int)
      returns (batches: seq<seq<R>>, totalProcessed: nat)
      requires Valid()
      modifies this
      ensures Valid()
      ensures var (s1, lib) := Ensure(old(State()), disabled, o1);
        && (lib == NoLib ==> batches == [] && totalProcessed == 0 && State() == old(State()))
        && (lib != NoLib ==> State() == s1 && Flatten(batches) == Streamed(lib, src)
                             && totalProcessed == |Streamed(lib, src)|)
      ensures forall i :: 0 <= i < |batches| ==> 0 < |batches[i]| <= Width(batchSize)
      ensures forall i :: 0 <= i < |batches| - 1 ==> |batches[i]| == Width(batchSize)
    {
      var lib := EnsureParquetWasm(o1);
      if lib == NoLib {
        return [], 0;
      }
      LoadedIsFinal(State(), disabled, [o2]);
      var rows := StreamParquet(o2, src);
      batches, totalProcessed := Batch(rows, batchSize);
    }

    /** `aggregateParquet(buffer, initialValue, aggregator)`. */
    method AggregateParquet<A, R>(o1: LoadOutcomes, o2: LoadOutcomes, src: Source<R>, init: A, aggregator: (A, R) -> A)
      returns (result: A)
      requires Valid()
      modifies this
      ensures Valid()
      ensures var (s1, lib) := Ensure(old(State()), disabled, o1);
        && (lib == NoLib ==> result == init && State() == old(State()))
        && (lib != NoLib ==> State() == s1 && result == FoldLeft(aggregator, init, Streamed(lib, src)))
    {
      var lib := EnsureParquetWasm(o1);
      if lib == NoLib {
        return init;
      }
      LoadedIsFinal(State(), disabled, [o2]);
      var rows := StreamParquet(o2, src);
      result := FoldRows(rows, init, aggregator);
    }
  }
}
