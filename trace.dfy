/**
 * What the page asks of the database engine and of the page itself, as a
 * trace of values. Engine calls are never executed: a procedure is modelled
 * by the sequence of calls it issues and the visible effects it has, in
 * order. An engine call that rejects (the awaited promise throws) ends the
 * procedure in its `catch` block, which only logs, so the trace is cut right
 * after that call.
 */
module Trace {
  import opened Wrappers

  /** The alerts the page shows when an upload cannot start. */
  const NoFileMessage: string := "Please select a file first."
  const NoTableNameMessage: string := "Please enter a valid table name."

  newtype byte = x: int | 0 <= x < 256

  /** The calls into the database engine and its connections. */
  datatype Call =
    | Connect                                         // db.connect()
    | RegisterFileBuffer(path: string, data: seq<byte>) // db.registerFileBuffer(path, bytes)
    | Query(sql: string)                              // conn.query(sql)
    | Close                                           // conn.close()

  /** One step of a procedure: an engine call or an effect on the page. */
  datatype Effect =
    | Engine(call: Call)
    | Alert(message: string)
    | ClearImportLog                        // importLogDiv.innerHTML = ""
    | ShowProgress(first: nat, last: nat)   // one batch line appended to the import log
    | RefreshTableList                      // updateTableList() started

  /** The engine calls of a trace, in order. */
  function EngineCalls(trace: seq<Effect>): (calls: seq<Call>)
    ensures |calls| <= |trace|
  {
    if trace == [] then []
    else (if trace[0].Engine? then [trace[0].call] else []) + EngineCalls(trace[1..])
  }

  /** The engine calls of two traces run one after the other. */
  lemma {:induction false} EngineCallsAppend(a: seq<Effect>, b: seq<Effect>)
    ensures EngineCalls(a + b) == EngineCalls(a) + EngineCalls(b)
    decreases |a|
  {
    if a != [] {
      assert (a + b)[1..] == a[1..] + b;
      EngineCallsAppend(a[1..], b);
    } else {
      assert a + b == b;
    }
  }

  /**
   * The part of `plan` that is carried out when the engine call numbered `k`
   * (from 0) rejects: everything up to and including that call.
   */
  function CutAfterCall(plan: seq<Effect>, k: nat): (done: seq<Effect>)
    ensures done <= plan
    ensures EngineCalls(done) == EngineCalls(plan)[..Min(k + 1, |EngineCalls(plan)|)]
    ensures k < |EngineCalls(plan)| ==> done != [] && done[|done| - 1].Engine?
    ensures k >= |EngineCalls(plan)| ==> done == plan
    decreases |plan|
  {
    if plan == [] then []
    else if plan[0].Engine? && k == 0 then
      var done := [plan[0]];
      assert EngineCalls(done) == [plan[0].call];
      done
    else
      var next := if plan[0].Engine? then k - 1 else k;
      var rest := CutAfterCall(plan[1..], next);
      var done := [plan[0]] + rest;
      assert plan == [plan[0]] + plan[1..];
      EngineCallsCons(plan[0], plan[1..]);
      EngineCallsCons(plan[0], rest);
      PrefixAfterHead(if plan[0].Engine? then [plan[0].call] else [], EngineCalls(plan[1..]), next, k);
      done
  }

  /** The engine calls of a trace with one more step in front. */
  lemma EngineCallsCons(e: Effect, trace: seq<Effect>)
    ensures EngineCalls([e] + trace) == (if e.Engine? then [e.call] else []) + EngineCalls(trace)
  {
    assert ([e] + trace)[1..] == trace;
  }

  /** Taking `next + 1` calls after a head of at most one call takes `k + 1` calls in all. */
  lemma PrefixAfterHead(head: seq<Call>, later: seq<Call>, next: nat, k: nat)
    requires |head| <= 1 && k == next + |head|
    ensures head + later[..Min(next + 1, |later|)] == (head + later)[..Min(k + 1, |head| + |later|)]
  {
  }

  /** The trace of a run: all of `plan`, or its cut when engine call `failure` rejects. */
  function Interrupted(plan: seq<Effect>, failure: Option<nat>): (trace: seq<Effect>)
    ensures trace <= plan
    ensures failure.None? ==> trace == plan
    ensures EngineCalls(trace) <= EngineCalls(plan)
  {
    match failure
    case None => plan
    case Some(k) => CutAfterCall(plan, k)
  }
}
