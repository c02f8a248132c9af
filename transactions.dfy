/** The discipline every factory operation follows on its connection: issue a fixed script of
    calls in order; the first call that throws ends the script, and the operation then aborts and
    rethrows that same exception; a script that goes through ends with a successful commit. */
module Transactions {
  import opened Errors
  import opened Db

  /** One step of an operation: a call issued on the connection, or a local computation between
      calls that may throw without touching the connection (generating an id, reading a column
      of a result set). */
  datatype Step = Issue(op: Op) | Check(outcome: Outcome)

  /** What performing a script did: the calls it issued and whether it threw. */
  datatype Run = Run(issued: seq<Op>, outcome: Outcome)

  /** The connection calls of one step. */
  function OpsOf(s: Step): seq<Op>
  {
    match s
    case Issue(op) => [op]
    case Check(_) => []
  }

  /** The connection calls of a script, in order. */
  function Ops(script: seq<Step>): seq<Op>
    decreases |script|
  {
    if script == [] then [] else OpsOf(script[0]) + Ops(script[1..])
  }

  /** Whether step `s` throws when `before` has already been issued on connection `serial`. */
  function StepOutcome(b: Backend, serial: nat, before: seq<Op>, s: Step): Outcome
  {
    match s
    case Issue(op) => b.fault(Request(serial, before, op))
    case Check(o) => o
  }

  /** Step `k` of `script` is the first that throws. */
  ghost predicate FirstFaultAt(b: Backend, serial: nat, before: seq<Op>, script: seq<Step>, k: nat)
  {
    && k < |script|
    && (forall i :: 0 <= i < k ==> StepOutcome(b, serial, before + Ops(script[..i]), script[i]).Pass?)
    && StepOutcome(b, serial, before + Ops(script[..k]), script[k]).Fail?
  }

  /** Performs `script` on connection `serial`, `before` having been issued already, up to and
      including the first step that throws. */
  function Perform(b: Backend, serial: nat, before: seq<Op>, script: seq<Step>): Run
    decreases |script|
  {
    if script == [] then Run([], Pass)
    else
      var o := StepOutcome(b, serial, before, script[0]);
      if o.Fail? then Run(OpsOf(script[0]), o)
      else
        var rest := Perform(b, serial, before + OpsOf(script[0]), script[1..]);
        Run(OpsOf(script[0]) + rest.issued, rest.outcome)
  }

  /** The run of a script whose calls `issued` went through first and which then went on as `rest`. */
  function Then(issued: seq<Op>, rest: Run): Run
  {
    Run(issued + rest.issued, rest.outcome)
  }

  /** Before any step, the whole script is still ahead. */
  lemma Begin(b: Backend, serial: nat, script: seq<Step>)
    ensures Perform(b, serial, [], script) == Then([], Perform(b, serial, [], script[0..]))
  {
  }

  /** Once the first `k` steps went through having issued `issued`, and step `k` goes through too,
      the rest of the script starts after step `k`. */
  lemma Advance(b: Backend, serial: nat, script: seq<Step>, k: nat, issued: seq<Op>, next: seq<Op>)
    requires k < |script|
    requires Perform(b, serial, [], script) == Then(issued, Perform(b, serial, issued, script[k..]))
    requires StepOutcome(b, serial, issued, script[k]).Pass?
    requires next == issued + OpsOf(script[k])
    ensures Perform(b, serial, [], script) == Then(next, Perform(b, serial, next, script[k + 1..]))
  {
    assert script[k..][0] == script[k];
    assert script[k..][1..] == script[k + 1..];
    var rest := Perform(b, serial, issued + OpsOf(script[k]), script[k + 1..]);
    assert Perform(b, serial, issued, script[k..]) == Then(OpsOf(script[k]), rest);
    assert issued + (OpsOf(script[k]) + rest.issued) == (issued + OpsOf(script[k])) + rest.issued;
  }

  /** A local step that goes through issues nothing and leaves the rest of the run as it was. */
  lemma PerformPastCheck(b: Backend, serial: nat, before: seq<Op>, rest: seq<Step>)
    ensures Perform(b, serial, before, [Check(Pass)] + rest) == Perform(b, serial, before, rest)
  {
    assert ([Check(Pass)] + rest)[1..] == rest;
    assert before + [] == before;
  }

  /** The state a try block leaves behind: the issued calls, and a connection committed if the
      script went through and still open if it threw. */
  ghost predicate Attempted(log: seq<Op>, status: Status, run: Run)
  {
    log == run.issued && status == (if run.outcome.Pass? then Committed else Open)
  }

  /** The state a whole factory operation leaves behind: committed with exactly the script's
      calls logged if it went through; otherwise aborted right after the step that threw. */
  ghost predicate Concluded(log: seq<Op>, status: Status, run: Run)
  {
    if run.outcome.Pass? then log == run.issued && status == Committed
    else log == run.issued + [Op.Abort] && status == Aborted
  }

  lemma {:induction false} OpsAppend(s: seq<Step>, t: seq<Step>)
    ensures Ops(s + t) == Ops(s) + Ops(t)
    decreases |s|
  {
    if s == [] {
      assert s + t == t;
    } else {
      assert (s + t)[0] == s[0];
      assert (s + t)[1..] == s[1..] + t;
      OpsAppend(s[1..], t);
    }
  }

  /** The calls of the first `k + 1` steps are those of the first `k` followed by step `k`'s. */
  lemma OpsTake(script: seq<Step>, k: nat)
    requires k < |script|
    ensures Ops(script[..k + 1]) == Ops(script[..k]) + OpsOf(script[k])
  {
    assert script[..k + 1] == script[..k] + [script[k]];
    OpsAppend(script[..k], [script[k]]);
    assert Ops([script[k]]) == OpsOf(script[k]) + Ops([]);
  }

  /** Dropping the first step of a prefix. */
  lemma OpsTail(script: seq<Step>, k: nat)
    requires 0 < k <= |script|
    ensures Ops(script[..k]) == OpsOf(script[0]) + Ops(script[1..][..k - 1])
  {
    assert script[..k][0] == script[0];
    assert script[..k][1..] == script[1..][..k - 1];
  }

  /** A script goes through exactly when none of its steps throws, and then every one of its
      calls has been issued, in order. */
  lemma {:induction false} PerformGoesThrough(b: Backend, serial: nat, before: seq<Op>, script: seq<Step>)
    ensures var run := Perform(b, serial, before, script);
            run.outcome.Pass? <==>
              forall i :: 0 <= i < |script| ==> StepOutcome(b, serial, before + Ops(script[..i]), script[i]).Pass?
    ensures var run := Perform(b, serial, before, script);
            run.outcome.Pass? ==> run.issued == Ops(script)
    decreases |script|
  {
    if script != [] {
      var here := OpsOf(script[0]);
      var tail := script[1..];
      assert Ops(script[..0]) == [];
      assert before + Ops(script[..0]) == before;
      if StepOutcome(b, serial, before, script[0]).Pass? {
        PerformGoesThrough(b, serial, before + here, tail);
        forall i | 1 <= i < |script|
          ensures before + Ops(script[..i]) == (before + here) + Ops(tail[..i - 1])
          ensures script[i] == tail[i - 1]
        {
          OpsTail(script, i);
        }
        var all := forall i :: 0 <= i < |script| ==> StepOutcome(b, serial, before + Ops(script[..i]), script[i]).Pass?;
        var allTail := forall j :: 0 <= j < |tail| ==> StepOutcome(b, serial, (before + here) + Ops(tail[..j]), tail[j]).Pass?;
        if allTail {
          forall i | 0 <= i < |script|
            ensures StepOutcome(b, serial, before + Ops(script[..i]), script[i]).Pass?
          {
            if i > 0 {
              assert StepOutcome(b, serial, (before + here) + Ops(tail[..i - 1]), tail[i - 1]).Pass?;
            }
          }
        }
        if all {
          forall j | 0 <= j < |tail|
            ensures StepOutcome(b, serial, (before + here) + Ops(tail[..j]), tail[j]).Pass?
          {
            assert StepOutcome(b, serial, before + Ops(script[..j + 1]), script[j + 1]).Pass?;
          }
        }
      }
    }
  }

  /** The index of the first step of `script` that throws, or `|script|` if none does. */
  function FaultIndex(b: Backend, serial: nat, before: seq<Op>, script: seq<Step>): (k: nat)
    ensures k <= |script|
    decreases |script|
  {
    if script == [] then 0
    else if StepOutcome(b, serial, before, script[0]).Fail? then 0
    else 1 + FaultIndex(b, serial, before + OpsOf(script[0]), script[1..])
  }

  /** A script that throws has issued its calls up to and including the first step that throws,
      and surfaces exactly that step's exception. */
  lemma {:induction false} PerformStopsAtFirstFault(b: Backend, serial: nat, before: seq<Op>, script: seq<Step>)
    requires Perform(b, serial, before, script).outcome.Fail?
    ensures var k := FaultIndex(b, serial, before, script);
            && FirstFaultAt(b, serial, before, script, k)
            && Perform(b, serial, before, script).issued == Ops(script[..k + 1])
            && Perform(b, serial, before, script).outcome == StepOutcome(b, serial, before + Ops(script[..k]), script[k])
    decreases |script|
  {
    var here := OpsOf(script[0]);
    var tail := script[1..];
    assert Ops(script[..0]) == [];
    assert before + Ops(script[..0]) == before;
    if StepOutcome(b, serial, before, script[0]).Fail? {
      OpsTake(script, 0);
    } else {
      PerformStopsAtFirstFault(b, serial, before + here, tail);
      var j := FaultIndex(b, serial, before + here, tail);
      PrefixShift(b, serial, before, script, j);
      assert Ops(script[..j + 2]) == here + Ops(tail[..j + 1]) by { OpsTail(script, j + 2); }
      assert script[j + 1] == tail[j];
      assert before + Ops(script[..j + 1]) == (before + here) + Ops(tail[..j]) by { OpsTail(script, j + 1); }
    }
  }

  /** Stepping over a first step that goes through shifts the first fault by one. */
  lemma PrefixShift(b: Backend, serial: nat, before: seq<Op>, script: seq<Step>, j: nat)
    requires script != [] && StepOutcome(b, serial, before, script[0]).Pass?
    requires FirstFaultAt(b, serial, before + OpsOf(script[0]), script[1..], j)
    ensures FirstFaultAt(b, serial, before, script, j + 1)
  {
    var here := OpsOf(script[0]);
    var tail := script[1..];
    assert Ops(script[..0]) == [];
    assert before + Ops(script[..0]) == before;
    forall i | 1 <= i <= j + 1
      ensures before + Ops(script[..i]) == (before + here) + Ops(tail[..i - 1])
    {
      OpsTail(script, i);
    }
    forall i | 0 <= i < j + 1
      ensures StepOutcome(b, serial, before + Ops(script[..i]), script[i]).Pass?
    {
      if i > 0 {
        assert StepOutcome(b, serial, (before + here) + Ops(tail[..i - 1]), tail[i - 1]).Pass?;
      }
    }
    assert StepOutcome(b, serial, (before + here) + Ops(tail[..j]), tail[j]).Fail?;
  }

  /** The calls a run issues are the script's, in order, up to wherever it stopped. */
  lemma {:induction false} PerformIssuesPrefix(b: Backend, serial: nat, before: seq<Op>, script: seq<Step>)
    ensures Perform(b, serial, before, script).issued <= Ops(script)
    decreases |script|
  {
    if script != [] {
      if StepOutcome(b, serial, before, script[0]).Pass? {
        PerformIssuesPrefix(b, serial, before + OpsOf(script[0]), script[1..]);
      }
    }
  }

  /** A concluded operation whose script never aborts by itself is either committed, with no
      abort issued, or aborted, never both; and it is aborted exactly when it surfaces an exception. */
  lemma CommitOrAbort(b: Backend, serial: nat, script: seq<Step>, log: seq<Op>, status: Status)
    requires Op.Abort !in Ops(script)
    requires Concluded(log, status, Perform(b, serial, [], script))
    ensures status != Open
    ensures status == Committed <==> Op.Abort !in log
    ensures status == Aborted <==> Perform(b, serial, [], script).outcome.Fail?
  {
    PerformIssuesPrefix(b, serial, [], script);
  }
  /** A script that commits exactly once, as its last step, and never aborts by itself: the shape
      of every try block of the factories. */
  ghost predicate CommitsLast(script: seq<Step>)
  {
    && |script| > 0
    && script[|script| - 1] == Issue(Op.Commit)
    && (forall i :: 0 <= i < |script| ==> script[i] != Issue(Op.Abort))
    && (forall i :: 0 <= i < |script| - 1 ==> script[i] != Issue(Op.Commit))
  }

  /** A script none of whose steps issues `op` issues no `op`. */
  lemma {:induction false} OpsAvoid(s: seq<Step>, op: Op)
    requires forall i :: 0 <= i < |s| ==> s[i] != Issue(op)
    ensures op !in Ops(s)
    decreases |s|
  {
    if s != [] {
      assert s[0] != Issue(op);
      assert forall i :: 0 <= i < |s[1..]| ==> s[1..][i] == s[i + 1];
      OpsAvoid(s[1..], op);
    }
  }

  /** In a script that commits last, the commit is issued only once every other step went
      through, and a run that goes through has committed as its last call. */
  lemma CommitOnlyAfterEverything(b: Backend, serial: nat, script: seq<Step>)
    requires CommitsLast(script)
    ensures Op.Abort !in Ops(script)
    ensures var run := Perform(b, serial, [], script);
            Op.Commit in run.issued ==> run.issued == Ops(script)
    ensures var run := Perform(b, serial, [], script);
            run.outcome.Pass? ==> |run.issued| > 0 && run.issued[|run.issued| - 1] == Op.Commit
  {
    var n := |script| - 1;
    var front := script[..n];
    assert script == front + [script[n]];
    OpsAppend(front, [script[n]]);
    assert [script[n]][1..] == [];
    assert Ops(script) == Ops(front) + [Op.Commit];
    OpsAvoid(script, Op.Abort);
    assert forall i :: 0 <= i < |front| ==> front[i] == script[i];
    OpsAvoid(front, Op.Commit);
    var run := Perform(b, serial, [], script);
    PerformIssuesPrefix(b, serial, [], script);
    PerformGoesThrough(b, serial, [], script);
  }
}
