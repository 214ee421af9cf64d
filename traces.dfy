/**
 * What a logger's state becomes over a sequence of calls. Each `Call` stands
 * for any of the twelve public methods at that level (an `Xf` method with the
 * message its formatter returned); their effect on the state is `Log`, and
 * their outcome (return, panic or exit) does not change the state.
 *
 * A sequence of operations is one the program actually makes: it never goes on
 * past a Fatal call (os.Exit ends the process), and a call after a Panic is one
 * made once the panic was recovered. `Run` itself does not stop at an exit, so
 * the lemmas below cover these sequences and more.
 */
module GLogTraces {
  import opened GLog

  datatype Op = SetLevel(level: int) | SetFlags(flag: int) | Call(lvl: int, message: string)

  /** Every call is at one of the six severity levels, as the public methods are. */
  predicate ValidOps(ops: seq<Op>) {
    forall i :: 0 <= i < |ops| ==> (ops[i].Call? ==> IsSeverity(ops[i].lvl))
  }

  predicate NoSetLevel(ops: seq<Op>) {
    forall i :: 0 <= i < |ops| ==> !ops[i].SetLevel?
  }

  predicate OnlyCalls(ops: seq<Op>) {
    forall i :: 0 <= i < |ops| ==> ops[i].Call?
  }

  /** One operation: SetLevel and SetFlags as in glog.go:58-66, a call as doLog. */
  function Apply(s: LoggerState, op: Op): (r: LoggerState)
    requires op.Call? ==> IsSeverity(op.lvl)
    ensures r.tf == s.tf && s.written <= r.written
    ensures !op.SetLevel? ==> r.level == s.level
  {
    match op
    case SetLevel(l) => s.(level := l)
    case SetFlags(f) => s.(flags := f)
    case Call(lvl, m) => Log(s, lvl, m)
  }

  /** The operations applied one after the other: the sink only ever grows. */
  function Run(s: LoggerState, ops: seq<Op>): (r: LoggerState)
    requires ValidOps(ops)
    ensures r.tf == s.tf && s.written <= r.written
    decreases |ops|
  {
    if ops == [] then s else Run(Apply(s, ops[0]), ops[1..])
  }

  /** Reference definition of what the sink receives under a fixed threshold:
      the line of every call at or above it, in call order. */
  function Emitted(threshold: int, ops: seq<Op>): (lines: seq<string>)
    requires ValidOps(ops)
    ensures |lines| <= |ops|
    ensures forall i :: 0 <= i < |lines| ==> Tagged(lines[i])
    decreases |ops|
  {
    if ops == [] then []
    else
      var head := if ops[0].Call? && ops[0].lvl >= threshold then [Line(ops[0].lvl, ops[0].message)] else [];
      head + Emitted(threshold, ops[1..])
  }

  lemma {:induction false} RunConcat(s: LoggerState, ops1: seq<Op>, ops2: seq<Op>)
    requires ValidOps(ops1) && ValidOps(ops2)
    ensures ValidOps(ops1 + ops2)
    ensures Run(s, ops1 + ops2) == Run(Run(s, ops1), ops2)
    decreases |ops1|
  {
    if ops1 != [] {
      assert (ops1 + ops2)[1..] == ops1[1..] + ops2;
      RunConcat(Apply(s, ops1[0]), ops1[1..], ops2);
    } else {
      assert ops1 + ops2 == ops2;
    }
  }

  /** Every operation keeps the logger well formed. */
  lemma {:induction false} RunPreservesWellFormed(s: LoggerState, ops: seq<Op>)
    requires ValidOps(ops) && WellFormed(s)
    ensures WellFormed(Run(s, ops))
    decreases |ops|
  {
    if ops != [] {
      RunPreservesWellFormed(Apply(s, ops[0]), ops[1..]);
    }
  }

  /** With no SetLevel in between, the threshold stays and the sink receives exactly Emitted. */
  lemma {:induction false} RunWritesEmitted(s: LoggerState, ops: seq<Op>)
    requires ValidOps(ops) && NoSetLevel(ops)
    ensures Run(s, ops).level == s.level
    ensures Run(s, ops).written == s.written + Emitted(s.level, ops)
    decreases |ops|
  {
    if ops != [] {
      var t := Apply(s, ops[0]);
      RunWritesEmitted(t, ops[1..]);
    }
  }

  /** A threshold set by SetLevel governs every later call, whatever came before. */
  lemma SetLevelGovernsLaterCalls(s: LoggerState, before: seq<Op>, level: int, ops: seq<Op>)
    requires ValidOps(before) && ValidOps(ops) && NoSetLevel(ops)
    ensures ValidOps(before + [SetLevel(level)] + ops)
    ensures Run(s, before + [SetLevel(level)] + ops).written == Run(s, before).written + Emitted(level, ops)
  {
    var after := [SetLevel(level)] + ops;
    assert after[0] == SetLevel(level) && after[1..] == ops;
    assert ValidOps(after);
    RunConcat(s, before, after);
    assert before + after == before + [SetLevel(level)] + ops;
    RunWritesEmitted(Run(s, before).(level := level), ops);
  }

  /** Above LevelFatal (LevelNone, say) no call writes anything. */
  lemma {:induction false} EmittedAboveFatal(threshold: int, ops: seq<Op>)
    requires ValidOps(ops) && threshold > LevelFatal
    ensures Emitted(threshold, ops) == []
    decreases |ops|
  {
    if ops != [] {
      EmittedAboveFatal(threshold, ops[1..]);
    }
  }

  /** Above LevelFatal neither the sink nor the prefix changes, whatever is called. */
  lemma {:induction false} RunAboveFatalWritesNothing(s: LoggerState, ops: seq<Op>)
    requires ValidOps(ops) && NoSetLevel(ops) && s.level > LevelFatal
    ensures Run(s, ops).written == s.written && Run(s, ops).prefix == s.prefix
    decreases |ops|
  {
    if ops != [] {
      RunAboveFatalWritesNothing(Apply(s, ops[0]), ops[1..]);
    }
  }

  /** At threshold LevelDebug (a new logger's) every call writes its own line, in order. */
  lemma {:induction false} EmittedAtDebug(threshold: int, ops: seq<Op>)
    requires ValidOps(ops) && OnlyCalls(ops) && threshold <= LevelDebug
    ensures |Emitted(threshold, ops)| == |ops|
    ensures forall i :: 0 <= i < |ops| ==> Emitted(threshold, ops)[i] == Line(ops[i].lvl, ops[i].message)
    decreases |ops|
  {
    if ops != [] {
      EmittedAtDebug(threshold, ops[1..]);
      var rest := Emitted(threshold, ops[1..]);
      assert Emitted(threshold, ops) == [Line(ops[0].lvl, ops[0].message)] + rest;
      forall i | 1 <= i < |ops|
        ensures Emitted(threshold, ops)[i] == Line(ops[i].lvl, ops[i].message)
      {
        assert ops[1..][i - 1] == ops[i];
      }
    }
  }
}
