# glog: a leveled logger, modelled in Dafny

`glog` wraps Go's line writer (`log.Logger`) with a severity threshold. Each of
the twelve public methods (`Debug`, `Info`, `Warn`, `Error`, `Panic`, `Fatal`
and their `...f` variants) hands a level and a message to one routine,
`doLog`. That routine drops the message when its level is below the
threshold. Otherwise it sets the writer's prefix to the level's four-letter
tag and a space, and writes one line. `Panic*` then panics with the message
and `Fatal*` then exits with status 1.

The model (`glog.dfy`, module `GLog`):

- The level constants, flag bits and the `levelName` table are constants (`LevelName`).
- `Logger` is a class whose fields are the threshold `level`, the time format `tf`,
  and the state of the wrapped writer: its `flags`, its `prefix`, and the sequence
  `written` of lines it was asked to write.
- `LoggerState` is the value of those fields. The function `Log` gives the effect of
  `doLog` on it, and every logging method is proved to change the object exactly
  as `Log` says.
- `panic` and `os.Exit` become an `Outcome` value: `Returned`, `Panicked(payload)`
  or `Exited(code)`.
- `fmt.Sprintf` is a function-valued parameter `sprintf` of the `...f` methods.
  Nothing is assumed about it except that it is a function, so calling it twice
  gives the same string.

`traces.dfy` (module `GLogTraces`) states what a sequence of calls does:

- `Run` applies `SetLevel`, `SetFlags` and logging calls one after another.
- `Emitted` is a reference definition of the lines written under a fixed threshold.
- The lemmas relate the two.

Facts about the code that the model keeps:

- `Panic`, `Panicf`, `Fatal` and `Fatalf` panic or exit unconditionally after
  `doLog` (glog.go:94, 99, 120, 125), even when the threshold suppressed the line.
- The unformatted methods take one string.
- There is no function that parses a tag back to a level or turns a level into a
  tag outside `doLog`, so neither is modelled. `Tag` is the table lookup `doLog`
  does, and `LineInjective` states that a written line determines its level and
  its message.

## Model

| member | source | states |
|---|---|---|
| GLog.LevelOrder | glog.go:10-18 | Debug < Info < Warn < Error < Panic < Fatal < None. The six severities are exactly the indices of the tag table. |
| GLog.Tag | glog.go:30-37 | A severity's tag is four upper-case letters, and no other severity has the same tag. |
| GLog.Line | glog.go:72-73 | A written line is the level's tag, one space, then the message, unchanged. |
| GLog.LineInjective | glog.go:30-37 | Two equal written lines come from the same level and the same message. |
| GLog.Log | glog.go:68-74 | Below the threshold nothing changes. At or above it the prefix becomes tag + space and exactly that one line is appended. The sink is unchanged iff the level is below the threshold. Threshold, flags and time format never change. |
| GLog.Logger.New | glog.go:39-43 | The threshold is LevelDebug, so every severity passes the filter. Flags, prefix and sink start empty. |
| GLog.Logger.NewWithTimeFormat | glog.go:45-50 | As New, and the time format is stored. |
| GLog.Logger.SetFlags | glog.go:58-61 | Returns the same logger. Only the flags change: threshold, prefix, sink and time format are untouched. |
| GLog.Logger.SetLevel | glog.go:63-66 | Returns the same logger. The threshold becomes exactly the argument and nothing else changes. |
| GLog.Logger.DoLog | glog.go:68-74 | For a level inside the tag table, the object's new state is `Log` of its old state. The logger stays well formed. |
| GLog.Logger.Debug | glog.go:76-78 | The state changes as doLog at LevelDebug, and the method returns normally. |
| GLog.Logger.Info | glog.go:80-82 | The state changes as doLog at LevelInfo, and the method returns normally. |
| GLog.Logger.Warn | glog.go:84-86 | The state changes as doLog at LevelWarn, and the method returns normally. |
| GLog.Logger.Error | glog.go:88-90 | The state changes as doLog at LevelError, and the method returns normally. |
| GLog.Logger.Panic | glog.go:92-95 | The state changes as doLog at LevelPanic. The method always panics with the message, whether or not the line was written. |
| GLog.Logger.Fatal | glog.go:97-100 | The state changes as doLog at LevelFatal. The method always exits with status 1, whether or not the line was written. |
| GLog.Logger.Debugf | glog.go:102-104 | As Debug applied to the formatted message. |
| GLog.Logger.Infof | glog.go:106-108 | As Info applied to the formatted message. |
| GLog.Logger.Warnf | glog.go:110-112 | As Warn applied to the formatted message. |
| GLog.Logger.Errorf | glog.go:114-116 | As Error applied to the formatted message. |
| GLog.Logger.Panicf | glog.go:118-121 | As Panic applied to the formatted message. The panic payload is the same string that was logged. |
| GLog.Logger.Fatalf | glog.go:123-126 | As Fatal applied to the formatted message. Always exits with status 1. |
| GLogTraces.Apply | glog.go:58-74 | No operation removes a written line or changes the time format. Only SetLevel changes the threshold. |
| GLogTraces.Run | glog.go:68-74 | Over any sequence of calls, the lines written earlier stay a prefix of the sink, so the sink is append-only. |
| GLogTraces.Emitted | glog.go:68-74 | Under a fixed threshold, at most one line is written per call, and every line is tagged. |
| GLogTraces.RunConcat | glog.go:58-74 | Running two call sequences one after the other is the same as running their concatenation. |
| GLogTraces.RunPreservesWellFormed | glog.go:68-74 | After any sequence of calls, the prefix is empty or a tag and a space, and every written line is tagged. |
| GLogTraces.RunWritesEmitted | glog.go:68-74 | Without SetLevel, the threshold stays fixed. The sink receives exactly the lines of the calls at or above the threshold, in call order. |
| GLogTraces.SetLevelGovernsLaterCalls | glog.go:63-66 | After SetLevel(l), whatever came before, the later calls write exactly the lines Emitted gives for threshold l. |
| GLogTraces.EmittedAboveFatal | glog.go:17 | Under a threshold above LevelFatal, such as LevelNone, no call writes anything. |
| GLogTraces.RunAboveFatalWritesNothing | glog.go:69-71 | Under a threshold above LevelFatal, neither the sink nor the prefix changes over any sequence of calls. |
| GLogTraces.EmittedAtDebug | glog.go:39-43 | At a new logger's threshold, LevelDebug, each call writes its own line in call order. |

## Left out

- The `io.Writer` destination and the internals of `log.Logger` are left out. `Output(3, …)` becomes appending the prefixed message to `written`. Timestamps, caller file and line, the call-depth argument and the newline that `Output` adds are not modelled.
- The meaning of the flag bits is left out. `SetFlags` stores the integer and nothing reads it.
- The formatting rules of `fmt.Sprintf` are left out, because it is a foreign library. It is an arbitrary function passed in by the caller.
- Real `panic` unwinding and `os.Exit` are left out. They become `Outcome` values, and the methods return them.
- Concurrent callers are left out; the source has no synchronization. Two races follow from that. A `SetLevel` during a call may or may not be seen by it. And `doLog` sets the shared prefix and then writes (glog.go:72-73) as two steps, so two concurrent calls can write a line carrying the other call's tag. What `Log`, `Line` and the lemmas say about tags holds for sequential use only.
- GLog.Logger.DoLog: requires a level inside the tag table (0 to 5). The Go function would index out of range for a level outside 0 to 5 that is at or above the threshold (a negative one too, after a negative `SetLevel`), but only the public methods call it, always with one of the six severity constants.
