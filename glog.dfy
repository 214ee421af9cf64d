/**
 * A leveled logger: a threshold, a filter in front of one line writer, and a
 * severity tag put in front of every line it lets through.
 *
 * The wrapped line writer (Go's log.Logger) is abstracted by the state it
 * keeps for this logger: its prefix, its flag bits, and the sequence of lines
 * it has been asked to write.
 */
module GLog {

  // Severity levels, in ascending order (glog.go:10-18).
  const LevelDebug: int := 0
  const LevelInfo: int := 1
  const LevelWarn: int := 2
  const LevelError: int := 3
  const LevelPanic: int := 4
  const LevelFatal: int := 5
  /** Not a severity: a threshold above every severity, so nothing is written. */
  const LevelNone: int := 6

  // Flag bits, handed unchanged to the line writer (glog.go:20-28).
  const Ldate: int := 1
  const Ltime: int := 2
  const Lmicroseconds: int := 4
  const Llongfile: int := 8
  const Lshortfile: int := 16
  const LUTC: int := 32
  const LstdFlags: int := Ldate + Ltime  // the two bits are disjoint, so + is their OR

  /** The tag of each severity, indexed by level (glog.go:30-37). */
  const LevelName: seq<string> := ["DEBU", "INFO", "WARN", "ERRO", "PANI", "FATA"]

  /** The levels the public methods log at: exactly the indices of LevelName. */
  predicate IsSeverity(lvl: int) {
    LevelDebug <= lvl <= LevelFatal
  }

  lemma LevelOrder()
    ensures LevelDebug < LevelInfo < LevelWarn < LevelError < LevelPanic < LevelFatal < LevelNone
    ensures |LevelName| == LevelNone
    ensures forall lvl :: IsSeverity(lvl) <==> 0 <= lvl < |LevelName|
  {
  }

  /** levelName[lvl]: four upper-case letters, and no other severity has the same tag. */
  function Tag(lvl: int): (t: string)
    requires IsSeverity(lvl)
    ensures |t| == 4
    ensures forall i :: 0 <= i < |t| ==> 'A' <= t[i] <= 'Z'
    ensures forall k :: IsSeverity(k) && LevelName[k] == t ==> k == lvl
  {
    LevelName[lvl]
  }

  /** A line as this logger writes it: a tag, one space, then the message. */
  predicate Tagged(line: string) {
    |line| >= 5 && line[..4] in LevelName && line[4] == ' '
  }

  /** The line written for `message` at level `lvl`: prefix `Tag(lvl) + " "`, then the message. */
  function Line(lvl: int, message: string): (r: string)
    requires IsSeverity(lvl)
    ensures |r| == |message| + 5
    ensures r[..4] == LevelName[lvl] && r[4] == ' ' && r[5..] == message
    ensures Tagged(r)
  {
    Tag(lvl) + " " + message
  }

  /** The line determines both the level it was written at and the message. */
  lemma LineInjective(lvl1: int, message1: string, lvl2: int, message2: string)
    requires IsSeverity(lvl1) && IsSeverity(lvl2)
    requires Line(lvl1, message1) == Line(lvl2, message2)
    ensures lvl1 == lvl2 && message1 == message2
  {
  }

  /** What a public method does after its line was (or was not) written;
      Go's panic and os.Exit become values. */
  datatype Outcome = Returned | Panicked(payload: string) | Exited(code: int)

  /** The formatting function (fmt.Sprintf): some deterministic function of the
      format string and the arguments, about which nothing else is assumed. */
  type Formatter<-A> = (string, seq<A>) -> string

  /** All the state of one logger: its threshold, the wrapped writer's flags and
      prefix, the lines written so far, and the stored time format. */
  datatype LoggerState = LoggerState(level: int, flags: int, prefix: string, written: seq<string>, tf: string)

  /** The prefix is unset or a tag and a space, and every line written is tagged. */
  ghost predicate WellFormed(s: LoggerState) {
    (s.prefix == "" || (|s.prefix| == 5 && Tagged(s.prefix))) &&
    forall i :: 0 <= i < |s.written| ==> Tagged(s.written[i])
  }

  /** The effect of doLog(lvl, message) on a logger in state `s` (glog.go:68-74). */
  function Log(s: LoggerState, lvl: int, message: string): (r: LoggerState)
    requires IsSeverity(lvl)
    ensures r.level == s.level && r.flags == s.flags && r.tf == s.tf
    ensures lvl < s.level ==> r == s
    ensures lvl >= s.level ==> r.prefix == Tag(lvl) + " " && r.written == s.written + [Line(lvl, message)]
    ensures r.written == s.written <==> lvl < s.level
    ensures WellFormed(s) ==> WellFormed(r)
  {
    if lvl < s.level then s
    else s.(prefix := Tag(lvl) + " ", written := s.written + [Line(lvl, message)])
  }

  /** A logger (glog.go:52-56). The fields `flags`, `prefix` and `written` stand
      for the wrapped log.Logger, which only this logger uses. */
  class Logger {
    var level: int
    var flags: int
    var prefix: string
    var written: seq<string>
    var tf: string

    ghost function State(): LoggerState
      reads this
    {
      LoggerState(level, flags, prefix, written, tf)
    }

    ghost predicate Valid()
      reads this
    {
      WellFormed(State())
    }

    /** New: a logger with threshold LevelDebug (the zero value), no flags, no prefix, nothing written. */
    constructor New()
      ensures Valid()
      ensures State() == LoggerState(LevelDebug, 0, "", [], "")
      ensures forall lvl :: IsSeverity(lvl) ==> lvl >= level
    {
      level := 0;
      flags := 0;
      prefix := "";
      written := [];
      tf := "";
    }

    /** NewWithTimeFormat: as New, and the time format is stored (nothing reads it). */
    constructor NewWithTimeFormat(timeFormat: string)
      ensures Valid()
      ensures State() == LoggerState(LevelDebug, 0, "", [], timeFormat)
      ensures forall lvl :: IsSeverity(lvl) ==> lvl >= level
    {
      level := 0;
      flags := 0;
      prefix := "";
      written := [];
      tf := timeFormat;
    }

    method SetFlags(flag: int) returns (self: Logger)
      requires Valid()
      modifies this`flags
      ensures Valid() && self == this
      ensures State() == old(State()).(flags := flag)
    {
      flags := flag;
      self := this;
    }

    method SetLevel(level: int) returns (self: Logger)
      requires Valid()
      modifies this`level
      ensures Valid() && self == this
      ensures State() == old(State()).(level := level)
    {
      this.level := level;
      self := this;
    }

    /** doLog: only a level within LevelName is ever passed, by the public methods below. */
    method DoLog(lvl: int, message: string)
      requires Valid() && IsSeverity(lvl)
      modifies this`prefix, this`written
      ensures Valid()
      ensures State() == Log(old(State()), lvl, message)
    {
      if lvl < level {
        return;
      }
      ghost var before := State();
      prefix := LevelName[lvl] + " ";
      written := written + [prefix + message];
      assert State() == Log(before, lvl, message);
    }

    method Debug(message: string) returns (o: Outcome)
      requires Valid()
      modifies this`prefix, this`written
      ensures Valid()
      ensures State() == Log(old(State()), LevelDebug, message)
      ensures o == Returned
    {
      DoLog(LevelDebug, message);
      o := Returned;
    }

    method Info(message: string) returns (o: Outcome)
      requires Valid()
      modifies this`prefix, this`written
      ensures Valid()
      ensures State() == Log(old(State()), LevelInfo, message)
      ensures o == Returned
    {
      DoLog(LevelInfo, message);
      o := Returned;
    }

    method Warn(message: string) returns (o: Outcome)
      requires Valid()
      modifies this`prefix, this`written
      ensures Valid()
      ensures State() == Log(old(State()), LevelWarn, message)
      ensures o == Returned
    {
      DoLog(LevelWarn, message);
      o := Returned;
    }

    method Error(message: string) returns (o: Outcome)
      requires Valid()
      modifies this`prefix, this`written
      ensures Valid()
      ensures State() == Log(old(State()), LevelError, message)
      ensures o == Returned
    {
      DoLog(LevelError, message);
      o := Returned;
    }

    /** Panic panics with the message whether or not the threshold let the line through. */
    method Panic(message: string) returns (o: Outcome)
      requires Valid()
      modifies this`prefix, this`written
      ensures Valid()
      ensures State() == Log(old(State()), LevelPanic, message)
      ensures o == Panicked(message)
    {
      DoLog(LevelPanic, message);
      o := Panicked(message);
    }

    /** Fatal exits with status 1 whether or not the threshold let the line through. */
    method Fatal(message: string) returns (o: Outcome)
      requires Valid()
      modifies this`prefix, this`written
      ensures Valid()
      ensures State() == Log(old(State()), LevelFatal, message)
      ensures o == Exited(1)
    {
      DoLog(LevelFatal, message);
      o := Exited(1);
    }

    method Debugf<A>(sprintf: Formatter<A>, formatStr: string, args: seq<A>) returns (o: Outcome)
      requires Valid()
      modifies this`prefix, this`written
      ensures Valid()
      ensures State() == Log(old(State()), LevelDebug, sprintf(formatStr, args))
      ensures o == Returned
    {
      DoLog(LevelDebug, sprintf(formatStr, args));
      o := Returned;
    }

    method Infof<A>(sprintf: Formatter<A>, formatStr: string, args: seq<A>) returns (o: Outcome)
      requires Valid()
      modifies this`prefix, this`written
      ensures Valid()
      ensures State() == Log(old(State()), LevelInfo, sprintf(formatStr, args))
      ensures o == Returned
    {
      DoLog(LevelInfo, sprintf(formatStr, args));
      o := Returned;
    }

    method Warnf<A>(sprintf: Formatter<A>, formatStr: string, args: seq<A>) returns (o: Outcome)
      requires Valid()
      modifies this`prefix, this`written
      ensures Valid()
      ensures State() == Log(old(State()), LevelWarn, sprintf(formatStr, args))
      ensures o == Returned
    {
      DoLog(LevelWarn, sprintf(formatStr, args));
      o := Returned;
    }

    method Errorf<A>(sprintf: Formatter<A>, formatStr: string, args: seq<A>) returns (o: Outcome)
      requires Valid()
      modifies this`prefix, this`written
      ensures Valid()
      ensures State() == Log(old(State()), LevelError, sprintf(formatStr, args))
      ensures o == Returned
    {
      DoLog(LevelError, sprintf(formatStr, args));
      o := Returned;
    }

    /** Panicf formats twice; the payload is the very string it logged. */
    method Panicf<A>(sprintf: Formatter<A>, formatStr: string, args: seq<A>) returns (o: Outcome)
      requires Valid()
      modifies this`prefix, this`written
      ensures Valid()
      ensures State() == Log(old(State()), LevelPanic, sprintf(formatStr, args))
      ensures o == Panicked(sprintf(formatStr, args))
    {
      DoLog(LevelPanic, sprintf(formatStr, args));
      o := Panicked(sprintf(formatStr, args));
    }

    method Fatalf<A>(sprintf: Formatter<A>, formatStr: string, args: seq<A>) returns (o: Outcome)
      requires Valid()
      modifies this`prefix, this`written
      ensures Valid()
      ensures State() == Log(old(State()), LevelFatal, sprintf(formatStr, args))
      ensures o == Exited(1)
    {
      DoLog(LevelFatal, sprintf(formatStr, args));
      o := Exited(1);
    }
  }

  /** A client: with the threshold at LevelWarn only Warn and above are
      written. Fatal ends the process, so it is the last call. */
  method ThresholdClient() {
    var log := new Logger.New();
    var self := log.SetLevel(LevelWarn);
    var o := log.Info("x");
    assert log.written == [] && o == Returned;
    o := log.Warn("y");
    assert Line(LevelWarn, "y") == "WARN y";
    o := log.Error("z");
    assert Line(LevelError, "z") == "ERRO z";
    assert log.written == ["WARN y", "ERRO z"];
    o := log.Fatal("boom");
    assert Line(LevelFatal, "boom") == "FATA boom";
    assert log.written == ["WARN y", "ERRO z", "FATA boom"] && o == Exited(1);
  }

  /** A client: with the threshold at LevelNone nothing is written, yet Panic
      still panics (a caller that recovers the panic goes on) and Fatal still
      exits, as its last call. */
  method SuppressedClient() {
    var log := new Logger.New();
    var self := log.SetLevel(LevelNone);
    var o := log.Panic("lost");
    assert o == Panicked("lost");
    o := log.Fatal("lost");
    assert o == Exited(1);
    assert log.written == [] && log.prefix == "";
  }
}
