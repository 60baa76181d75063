/** The command-line logger: every entry carries a level, and debug entries
    are shown only when the `verbose` option is set. */
module Logger {

  datatype Level = DEBUG | INFO | ERROR

  datatype Entry = Entry(level: Level, message: string)

  function LevelName(level: Level): string
  {
    match level
    case DEBUG => "DEBUG"
    case INFO => "INFO"
    case ERROR => "ERROR"
  }

  /** The console line an entry prints as when it is shown. */
  function Format(e: Entry): string
  {
    "[" + LevelName(e.level) + "] " + e.message
  }

  /** What one call `logger(level, message)` prints: nothing for a debug entry
      without `verbose`, otherwise one formatted line. */
  function Emit(verbose: bool, e: Entry): (lines: seq<string>)
    ensures |lines| <= 1
    ensures lines == [] <==> !verbose && e.level == DEBUG
    ensures lines != [] ==> lines[0] == Format(e)
  {
    if !verbose && e.level == DEBUG then [] else [Format(e)]
  }

  /** The console output of a sequence of logger calls. */
  function Output(verbose: bool, es: seq<Entry>): (lines: seq<string>)
    ensures |lines| <= |es|
    ensures verbose ==> |lines| == |es| && forall i :: 0 <= i < |es| ==> lines[i] == Format(es[i])
  {
    if |es| == 0 then [] else Emit(verbose, es[0]) + Output(verbose, es[1..])
  }

  /** The entries that are shown without `verbose`. */
  function NonDebug(es: seq<Entry>): (r: seq<Entry>)
    ensures forall e :: e in r <==> e in es && e.level != DEBUG
  {
    if |es| == 0 then []
    else (if es[0].level == DEBUG then [] else [es[0]]) + NonDebug(es[1..])
  }

  /** Without `verbose`, the output is exactly the verbose output of the
      non-debug entries, in their order. */
  lemma {:induction false} QuietOutputDropsDebug(es: seq<Entry>)
    ensures Output(false, es) == Output(true, NonDebug(es))
  {
    if |es| > 0 {
      assert Output(false, es) == Emit(false, es[0]) + Output(false, es[1..]);
      QuietOutputDropsDebug(es[1..]);
      OutputAppend(true, NonDebug([es[0]]), NonDebug(es[1..]));
      assert NonDebug([es[0]]) + NonDebug(es[1..]) == NonDebug(es);
      assert Output(true, NonDebug([es[0]])) == Emit(false, es[0]);
    }
  }

  lemma {:induction false} OutputAppend(verbose: bool, a: seq<Entry>, b: seq<Entry>)
    ensures Output(verbose, a + b) == Output(verbose, a) + Output(verbose, b)
  {
    if |a| > 0 {
      assert (a + b)[1..] == a[1..] + b;
      OutputAppend(verbose, a[1..], b);
    } else {
      assert a + b == b;
    }
  }

  /** No line printed without `verbose` comes from a debug entry. */
  lemma {:induction false} QuietOutputHasNoDebugLine(es: seq<Entry>)
    ensures forall l :: l in Output(false, es) ==> exists e :: e in es && e.level != DEBUG && l == Format(e)
  {
    QuietOutputDropsDebug(es);
    var nd := NonDebug(es);
    forall l | l in Output(false, es)
      ensures exists e :: e in es && e.level != DEBUG && l == Format(e)
    {
      var i :| 0 <= i < |nd| && Output(true, nd)[i] == l;
      assert nd[i] in nd;
    }
  }
}
