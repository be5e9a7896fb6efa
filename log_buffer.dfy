/**
 * The debug console's log history: formatted log lines, newest last,
 * bounded to the most recent LOG_CAPACITY lines, and a pause switch that
 * makes the logger drop new lines instead of recording them.
 */
module DebugLog {
  import opened BoundedSeq

  /** Most log lines the console keeps. */
  const LOG_CAPACITY: nat := 100

  /** The history after logging `line`. */
  function Logged(entries: seq<string>, paused: bool, line: string): (r: seq<string>)
    ensures paused ==> r == entries
    ensures !paused ==> r != [] && r[|r| - 1] == line
    ensures !paused ==> |r| == if |entries| < LOG_CAPACITY then |entries| + 1 else LOG_CAPACITY
    ensures !paused ==> entries == entries[..|entries| + 1 - |r|] + r[..|r| - 1]
  {
    if paused then entries else KeepNewest(entries + [line], LOG_CAPACITY)
  }

  /** Lines logged in order while not paused. */
  function LogAll(entries: seq<string>, lines: seq<string>): seq<string>
    decreases |lines|
  {
    if lines == [] then entries else LogAll(Logged(entries, false, lines[0]), lines[1..])
  }

  /** Of the lines logged in order while not paused, the newest LOG_CAPACITY survive. */
  lemma {:induction false} LogAllKeepsNewest(entries: seq<string>, lines: seq<string>)
    requires |entries| <= LOG_CAPACITY
    ensures LogAll(entries, lines) == KeepNewest(entries + lines, LOG_CAPACITY)
    decreases |lines|
  {
    if lines != [] {
      var full := entries + [lines[0]];
      assert entries + lines == full + lines[1..];
      LogAllKeepsNewest(KeepNewest(full, LOG_CAPACITY), lines[1..]);
      KeepNewestAppend(full, lines[1..], LOG_CAPACITY);
    }
  }

  class LogBuffer {
    var entries: seq<string>
    var paused: bool

    ghost predicate Valid()
      reads this
    {
      |entries| <= LOG_CAPACITY
    }

    constructor ()
      ensures Valid() && entries == [] && !paused
    {
      entries := [];
      paused := false;
    }

    /** Record one formatted line unless logging is paused. */
    method Log(line: string)
      modifies this`entries
      ensures entries == Logged(old(entries), paused, line)
      ensures old(Valid()) ==> Valid()
    {
      if !paused {
        entries := entries + [line];
        ghost var full := entries;
        while |entries| > LOG_CAPACITY
          invariant |entries| <= |full|
          invariant entries == full[|full| - |entries|..]
          invariant |entries| < |full| ==> |entries| >= LOG_CAPACITY
          decreases |entries|
        {
          entries := entries[1..];
        }
      }
    }

    /**
     * The console's pause button: flip the switch, then log a notice of the
     * new state. The "paused" notice is itself dropped; the "resumed" one is
     * recorded.
     */
    method TogglePause(pausedNotice: string, resumedNotice: string)
      modifies this
      ensures paused == !old(paused)
      ensures paused ==> entries == old(entries)
      ensures !paused ==> entries == Logged(old(entries), false, resumedNotice)
      ensures old(Valid()) ==> Valid()
    {
      paused := !paused;
      if paused {
        Log(pausedNotice);
      } else {
        Log(resumedNotice);
      }
    }

    /** The console's clear button: empty the history, then log that it was cleared. */
    method Clear(clearedNotice: string)
      modifies this`entries
      ensures Valid()
      ensures entries == if paused then [] else [clearedNotice]
    {
      entries := [];
      Log(clearedNotice);
    }
  }
}
