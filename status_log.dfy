/** The rolling status log of the dashboard: `addLog` keeps the last three
    entries and appends the new message prefixed with "> ", so the log is a
    first-in first-out window of at most four lines. */
module StatusLog {

  const KEPT: nat := 3
  const WINDOW: nat := 4

  /** The last n elements of s (all of s when it is shorter), as
      `s.slice(-n)` gives them for a positive n (`slice(-0)` keeps all). */
  function LastN<T>(s: seq<T>, n: nat): (r: seq<T>)
    requires n > 0
    ensures |r| == if |s| < n then |s| else n
  {
    if |s| <= n then s else s[|s| - n..]
  }

  /** How a message is shown in the log. */
  function Entry(msg: string): string {
    "> " + msg
  }

  /** The log after `addLog(msg)`. */
  function AppendLog(logs: seq<string>, msg: string): (r: seq<string>)
    ensures |r| <= WINDOW
    ensures |r| == (if |logs| < KEPT then |logs| else KEPT) + 1
    ensures r[|r| - 1] == "> " + msg
    ensures forall i :: 0 <= i < |r| - 1 ==> r[i] == logs[|logs| - (|r| - 1) + i]
  {
    LastN(logs, KEPT) + [Entry(msg)]
  }

  /** The log after a series of `addLog` calls, in order. */
  function AppendAll(logs: seq<string>, msgs: seq<string>): seq<string>
  {
    if msgs == [] then logs else AppendLog(AppendAll(logs, msgs[..|msgs| - 1]), msgs[|msgs| - 1])
  }

  /** The entries a series of messages produces, unbounded. */
  function Entries(msgs: seq<string>): (r: seq<string>)
    ensures |r| == |msgs|
  {
    seq(|msgs|, i requires 0 <= i < |msgs| => Entry(msgs[i]))
  }

  /** Taking a window of a window is taking the window of the whole. */
  lemma LastNOfLastN<T>(s: seq<T>, t: seq<T>, n: nat)
    requires n > 0
    ensures LastN(LastN(s, n) + t, n) == LastN(s + t, n)
  {
  }

  /** One `addLog` is the four-line window of the log with the new entry. */
  lemma AppendLogWindow(logs: seq<string>, msg: string)
    ensures AppendLog(logs, msg) == LastN(logs + [Entry(msg)], WINDOW)
  {
  }

  /** Any series of `addLog` calls on a log of at most four lines leaves the
      last four of the old lines followed by the new entries: the log is a
      bounded FIFO queue of capacity four. */
  lemma {:induction false} LogKeepsLastFour(logs: seq<string>, msgs: seq<string>)
    requires |logs| <= WINDOW
    ensures AppendAll(logs, msgs) == LastN(logs + Entries(msgs), WINDOW)
  {
    if msgs == [] {
      assert logs + Entries(msgs) == logs;
    } else {
      var front, m := msgs[..|msgs| - 1], msgs[|msgs| - 1];
      LogKeepsLastFour(logs, front);
      AppendLogWindow(AppendAll(logs, front), m);
      LastNOfLastN(logs + Entries(front), [Entry(m)], WINDOW);
      assert logs + Entries(front) + [Entry(m)] == logs + Entries(msgs);
    }
  }
}
