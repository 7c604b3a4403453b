/**
 * The entries `addLogMessage` appends to a demo view's `logMessages` array:
 * `"[" + timestamp + "] " + message`. In the app the timestamp comes from
 * `DateFormatter`; here it is a parameter, and a sequence of appends
 * takes its timestamps from a `clock` that maps each log position to the
 * text the clock showed when that entry was written.
 */
module EventLog {
  import opened Wrappers
  import opened Text

  function Stamp(timestamp: string, message: string): string {
    "[" + timestamp + "] " + message
  }

  predicate IsNotClose(c: char) { c != ']' }

  /** Splits an entry at its first `]` back into timestamp and message. */
  function Unstamp(entry: string): Option<(string, string)> {
    if |entry| == 0 || entry[0] != '[' then None
    else
      var close := Span(entry, 1, IsNotClose);
      if close + 1 < |entry| && entry[close + 1] == ' '
      then Some((entry[1..close], entry[close + 2..]))
      else None
  }

  /** A timestamp without `]` (DateFormatter's medium time style has none) can be read back. */
  lemma UnstampStamp(timestamp: string, message: string)
    requires ']' !in timestamp
    ensures Unstamp(Stamp(timestamp, message)) == Some((timestamp, message))
  {
    var e := Stamp(timestamp, message);
    var n := |timestamp|;
    assert forall j :: 1 <= j < n + 1 ==> e[j] == timestamp[j - 1];
    assert e[n + 1] == ']' && e[n + 2] == ' ';
    SpanIs(e, 1, IsNotClose, n + 1);
    assert e[1..n + 1] == timestamp;
    assert e[n + 3..] == message;
  }

  /** Conversely, every entry Unstamp accepts is the Stamp of what it returns. */
  lemma StampUnstamp(entry: string)
    requires Unstamp(entry).Some?
    ensures ']' !in Unstamp(entry).value.0
    ensures Stamp(Unstamp(entry).value.0, Unstamp(entry).value.1) == entry
  {
    var close := Span(entry, 1, IsNotClose);
    var t := entry[1..close];
    assert entry[close] == ']';
    assert forall i :: 0 <= i < |t| ==> t[i] == entry[i + 1];
    assert entry == [entry[0]] + t + [entry[close], entry[close + 1]] + entry[close + 2..];
  }

  /** The entries a run of appends produces, the first written at log position `start`. */
  function Stamped(clock: nat -> string, start: nat, messages: seq<string>): (entries: seq<string>)
    ensures |entries| == |messages|
    decreases messages
  {
    if messages == [] then []
    else [Stamp(clock(start), messages[0])] + Stamped(clock, start + 1, messages[1..])
  }

  lemma {:induction false} StampedAt(clock: nat -> string, start: nat, messages: seq<string>, k: nat)
    requires k < |messages|
    ensures Stamped(clock, start, messages)[k] == Stamp(clock(start + k), messages[k])
    decreases k
  {
    if k > 0 {
      StampedAt(clock, start + 1, messages[1..], k - 1);
    }
  }

  lemma {:induction false} StampedAppend(clock: nat -> string, start: nat, a: seq<string>, b: seq<string>)
    ensures Stamped(clock, start, a + b) == Stamped(clock, start, a) + Stamped(clock, start + |a|, b)
    decreases a
  {
    if a == [] {
      assert a + b == b;
    } else {
      assert (a + b)[1..] == a[1..] + b;
      StampedAppend(clock, start + 1, a[1..], b);
    }
  }

  lemma StampedSingle(clock: nat -> string, start: nat, m: string)
    ensures Stamped(clock, start, [m]) == [Stamp(clock(start), m)]
  {
    assert [m][1..] == [];
  }

  lemma StampedSnoc(clock: nat -> string, start: nat, said: seq<string>, m: string)
    ensures Stamped(clock, start, said + [m]) == Stamped(clock, start, said) + [Stamp(clock(start + |said|), m)]
  {
    StampedAppend(clock, start, said, [m]);
    StampedSingle(clock, start + |said|, m);
  }

  /** One more append continues a run of appends that began at log position `start`. */
  lemma StampedNext(clock: nat -> string, before: seq<string>, start: nat, said: seq<string>, m: string, log: seq<string>)
    requires start == |before| && log == before + Stamped(clock, start, said)
    ensures log + [Stamp(clock(|log|), m)] == before + Stamped(clock, start, said + [m])
  {
    StampedSnoc(clock, start, said, m);
    var done := Stamped(clock, start, said);
    assert |log| == start + |said|;
    assert (before + done) + [Stamp(clock(start + |said|), m)] == before + (done + [Stamp(clock(start + |said|), m)]);
  }

  /** A prefix of a list of messages grows by the next message. */
  lemma PrefixNext(messages: seq<string>, i: nat)
    requires i < |messages|
    ensures messages[..i + 1] == messages[..i] + [messages[i]]
  {
  }

  /**
   * A run of appends that starts where another left off continues it: the
   * two runs together are one run of all their messages.
   */
  lemma {:induction false} StampedThen(clock: nat -> string, before: seq<string>, said: seq<string>, more: seq<string>,
                    mid: seq<string>, log: seq<string>)
    requires mid == before + Stamped(clock, |before|, said)
    requires log == mid + Stamped(clock, |mid|, more)
    ensures log == before + Stamped(clock, |before|, said + more)
  {
    StampedAppend(clock, |before|, said, more);
    var done := Stamped(clock, |before|, said);
    var next := Stamped(clock, |before| + |said|, more);
    assert |mid| == |before| + |said|;
    assert (before + done) + next == before + (done + next);
  }

  /** Every entry of a run of appends reads back as its own timestamp and message. */
  lemma UnstampStamped(clock: nat -> string, start: nat, messages: seq<string>, k: nat)
    requires k < |messages|
    requires ']' !in clock(start + k)
    ensures Unstamp(Stamped(clock, start, messages)[k]) == Some((clock(start + k), messages[k]))
  {
    StampedAt(clock, start, messages, k);
    UnstampStamp(clock(start + k), messages[k]);
  }
}
