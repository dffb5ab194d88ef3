/**
 * The dashboard's event timeline: a FIFO of at most ten records.
 * `addEvent` pushes a record and, when the log has grown past ten entries,
 * shifts the oldest one out; the display shows only `slice(-5)`.
 */
module EventLog {
  import opened Util

  /** One entry of the timeline: formatted clock time, severity name, text. */
  datatype Event = Event(time: string, kind: string, message: string)

  /** Number of records the log keeps. */
  const Capacity: nat := 10

  /** Number of records the display shows. */
  const Shown: nat := 5

  /** The two records the dashboard starts with. */
  const InitialEvents: seq<Event> := [
    Event("10:30:15", "info", "Drone AI system initialized"),
    Event("10:30:20", "success", "YOLO model loaded successfully")
  ]

  /** Reference definition: the last min(n, |s|) elements of `s`, in order. */
  function Last<T>(s: seq<T>, n: nat): (r: seq<T>)
    ensures |r| == Min(n, |s|)
    ensures s == s[..|s| - |r|] + r
  {
    s[|s| - Min(n, |s|)..]
  }

  /** `push` followed by one `shift` when the length went over the capacity. */
  function Push(log: seq<Event>, e: Event): (r: seq<Event>)
    ensures |log| <= Capacity ==> |r| == Min(|log| + 1, Capacity)
    ensures |r| > 0 && r[|r| - 1] == e
    ensures r[..|r| - 1] == if |log| >= Capacity then log[1..] else log
    ensures |log| <= Capacity ==> r == Last(log + [e], Capacity)
  {
    var grown := log + [e];
    if |grown| > Capacity then grown[1..] else grown
  }

  /** The log after pushing every record of `es`, first to last. */
  function PushAll(log: seq<Event>, es: seq<Event>): (r: seq<Event>)
    ensures |log| <= Capacity ==> |r| == Min(|log| + |es|, Capacity)
    decreases |es|
  {
    if es == [] then log else PushAll(Push(log, es[0]), es[1..])
  }

  /** `events.slice(-5)`: start at max(length - 5, 0). */
  function Recent(log: seq<Event>): (r: seq<Event>)
    ensures |r| == Min(Shown, |log|)
    ensures log == log[..|log| - |r|] + r
  {
    log[Max(|log| - Shown, 0)..]
  }

  /** Taking the tail of a tail that is long enough is taking the tail. */
  lemma LastOfSuffix<T>(x: seq<T>, y: seq<T>, n: nat)
    requires |y| <= |x| && y == x[|x| - |y|..]
    requires |y| >= Min(n, |x|)
    ensures Last(y, n) == Last(x, n)
  {
    var k := Min(n, |x|);
    assert Min(n, |y|) == k;
    forall i | 0 <= i < k
      ensures Last(y, n)[i] == Last(x, n)[i]
    {
      assert Last(y, n)[i] == y[|y| - k + i];
      assert y[|y| - k + i] == x[|x| - |y| + |y| - k + i];
    }
  }

  /** Dropping old records before appending more does not change the last `n`. */
  lemma LastAfterLast<T>(s: seq<T>, t: seq<T>, n: nat)
    ensures Last(Last(s, n) + t, n) == Last(s + t, n)
  {
    var u := Last(s, n);
    assert u + t == (s + t)[|s + t| - |u + t|..];
    LastOfSuffix(s + t, u + t, n);
  }

  /** One inductive step of PushAllKeepsLast, stated on its own to keep it small. */
  lemma PushThenLast(log: seq<Event>, e: Event, rest: seq<Event>)
    requires |log| <= Capacity
    ensures Last(Push(log, e) + rest, Capacity) == Last(log + ([e] + rest), Capacity)
  {
    LastAfterLast(log + [e], rest, Capacity);
    ConcatAssociates(log, [e], rest);
  }

  lemma ConcatAssociates<T>(a: seq<T>, b: seq<T>, c: seq<T>)
    ensures (a + b) + c == a + (b + c)
  {
  }

  /**
   * Pushing any sequence of records onto a log within capacity leaves
   * exactly the last ten of all records, old and new, in append order.
   */
  lemma {:induction false} PushAllKeepsLast(log: seq<Event>, es: seq<Event>)
    requires |log| <= Capacity
    ensures PushAll(log, es) == Last(log + es, Capacity)
    decreases |es|
  {
    if es == [] {
      assert log + es == log;
    } else {
      PushAllKeepsLast(Push(log, es[0]), es[1..]);
      PushThenLast(log, es[0], es[1..]);
      assert es == [es[0]] + es[1..];
    }
  }

  /**
   * From the two initial records, N appends leave exactly the last
   * min(N + 2, 10) records in append order.
   */
  lemma InitialLogAfterAppends(es: seq<Event>)
    ensures PushAll(InitialEvents, es) == Last(InitialEvents + es, Capacity)
    ensures |PushAll(InitialEvents, es)| == Min(|es| + 2, Capacity)
  {
    PushAllKeepsLast(InitialEvents, es);
    assert |InitialEvents + es| == |es| + 2;
  }

  /** The display shows the five most recently appended records, oldest first. */
  lemma RecentAfterAppends(log: seq<Event>, es: seq<Event>)
    requires |log| <= Capacity
    ensures Recent(PushAll(log, es)) == Last(log + es, Shown)
  {
    PushAllKeepsLast(log, es);
    var kept := PushAll(log, es);
    assert Recent(kept) == Last(kept, Shown);
    LastOfSuffix(log + es, kept, Shown);
  }
}
