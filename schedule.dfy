/**
 * The upcoming/past split both screens apply to a list ordered by the query:
 * `xs.filter(x => new Date(x.date) >= new Date())` and
 * `xs.filter(x => new Date(x.date) < new Date())`, with dates as integer
 * timestamps. `SplitAt` takes both lists against one reading of the clock;
 * `SplitAsWritten` gives every callback its own reading, as the code does.
 */
module Schedule {

  function Upcoming<T>(xs: seq<T>, dateOf: T -> int, now: int): (r: seq<T>)
    ensures |r| <= |xs|
  {
    if xs == [] then []
    else (if dateOf(xs[0]) >= now then [xs[0]] else []) + Upcoming(xs[1..], dateOf, now)
  }

  function Past<T>(xs: seq<T>, dateOf: T -> int, now: int): (r: seq<T>)
    ensures |r| <= |xs|
  {
    if xs == [] then []
    else (if dateOf(xs[0]) < now then [xs[0]] else []) + Past(xs[1..], dateOf, now)
  }

  datatype Split<T> = Split(upcoming: seq<T>, past: seq<T>)

  /** Both lists taken against one reading of the clock. */
  function SplitAt<T>(xs: seq<T>, dateOf: T -> int, now: int): Split<T>
  {
    Split(Upcoming(xs, dateOf, now), Past(xs, dateOf, now))
  }

  /**
   * The filters as the screens write them: every callback evaluates
   * `new Date()` anew, so element `i` is compared with its own reading
   * `clock[i]`. Nothing orders the readings: the wall clock can also be set back.
   */
  function UpcomingAsRead<T>(xs: seq<T>, dateOf: T -> int, clock: seq<int>): (r: seq<T>)
    requires |clock| == |xs|
    ensures |r| <= |xs|
  {
    if xs == [] then []
    else (if dateOf(xs[0]) >= clock[0] then [xs[0]] else []) + UpcomingAsRead(xs[1..], dateOf, clock[1..])
  }

  function PastAsRead<T>(xs: seq<T>, dateOf: T -> int, clock: seq<int>): (r: seq<T>)
    requires |clock| == |xs|
    ensures |r| <= |xs|
  {
    if xs == [] then []
    else (if dateOf(xs[0]) < clock[0] then [xs[0]] else []) + PastAsRead(xs[1..], dateOf, clock[1..])
  }

  /** Both lists as written: one reading per element for each of the two filters. */
  function SplitAsWritten<T>(xs: seq<T>, dateOf: T -> int, upClock: seq<int>, pastClock: seq<int>): Split<T>
    requires |upClock| == |xs| && |pastClock| == |xs|
  {
    Split(UpcomingAsRead(xs, dateOf, upClock), PastAsRead(xs, dateOf, pastClock))
  }

  /** With one clock reading, upcoming and past partition the list. */
  lemma {:induction false} SplitPartitions<T>(xs: seq<T>, dateOf: T -> int, now: int)
    ensures var s := SplitAt(xs, dateOf, now);
      multiset(s.upcoming) + multiset(s.past) == multiset(xs)
      && |s.upcoming| + |s.past| == |xs|
      && (forall x :: x in s.upcoming <==> x in xs && dateOf(x) >= now)
      && (forall x :: x in s.past <==> x in xs && dateOf(x) < now)
  {
    if xs != [] {
      SplitPartitions(xs[1..], dateOf, now);
      assert xs == [xs[0]] + xs[1..];
    }
  }

  /**
   * The first upcoming element is the first element of the list whose date
   * has not passed; there is none exactly when every date has passed.
   */
  lemma {:induction false} UpcomingHead<T>(xs: seq<T>, dateOf: T -> int, now: int)
    ensures Upcoming(xs, dateOf, now) == [] <==> forall j :: 0 <= j < |xs| ==> dateOf(xs[j]) < now
    ensures Upcoming(xs, dateOf, now) != [] ==>
      exists i :: 0 <= i < |xs| && xs[i] == Upcoming(xs, dateOf, now)[0] && dateOf(xs[i]) >= now
        && forall j :: 0 <= j < i ==> dateOf(xs[j]) < now
  {
    if xs != [] && dateOf(xs[0]) < now {
      UpcomingHead(xs[1..], dateOf, now);
      var u := Upcoming(xs, dateOf, now);
      if u != [] {
        var i :| 0 <= i < |xs[1..]| && xs[1..][i] == u[0] && dateOf(xs[1..][i]) >= now
          && forall j :: 0 <= j < i ==> dateOf(xs[1..][j]) < now;
        assert xs[i + 1] == u[0];
        forall j | 0 <= j < i + 1 ensures dateOf(xs[j]) < now {
          if j > 0 { assert xs[j] == xs[1..][j - 1]; }
        }
      } else {
        forall j | 0 <= j < |xs| ensures dateOf(xs[j]) < now {
          if j > 0 { assert xs[j] == xs[1..][j - 1]; }
        }
      }
    } else if xs != [] {
      assert xs[0] == Upcoming(xs, dateOf, now)[0];
    }
  }

  /** Element `i` is listed by each filter whose own reading it passes. */
  lemma {:induction false} AsReadKeeps<T>(xs: seq<T>, dateOf: T -> int, clock: seq<int>, i: nat)
    requires |clock| == |xs| && i < |xs|
    ensures dateOf(xs[i]) >= clock[i] ==> xs[i] in UpcomingAsRead(xs, dateOf, clock)
    ensures dateOf(xs[i]) < clock[i] ==> xs[i] in PastAsRead(xs, dateOf, clock)
    decreases i
  {
    if i > 0 {
      AsReadKeeps(xs[1..], dateOf, clock[1..], i - 1);
      assert xs[1..][i - 1] == xs[i] && clock[1..][i - 1] == clock[i];
    }
  }

  /** When every reading is the same instant, the filters as written are the one-reading split. */
  lemma {:induction false} SplitAsWrittenSteady<T>(xs: seq<T>, dateOf: T -> int, upClock: seq<int>,
                                                    pastClock: seq<int>, now: int)
    requires |upClock| == |xs| && |pastClock| == |xs|
    requires forall i :: 0 <= i < |xs| ==> upClock[i] == now && pastClock[i] == now
    ensures SplitAsWritten(xs, dateOf, upClock, pastClock) == SplitAt(xs, dateOf, now)
  {
    if xs != [] {
      assert forall i :: 0 <= i < |xs[1..]| ==> upClock[1..][i] == upClock[i + 1] && pastClock[1..][i] == pastClock[i + 1];
      SplitAsWrittenSteady(xs[1..], dateOf, upClock[1..], pastClock[1..], now);
    }
  }

  /**
   * An element dated at or after its upcoming reading and before its past
   * reading is listed as both upcoming and past.
   */
  lemma SplitAsWrittenOverlaps<T>(xs: seq<T>, dateOf: T -> int, upClock: seq<int>, pastClock: seq<int>, i: nat)
    requires |upClock| == |xs| && |pastClock| == |xs| && i < |xs|
    requires upClock[i] <= dateOf(xs[i]) < pastClock[i]
    ensures var s := SplitAsWritten(xs, dateOf, upClock, pastClock);
      xs[i] in s.upcoming && xs[i] in s.past
  {
    AsReadKeeps(xs, dateOf, upClock, i);
    AsReadKeeps(xs, dateOf, pastClock, i);
  }

  function Stamp(t: int): int { t }

  /** One event at time 0, read at 0 by the upcoming filter and at 1 by the past one: it is listed twice. */
  lemma SplitAsWrittenCounterexample()
    ensures var s := SplitAsWritten([0], Stamp, [0], [1]);
      s.upcoming == [0] && s.past == [0] && |s.upcoming| + |s.past| == 2
  {
    assert [0][1..] == [];
  }

  /** The clock set back between the two readings: the event at time 5 is listed in neither list. */
  lemma SplitAsWrittenDrops()
    ensures var s := SplitAsWritten([5], Stamp, [6], [4]);
      s.upcoming == [] && s.past == []
  {
    assert [5][1..] == [];
  }
}
