/** The bounded history of settled rounds, newest first, as addHistory keeps it. */
module Ledger {
  import opened Round

  /** The number of entries addHistory keeps. */
  const CAPACITY := 50

  /** One history item: the time string (an opaque display value), the dice,
      their sum and label, the side bet, the stake and the balance change. */
  datatype Entry = Entry(
    time: string, dice: seq<int>, sum: int, outcome: Outcome,
    betChoice: Option<Side>, betAmount: int, delta: int)

  /** The entry finishRoll records for a settled round. */
  function Record(time: string, t: Throw, choice: Option<Side>, amt: int, delta: int): (e: Entry)
    ensures e.dice == t.dice && e.sum == t.sum && e.outcome == t.outcome
    ensures e.betChoice == choice && e.betAmount == amt && e.delta == delta
    ensures Classified(t) && amt >= 1 && (delta == amt || delta == -amt) ==> Recorded(e)
  {
    Entry(time, t.dice, t.sum, t.outcome, choice, amt, delta)
  }

  /** A throw that is the classification of its own three faces. */
  predicate Classified(t: Throw) {
    && |t.dice| == 3
    && (forall i :: 0 <= i < 3 ==> 1 <= t.dice[i] <= 6)
    && t == Classify(t.dice[0], t.dice[1], t.dice[2])
  }

  /** An entry as settlement produces it: three faces whose sum and label are
      their classification, a stake of at least 1 and a change of the stake's
      size. */
  predicate Recorded(e: Entry) {
    && |e.dice| == 3
    && (forall i :: 0 <= i < 3 ==> 1 <= e.dice[i] <= 6)
    && var t := Classify(e.dice[0], e.dice[1], e.dice[2]);
    && e.sum == t.sum && e.outcome == t.outcome
    && e.betAmount >= 1
    && (e.delta == e.betAmount || e.delta == -e.betAmount)
  }

  predicate AllRecorded(h: seq<Entry>) {
    forall i :: 0 <= i < |h| ==> Recorded(h[i])
  }

  /** addHistory: unshift the entry, then pop one entry off the tail if the
      history has grown past CAPACITY. */
  function Pushed(h: seq<Entry>, e: Entry): (r: seq<Entry>)
    ensures |r| == if |h| < CAPACITY then |h| + 1 else |h|
    ensures |h| <= CAPACITY ==> |r| <= CAPACITY
    ensures r[0] == e
    ensures r[1..] == if |h| < CAPACITY then h else h[..|h| - 1]
    ensures AllRecorded(h) && Recorded(e) ==> AllRecorded(r)
  {
    var u := [e] + h;
    if |u| > CAPACITY then u[..|u| - 1] else u
  }

  /** The history after settling the entries es in order, es[0] first. */
  function PushAll(h: seq<Entry>, es: seq<Entry>): (r: seq<Entry>)
    decreases |es|
  {
    if es == [] then h else PushAll(Pushed(h, es[0]), es[1..])
  }

  /** The first CAPACITY entries of s. */
  function Window(s: seq<Entry>): (r: seq<Entry>) {
    if |s| <= CAPACITY then s else s[..CAPACITY]
  }

  /** The entries of s in the opposite order. */
  function Reversed(s: seq<Entry>): (r: seq<Entry>)
    ensures |r| == |s|
  {
    if s == [] then [] else Reversed(s[1..]) + [s[0]]
  }

  /** Reversal turns concatenation around. */
  lemma {:induction false} ReversedAppend(x: seq<Entry>, y: seq<Entry>)
    ensures Reversed(x + y) == Reversed(y) + Reversed(x)
    decreases |x|
  {
    if x == [] {
      assert x + y == y;
    } else {
      assert (x + y)[1..] == x[1..] + y;
      ReversedAppend(x[1..], y);
    }
  }

  /** On a history within CAPACITY, pushing one entry keeps the window of the
      entry followed by the old history. */
  lemma PushedIsWindow(h: seq<Entry>, e: Entry)
    requires |h| <= CAPACITY
    ensures Pushed(h, e) == Window([e] + h)
  {
  }

  /** Cutting the tail early does not change the window. */
  lemma WindowAbsorbs(x: seq<Entry>, y: seq<Entry>)
    ensures Window(x + Window(y)) == Window(x + y)
  {
  }

  /** Settling the entries es onto a history within CAPACITY leaves the newest
      CAPACITY of all entries, newest first. */
  lemma {:induction false} PushAllWindow(h: seq<Entry>, es: seq<Entry>)
    requires |h| <= CAPACITY
    ensures PushAll(h, es) == Window(Reversed(es) + h)
    decreases |es|
  {
    if es != [] {
      var e, rest := es[0], es[1..];
      PushedIsWindow(h, e);
      PushAllWindow(Pushed(h, e), rest);
      WindowAbsorbs(Reversed(rest), [e] + h);
      assert Reversed(es) + h == Reversed(rest) + ([e] + h);
    }
  }

  /** After at least CAPACITY settlements the ledger holds exactly the last
      CAPACITY entries, newest first: its head is the latest entry and every
      earlier one, and everything the history held before, has been evicted. */
  lemma ManySettlements(h: seq<Entry>, es: seq<Entry>)
    requires |h| <= CAPACITY && |es| >= CAPACITY
    ensures PushAll(h, es) == Reversed(es[|es| - CAPACITY..])
    ensures PushAll(h, es)[0] == es[|es| - 1]
  {
    var k := |es| - CAPACITY;
    var newest := es[k..];
    var r := PushAll(h, es);
    PushAllWindow(h, es);
    ReversedSplit(es, k);
    WindowOfFull(Reversed(newest), Reversed(es[..k]) + h);
    assert r == Reversed(newest);
    ReversedHead(newest);
    assert newest[|newest| - 1] == es[|es| - 1];
  }

  /** Reversing a sequence cut at k puts the tail's reversal first. */
  lemma ReversedSplit(s: seq<Entry>, k: nat)
    requires k <= |s|
    ensures Reversed(s) == Reversed(s[k..]) + Reversed(s[..k])
  {
    assert s == s[..k] + s[k..];
    ReversedAppend(s[..k], s[k..]);
  }

  /** A window over a sequence that starts with CAPACITY entries is those entries. */
  lemma WindowOfFull(x: seq<Entry>, y: seq<Entry>)
    requires |x| == CAPACITY
    ensures Window(x + y) == x
  {
  }

  /** The head of a reversed sequence is the last element of the original. */
  lemma ReversedHead(s: seq<Entry>)
    requires s != []
    ensures Reversed(s)[0] == s[|s| - 1]
  {
  }
}
