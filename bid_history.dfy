/** The ordering `getBidsForProduct` applies to a product's bids: a stable sort by
    timestamp (the comparator subtracts the two times; the array sort is stable). */
module BidHistory {
  import opened Types
  import opened Seqs

  predicate SortedByTime(s: seq<Bid>)
  {
    forall i, j :: 0 <= i < j < |s| ==> s[i].timestamp <= s[j].timestamp
  }

  /** Selects the bids placed at time `t`; used to state stability. */
  function AtTime(t: int): Bid -> bool
  {
    (b: Bid) => b.timestamp == t
  }

  /** Puts `b` into a time-sorted sequence ahead of every bid with the same time. */
  function InsertByTime(b: Bid, s: seq<Bid>): (r: seq<Bid>)
    requires SortedByTime(s)
    ensures SortedByTime(r)
    ensures multiset(r) == multiset(s) + multiset{b}
    ensures r[0] == b || (|s| > 0 && r[0] == s[0])
  {
    if |s| == 0 then [b]
    else if b.timestamp <= s[0].timestamp then [b] + s
    else
      var rest := InsertByTime(b, s[1..]);
      assert s == [s[0]] + s[1..];
      SortedCons(s[0], rest);
      assert multiset(s) == multiset{s[0]} + multiset(s[1..]);
      [s[0]] + rest
  }

  /** A bid no later than the head of a sorted sequence can go in front of it. */
  lemma SortedCons(x: Bid, s: seq<Bid>)
    requires SortedByTime(s)
    requires |s| > 0 ==> x.timestamp <= s[0].timestamp
    ensures SortedByTime([x] + s)
  {
  }

  /** Sorts bids by timestamp, keeping bids with equal times in their original order. */
  function SortByTime(s: seq<Bid>): (r: seq<Bid>)
    ensures SortedByTime(r)
    ensures multiset(r) == multiset(s)
  {
    if |s| == 0 then []
    else
      assert s == [s[0]] + s[1..];
      InsertByTime(s[0], SortByTime(s[1..]))
  }

  /** Inserting `b` adds it in front of the bids that share its time and leaves
      every other time's bids as they were. */
  lemma {:induction false} InsertByTimeStable(b: Bid, s: seq<Bid>, t: int)
    requires SortedByTime(s)
    ensures Filter(InsertByTime(b, s), AtTime(t)) ==
      if b.timestamp == t then [b] + Filter(s, AtTime(t)) else Filter(s, AtTime(t))
  {
    if |s| == 0 {
      FilterSingle(b, AtTime(t));
    } else if b.timestamp <= s[0].timestamp {
      FilterAppend([b], s, AtTime(t));
      FilterSingle(b, AtTime(t));
    } else {
      var rest := InsertByTime(b, s[1..]);
      assert InsertByTime(b, s) == [s[0]] + rest;
      assert s == [s[0]] + s[1..];
      FilterAppend([s[0]], s[1..], AtTime(t));
      FilterAppend([s[0]], rest, AtTime(t));
      FilterSingle(s[0], AtTime(t));
      InsertByTimeStable(b, s[1..], t);
      assert b.timestamp == t ==> !AtTime(t)(s[0]);
    }
  }

  /** Stability: for every time, the bids placed at that time keep their order. */
  lemma {:induction false} SortByTimeStable(s: seq<Bid>, t: int)
    ensures Filter(SortByTime(s), AtTime(t)) == Filter(s, AtTime(t))
  {
    if |s| > 0 {
      assert s == [s[0]] + s[1..];
      SortByTimeStable(s[1..], t);
      InsertByTimeStable(s[0], SortByTime(s[1..]), t);
      FilterAppend([s[0]], s[1..], AtTime(t));
    }
  }
}
