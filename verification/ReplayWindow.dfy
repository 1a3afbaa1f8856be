/**
 The Go replay window: per sender, the set of sequence numbers still remembered.  Over any run of
 Accept calls with numbers from 1 on, that set is exactly the `limit` largest distinct numbers the
 sender presented.
 */
module ReplayWindow {
  // ----- The set operations of one call

  ghost predicate IsLeast(s: set<nat>, m: nat) {
    m in s && forall x :: x in s ==> m <= x
  }

  lemma LeastExists(s: set<nat>)
    requires s != {}
    ensures exists m :: IsLeast(s, m)
  {
    var m :| m in s;
    if s == {m} {
      assert IsLeast(s, m);
    } else {
      LeastExists(s - {m});
      var r :| IsLeast(s - {m}, r);
      assert s == (s - {m}) + {m};
      assert IsLeast(s, if m < r then m else r);
    }
  }

  ghost function Least(s: set<nat>): (m: nat)
    requires s != {}
    ensures IsLeast(s, m)
  {
    LeastExists(s);
    var m :| IsLeast(s, m);
    m
  }

  lemma LeastUnique(s: set<nat>, a: nat, b: nat)
    requires IsLeast(s, a) && IsLeast(s, b)
    ensures a == b
  {
  }

  // A sender's set after one more number: the least is evicted when the set outgrows the limit.
  ghost function Remembered(limit: nat, s: set<nat>, x: nat): set<nat> {
    var t := s + {x};
    if |t| > limit then t - {Least(t)} else t
  }

  // ----- The window object

  class ReplayWindow {
    const limit: nat
    var seen: map<nat, set<nat>>
    ghost var history: seq<Call>

    constructor (limit: nat)
      ensures this.limit == (if limit == 0 then 4096 else limit)
      ensures Valid() && history == []
    {
      this.limit := if limit == 0 then 4096 else limit;
      this.seen := map[];
      this.history := [];
    }

    ghost function SeenBy(id: nat): set<nat>
      reads this
    {
      if id in seen then seen[id] else {}
    }

    ghost predicate Valid()
      reads this
    {
      limit >= 1 && forall id :: Stored(limit, history, id, SeenBy(id))
    }

    /** Accepts a number exactly when it is not stored, which for positive numbers means: not among the
        `limit` largest the sender presented.  Other senders' sets are untouched. */
    method Accept(senderId: nat, sequence: nat) returns (ok: bool)
      requires Valid()
      modifies this
      ensures Valid()
      ensures history == old(history) + [Call(senderId, sequence)]
      ensures ok == (sequence !in old(SeenBy(senderId)))
      ensures Positive(old(history), senderId) ==> ok == (sequence !in Window(limit, old(history), senderId))
      ensures !ok ==> SeenBy(senderId) == old(SeenBy(senderId))
      ensures ok ==> Evicted(limit, old(SeenBy(senderId)) + {sequence}, SeenBy(senderId))
      ensures forall id :: id != senderId ==> SeenBy(id) == old(SeenBy(id))
    {
      hide Window, FinalMin, Presented, Stored, Evicted;
      ghost var c, stored := Call(senderId, sequence), SeenBy(senderId);
      if Positive(history, senderId) {
        StoredWindow(limit, history, senderId, stored);
      }
      history := history + [c];
      if senderId !in seen {
        seen := seen[senderId := {}];
      }
      var sequences := seen[senderId];
      if sequence in sequences {
        forall id
          ensures Stored(limit, history, id, SeenBy(id))
        {
          StoredStep(limit, old(history), c, id, old(SeenBy(id)), SeenBy(id));
        }
        return false;
      }
      sequences := sequences + {sequence};
      if |sequences| > limit {
        var min := EvictionCandidate(sequences);
        EvictOne(limit, sequences, min);
        sequences := sequences - {min};
      } else {
        KeepAll(limit, sequences);
      }
      seen := seen[senderId := sequences];
      forall id
        ensures Stored(limit, history, id, SeenBy(id))
      {
        StoredStep(limit, old(history), c, id, old(SeenBy(id)), SeenBy(id));
      }
      return true;
    }
  }

  // A sender's stored set: bounded, of presented numbers, and exactly the window when all were positive.
  ghost predicate Stored(limit: nat, calls: seq<Call>, id: nat, s: set<nat>) {
    && |s| <= limit
    && s <= Presented(calls, id)
    && (Positive(calls, id) ==> s == Window(limit, calls, id))
  }

  lemma StoredWindow(limit: nat, calls: seq<Call>, id: nat, s: set<nat>)
    requires Stored(limit, calls, id, s) && Positive(calls, id)
    ensures s == Window(limit, calls, id)
  {
  }

  lemma EvictOne(limit: nat, grown: set<nat>, min: nat)
    requires |grown| > limit && exists order :: Enumerates(order, grown) && min == FinalMin(0, order)
    ensures Evicted(limit, grown, grown - {min})
  {
  }

  lemma KeepAll(limit: nat, grown: set<nat>)
    requires |grown| <= limit
    ensures Evicted(limit, grown, grown)
  {
  }

  lemma StoredStep(limit: nat, calls: seq<Call>, c: Call, id: nat, s: set<nat>, left: set<nat>)
    requires limit >= 1 && Stored(limit, calls, id, s)
    requires if c.senderId != id || c.sequence in s then left == s else Evicted(limit, s + {c.sequence}, left)
    ensures Stored(limit, calls + [c], id, left)
  {
    hide FinalMin, Window, Presented;
    WindowStep(limit, calls, c, id);
    PositiveStep(calls, c, id);
    PresentedStep(calls, c, id);
    if c.senderId == id && c.sequence !in s {
      EvictedSize(limit, s, c.sequence, left);
      if Positive(calls + [c], id) {
        EvictedIsRemembered(limit, s, c.sequence, left);
      }
    }
  }

  lemma EvictedSize(limit: nat, s: set<nat>, x: nat, left: set<nat>)
    requires |s| <= limit && x !in s && Evicted(limit, s + {x}, left)
    ensures |left| <= limit && left <= s + {x}
  {
    var t := s + {x};
    if |t| > limit {
      var order :| Enumerates(order, t) && left == t - {FinalMin(0, order)};
      var y :| y in t;
      assert y in order;
      FinalMinElement(order);
    }
  }

  // The sets Accept may leave of a grown set: all of it, or all but an eviction candidate.
  ghost predicate Evicted(limit: nat, grown: set<nat>, left: set<nat>) {
    if |grown| <= limit then left == grown
    else exists order :: Enumerates(order, grown) && left == grown - {FinalMin(0, order)}
  }

  lemma EvictedIsRemembered(limit: nat, s: set<nat>, x: nat, left: set<nat>)
    requires limit >= 1 && Evicted(limit, s + {x}, left) && 0 !in s + {x}
    ensures left == Remembered(limit, s, x)
  {
    var t := s + {x};
    if |t| > limit {
      var order :| Enumerates(order, t) && left == t - {FinalMin(0, order)};
      EvictsLeastInEveryOrder(t);
      LeastUnique(t, FinalMin(0, order), Least(t));
    }
  }

  // ----- The eviction loop

  // The loop body applied to the elements in iteration order.
  function FinalMin(min: nat, order: seq<nat>): nat
    decreases |order|
  {
    if order == [] then min
    else FinalMin(if min == 0 || order[0] < min then order[0] else min, order[1..])
  }

  ghost predicate Enumerates(order: seq<nat>, s: set<nat>) {
    && (forall i :: 0 <= i < |order| ==> order[i] in s)
    && (forall x :: x in s ==> x in order)
    && (forall i, j :: 0 <= i < j < |order| ==> order[i] != order[j])
  }

  lemma {:induction false} FinalMinSnoc(min: nat, order: seq<nat>, x: nat)
    ensures var r := FinalMin(min, order);
            FinalMin(min, order + [x]) == if r == 0 || x < r then x else r
    decreases |order|
  {
    if order == [] {
      assert ([x])[1..] == [];
    } else {
      assert (order + [x])[1..] == order[1..] + [x];
      FinalMinSnoc(if min == 0 || order[0] < min then order[0] else min, order[1..], x);
    }
  }

  lemma FinalMinElement(order: seq<nat>)
    requires order != []
    ensures FinalMin(0, order) in order
    decreases |order|
  {
    var last, before := order[|order| - 1], order[..|order| - 1];
    assert order == before + [last];
    FinalMinSnoc(0, before, last);
    if before != [] {
      FinalMinElement(before);
    }
  }

  /** The loop over a map, whose iteration order is arbitrary. */
  method EvictionCandidate(sequences: set<nat>) returns (min: nat)
    requires sequences != {}
    ensures min in sequences
    ensures exists order :: Enumerates(order, sequences) && min == FinalMin(0, order)
  {
    hide FinalMin;
    min := 0;
    var rest := sequences;
    ghost var order: seq<nat> := [];
    FinalMinEmpty();
    while rest != {}
      invariant Enumerates(order, sequences - rest) && rest <= sequences
      invariant min == FinalMin(0, order)
      decreases |rest|
    {
      var s :| s in rest;
      FinalMinSnoc(0, order, s);
      if min == 0 || s < min {
        min := s;
      }
      SnocEnumerates(order, s, sequences - rest);
      rest := rest - {s};
      order := order + [s];
      assert sequences - rest == (sequences - rest - {s}) + {s};
    }
    assert sequences - rest == sequences;
    var x :| x in sequences;
    assert x in order;
    FinalMinElement(order);
  }

  lemma FinalMinEmpty()
    ensures FinalMin(0, []) == 0
  {
  }

  lemma SnocEnumerates(order: seq<nat>, x: nat, s: set<nat>)
    requires Enumerates(order, s) && x !in s
    ensures Enumerates(order + [x], s + {x})
  {
  }

  lemma {:induction false} FinalMinOfPositive(min: nat, order: seq<nat>)
    requires forall i :: 0 <= i < |order| ==> order[i] >= 1
    ensures var r := FinalMin(min, order);
            && (order == [] ==> r == min)
            && (order != [] ==> (r == min && min != 0) || r in order)
            && (min != 0 ==> r <= min)
            && forall i :: 0 <= i < |order| ==> r <= order[i]
    decreases |order|
  {
    if order != [] {
      FinalMinOfPositive(if min == 0 || order[0] < min then order[0] else min, order[1..]);
      assert forall i :: 1 <= i < |order| ==> order[i] == order[1..][i - 1];
    }
  }

  lemma ConsEnumerates(x: nat, rest: seq<nat>, s: set<nat>)
    requires x in s && Enumerates(rest, s - {x})
    ensures Enumerates([x] + rest, s)
  {
  }

  lemma EnumerationExists(s: set<nat>) returns (order: seq<nat>)
    ensures Enumerates(order, s)
  {
    order := [];
    if s != {} {
      var x :| x in s;
      var rest := EnumerationExists(s - {x});
      order := [x] + rest;
      ConsEnumerates(x, rest, s);
    }
  }

  // Visiting 0 first makes the loop settle on another element.
  lemma ZeroFirst(s: set<nat>) returns (order: seq<nat>)
    requires 0 in s && |s| >= 2
    ensures Enumerates(order, s) && FinalMin(0, order) != 0
  {
    var rest := EnumerationExists(s - {0});
    order := [0] + rest;
    ConsEnumerates(0, rest, s);
    assert |s - {0}| >= 1;
    var other :| other in s - {0};
    assert other in rest;
    assert order[1..] == rest;
    FinalMinOfPositive(0, rest);
  }

  /** The eviction loop finds the least element in every iteration order exactly when 0 is not in the
      set (a set that is evicted from has two elements or more). */
  lemma EvictsLeastInEveryOrder(s: set<nat>)
    requires |s| >= 2
    ensures (forall order :: Enumerates(order, s) ==> IsLeast(s, FinalMin(0, order))) <==> 0 !in s
  {
    if 0 in s {
      var order := ZeroFirst(s);
      assert !IsLeast(s, FinalMin(0, order));
    } else {
      forall order | Enumerates(order, s)
        ensures IsLeast(s, FinalMin(0, order))
      {
        FinalMinOfPositive(0, order);
        var x :| x in s;
        assert x in order;
      }
    }
  }

  // ----- Whole runs

  datatype Call = Call(senderId: nat, sequence: nat)

  ghost predicate Positive(calls: seq<Call>, id: nat) {
    forall i :: 0 <= i < |calls| && calls[i].senderId == id ==> calls[i].sequence >= 1
  }

  lemma PositiveStep(calls: seq<Call>, c: Call, id: nat)
    ensures Positive(calls + [c], id) <==> Positive(calls, id) && (c.senderId == id ==> c.sequence >= 1)
    ensures Positive(calls, id) ==> 0 !in Presented(calls, id)
  {
    assert forall i :: 0 <= i < |calls| ==> (calls + [c])[i] == calls[i];
    assert (calls + [c])[|calls|] == c;
  }

  // What is remembered of a sender after a run of calls.
  ghost function Window(limit: nat, calls: seq<Call>, id: nat): set<nat> {
    if calls == [] then {}
    else
      var before := Window(limit, calls[..|calls| - 1], id);
      var c := calls[|calls| - 1];
      if c.senderId != id || c.sequence in before then before else Remembered(limit, before, c.sequence)
  }

  lemma WindowStep(limit: nat, calls: seq<Call>, c: Call, id: nat)
    ensures Window(limit, calls + [c], id) == (
              if c.senderId != id || c.sequence in Window(limit, calls, id) then Window(limit, calls, id)
              else Remembered(limit, Window(limit, calls, id), c.sequence))
  {
  }

  // The distinct numbers a sender presented.
  ghost function Presented(calls: seq<Call>, id: nat): set<nat> {
    set i | 0 <= i < |calls| && calls[i].senderId == id :: calls[i].sequence
  }

  // s holds the limit largest elements of p.
  ghost predicate IsTop(limit: nat, p: set<nat>, s: set<nat>) {
    && s <= p
    && |s| == (if |p| < limit then |p| else limit)
    && forall x, y :: x in s && y in p && y !in s ==> y < x
  }

  lemma SubsetOfSameSize(s: set<nat>, p: set<nat>)
    requires s <= p && |s| == |p|
    ensures s == p
  {
    if s != p {
      var x :| x in p && x !in s;
      SubsetSize(s, p - {x});
    }
  }

  lemma SubsetSize(s: set<nat>, p: set<nat>)
    requires s <= p
    ensures |s| <= |p|
  {
    if s != {} {
      var x :| x in s;
      SubsetSize(s - {x}, p - {x});
    }
  }

  lemma TopStep(limit: nat, p: set<nat>, s: set<nat>, x: nat)
    requires limit >= 1 && IsTop(limit, p, s)
    ensures IsTop(limit, p + {x}, if x in s then s else Remembered(limit, s, x))
  {
    if x in s {
      assert p + {x} == p;
    } else {
      var t := s + {x};
      assert |t| == |s| + 1;
      SubsetSize(t, p + {x});
      if |s| < limit {
        SubsetOfSameSize(s, p);
      } else {
        var m := Least(t);
        var r := t - {m};
        assert |r| == limit;
        forall z, y | z in r && y in p + {x} && y !in r
          ensures y < z
        {
          assert m < z;
        }
      }
    }
  }

  /** After any run of calls a sender's window is the `limit` largest distinct numbers it presented. */
  lemma {:induction false} WindowIsTop(limit: nat, calls: seq<Call>, id: nat)
    requires limit >= 1
    ensures IsTop(limit, Presented(calls, id), Window(limit, calls, id))
  {
    if calls == [] {
    } else {
      var before, c := calls[..|calls| - 1], calls[|calls| - 1];
      WindowIsTop(limit, before, id);
      assert calls == before + [c];
      PresentedStep(before, c, id);
      if c.senderId == id {
        TopStep(limit, Presented(before, id), Window(limit, before, id), c.sequence);
      }
    }
  }

  lemma PresentedStep(calls: seq<Call>, c: Call, id: nat)
    ensures Presented(calls + [c], id) == (
              if c.senderId == id then Presented(calls, id) + {c.sequence} else Presented(calls, id))
  {
    var all := calls + [c];
    forall x | x in Presented(calls, id)
      ensures x in Presented(all, id)
    {
      var i :| 0 <= i < |calls| && calls[i].senderId == id && calls[i].sequence == x;
      assert all[i] == calls[i];
    }
    if c.senderId == id {
      assert all[|calls|] == c;
      assert c.sequence in Presented(all, id);
    }
  }

  // The numbers of a sender above x.
  ghost function Above(p: set<nat>, x: nat): set<nat> {
    set y | y in p && y > x
  }

  /** When a presented number is forgotten, and so would be accepted again: exactly when the sender has
      since presented at least `limit` distinct larger ones. */
  lemma ForgottenExactly(limit: nat, calls: seq<Call>, id: nat, x: nat)
    requires limit >= 1 && x in Presented(calls, id)
    ensures x !in Window(limit, calls, id) <==> |Above(Presented(calls, id), x)| >= limit
  {
    WindowIsTop(limit, calls, id);
    var p, s := Presented(calls, id), Window(limit, calls, id);
    if x !in s {
      SubsetSize(s, Above(p, x));
      if |p| < limit {
        SubsetOfSameSize(s, p);
      }
    } else {
      forall y | y in Above(p, x)
        ensures y in s - {x}
      {
      }
      SubsetSize(Above(p, x), s - {x});
    }
  }

  /** A sender that only counts up is never refused, whatever other senders do. */
  lemma IncreasingAccepted(limit: nat, calls: seq<Call>, c: Call)
    requires limit >= 1
    requires forall i :: 0 <= i < |calls| && calls[i].senderId == c.senderId ==> calls[i].sequence < c.sequence
    ensures c.sequence !in Window(limit, calls, c.senderId)
  {
  }

  /** A number never presented before is accepted, in whatever order numbers arrive. */
  lemma FreshAccepted(limit: nat, calls: seq<Call>, c: Call)
    requires limit >= 1 && c !in calls
    ensures c.sequence !in Window(limit, calls, c.senderId)
  {
  }
}
