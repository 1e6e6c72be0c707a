/**
 * The outreach counters of the profile tab (components/Profile.jsx lines
 * 4-7): `history.filter(p).length` for "contacted", "contacted and not
 * replied" and "replied", where an absent flag is falsy.
 */
module Profile {
  import Js
  import opened Items
  import Routes

  /** `s.filter(p)`: the elements satisfying p, each as often as it occurs in s, in their order. */
  function Filter<T(!new)>(s: seq<T>, p: T -> bool): (r: seq<T>)
    ensures |r| <= |s|
    ensures forall x :: x in r ==> x in s && p(x)
    ensures forall x :: x in s && p(x) ==> x in r
    ensures forall x {:trigger multiset(r)[x]} :: multiset(r)[x] == if p(x) then multiset(s)[x] else 0
  {
    if s == [] then []
    else
      assert s == [s[0]] + s[1..];
      (if p(s[0]) then [s[0]] else []) + Filter(s[1..], p)
  }

  predicate IsContacted(h: Item) { Js.Truthy(h.contacted) }
  predicate IsPending(h: Item) { Js.Truthy(h.contacted) && !Js.Truthy(h.replied) }
  predicate IsReplied(h: Item) { Js.Truthy(h.replied) }
  predicate IsContactedAndReplied(h: Item) { Js.Truthy(h.contacted) && Js.Truthy(h.replied) }

  function Contacted(history: seq<Item>): nat { |Filter(history, IsContacted)| }
  function Pending(history: seq<Item>): nat { |Filter(history, IsPending)| }
  function Replied(history: seq<Item>): nat { |Filter(history, IsReplied)| }

  /** Contacted items are the pending ones plus those that were also replied to. */
  lemma {:induction false} ContactedSplits(history: seq<Item>)
    ensures Contacted(history) == Pending(history) + |Filter(history, IsContactedAndReplied)|
  {
    if history != [] {
      ContactedSplits(history[1..]);
    }
  }

  /** Items both contacted and replied to are among the replied ones. */
  lemma {:induction false} ContactedAndRepliedAreReplied(history: seq<Item>)
    ensures |Filter(history, IsContactedAndReplied)| <= Replied(history)
  {
    if history != [] {
      ContactedAndRepliedAreReplied(history[1..]);
    }
  }

  datatype Stats = Stats(totalMessages: nat, contacted: nat, pending: nat, replied: nat)

  /**
   * Lines 4-7: the four numbers on the profile card, with the relations
   * between them that follow from their definitions.
   */
  function StatsOf(history: seq<Item>): (s: Stats)
    ensures s.totalMessages == |history|
    ensures s.contacted <= s.totalMessages && s.replied <= s.totalMessages
    ensures s.pending <= s.contacted
    ensures s.pending == s.contacted - |Filter(history, IsContactedAndReplied)|
    ensures s.contacted <= s.pending + s.replied
  {
    ContactedSplits(history);
    ContactedAndRepliedAreReplied(history);
    Stats(|history|, Contacted(history), Pending(history), Replied(history))
  }

  /** A list straight from the backend carries no flags, so every counter but the total is zero. */
  lemma {:induction false} BackendHistoryCountsNothing(hs: seq<Routes.HistoryItem>)
    ensures StatsOf(FromResponses(hs)) == Stats(|hs|, 0, 0, 0)
  {
    var items := FromResponses(hs);
    forall x | x in items ensures !IsContacted(x) && !IsPending(x) && !IsReplied(x) {
      var k :| 0 <= k < |items| && items[k] == x;
    }
    NoneSatisfy(items, IsContacted);
    NoneSatisfy(items, IsPending);
    NoneSatisfy(items, IsReplied);
  }

  lemma NoneSatisfy<T(!new)>(s: seq<T>, p: T -> bool)
    requires forall x :: x in s ==> !p(x)
    ensures Filter(s, p) == []
  {
  }
}
