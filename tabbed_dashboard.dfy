/**
 * The tabbed dashboard (components/Dashboard.jsx): the active tab, the
 * history list and the latest generated message, with the prepend of a new
 * message and the `contacted` toggle the checklist uses.
 */
module TabbedDashboard {
  import opened Wrappers
  import opened Js
  import opened Items
  import Profile
  import Routes

  datatype Tab = GenerateTab | ResultTab | HistoryTab | ChecklistTab | ProfileTab

  /** The tabs a button can select: the navigation bar and "generate another" never select the result tab. */
  type NavTab = t: Tab | t != ResultTab witness GenerateTab

  /** `item.id === id ? { ...item, contacted: !item.contacted } : item` */
  function ToggledItem(item: Item, id: nat): Item {
    if item.id == id then item.(contacted := Negated(item.contacted)) else item
  }

  /**
   * Lines 34-40: the same list in the same order, where each item with the
   * id has its `contacted` flag negated and every other item is untouched.
   */
  function ToggledHistory(h: seq<Item>, id: nat): (r: seq<Item>)
    ensures |r| == |h|
    ensures forall k :: 0 <= k < |h| && h[k].id == id ==>
      r[k] == h[k].(contacted := Negated(h[k].contacted))
    ensures forall k :: 0 <= k < |h| && h[k].id != id ==> r[k] == h[k]
  {
    if h == [] then [] else [ToggledItem(h[0], id)] + ToggledHistory(h[1..], id)
  }

  /**
   * Toggling twice gives every item back its `contacted` truth value and
   * all its other fields, but an absent flag comes back as a present
   * `false`, since `!undefined` is `true`.
   */
  lemma ToggledTwice(h: seq<Item>, id: nat)
    ensures |ToggledHistory(ToggledHistory(h, id), id)| == |h|
    ensures forall k :: 0 <= k < |h| ==>
      var t := ToggledHistory(ToggledHistory(h, id), id)[k];
      && Truthy(t.contacted) == Truthy(h[k].contacted)
      && t == h[k].(contacted := t.contacted)
    ensures forall k :: 0 <= k < |h| && h[k].id == id ==>
      ToggledHistory(ToggledHistory(h, id), id)[k].contacted == Some(Truthy(h[k].contacted))
  {
  }

  /** An item never checked off, toggled on and off again, is recorded as not contacted. */
  lemma UntouchedFlagComesBackFalse(item: Item)
    requires item.contacted.None?
    ensures ToggledHistory(ToggledHistory([item], item.id), item.id) == [item.(contacted := Some(false))]
  {
  }

  /**
   * When exactly one item (at index k) carries the id, the profile's
   * contacted count goes down by one if that item was contacted and up by
   * one otherwise.
   */
  lemma {:induction false} ToggleMovesContactedByOne(h: seq<Item>, id: nat, k: nat)
    requires k < |h| && h[k].id == id
    requires forall j :: 0 <= j < |h| && j != k ==> h[j].id != id
    ensures Profile.Contacted(ToggledHistory(h, id)) ==
      if Truthy(h[k].contacted) then Profile.Contacted(h) - 1 else Profile.Contacted(h) + 1
  {
    var t := ToggledHistory(h, id);
    assert t == [ToggledItem(h[0], id)] + ToggledHistory(h[1..], id);
    if k == 0 {
      var rest := h[1..];
      assert ToggledHistory(rest, id) == rest by {
        forall j | 0 <= j < |rest| ensures rest[j].id != id {
          assert rest[j] == h[j + 1];
        }
      }
    } else {
      forall j | 0 <= j < |h[1..]| && j != k - 1 ensures h[1..][j].id != id {
        assert h[1..][j] == h[j + 1];
      }
      ToggleMovesContactedByOne(h[1..], id, k - 1);
    }
  }

  class Dashboard {
    var activeTab: Tab
    var history: seq<Item>
    var latestMessage: Option<Item>

    /** Lines 10-12 */
    constructor()
      ensures activeTab == GenerateTab && history == [] && latestMessage.None?
    {
      activeTab := GenerateTab;
      history := [];
      latestMessage := None;
    }

    /** Line 86: the result view needs both the result tab and a message. */
    predicate ResultViewShown()
      reads this
      ensures ResultViewShown() ==> activeTab == ResultTab && latestMessage.Some?
    {
      activeTab == ResultTab && latestMessage.Some?
    }

    /** Lines 18-26, after the request: a response replaces the list, a failure leaves it. */
    method LoadHistoryResolved(response: Option<seq<Routes.HistoryItem>>)
      modifies this
      ensures response.Some? ==> history == FromResponses(response.value)
      ensures response.None? ==> history == old(history)
      ensures activeTab == old(activeTab) && latestMessage == old(latestMessage)
    {
      if response.Some? {
        history := FromResponses(response.value);
      }
    }

    /** Lines 28-32: the message becomes the latest, goes to the top of the list, and is shown. */
    method HandleMessageGenerated(message: Item)
      modifies this
      ensures latestMessage == Some(message)
      ensures history == [message] + old(history)
      ensures activeTab == ResultTab
      ensures ResultViewShown()
    {
      latestMessage := Some(message);
      history := [message] + history;
      activeTab := ResultTab;
    }

    /** Lines 34-40 */
    method ToggleContacted(id: nat)
      modifies this
      ensures history == ToggledHistory(old(history), id)
      ensures activeTab == old(activeTab) && latestMessage == old(latestMessage)
    {
      history := ToggledHistory(history, id);
    }

    /** Lines 51-74 and 89: a navigation button selects its tab and nothing else. */
    method Navigate(tab: NavTab)
      modifies this
      ensures activeTab == tab && history == old(history) && latestMessage == old(latestMessage)
      ensures !ResultViewShown()
    {
      activeTab := tab;
    }
  }
}
