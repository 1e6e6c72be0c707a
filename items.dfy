/**
 * A message-history entry as the frontend keeps it: the backend's
 * `MessageHistoryItem` fields plus the checklist flags `contacted` and
 * `replied`, which the backend never sends and which are therefore absent
 * (`undefined`) until the checklist sets them.
 */
module Items {
  import opened Wrappers
  import Routes

  datatype Item = Item(
    id: nat,
    contactId: nat,
    targetName: string,
    targetRole: string,
    linkedinUrl: string,
    goalPrompt: string,
    generatedMessage: string,
    createdAt: nat,
    contacted: Option<bool>,
    replied: Option<bool>)

  /** A response object as received: every backend field, and neither flag. */
  function FromResponse(h: Routes.HistoryItem): (i: Item)
    ensures i.contacted.None? && i.replied.None?
    ensures i.id == h.id && i.contactId == h.contactId && i.createdAt == h.createdAt
    ensures i.targetName == h.targetName && i.targetRole == h.targetRole && i.linkedinUrl == h.linkedinUrl
    ensures i.goalPrompt == h.goalPrompt && i.generatedMessage == h.generatedMessage
  {
    Item(h.id, h.contactId, h.targetName, h.targetRole, h.linkedinUrl, h.goalPrompt,
         h.generatedMessage, h.createdAt, None, None)
  }

  /** A `/history` response as the list the dashboard stores. */
  function FromResponses(hs: seq<Routes.HistoryItem>): (items: seq<Item>)
    ensures |items| == |hs|
    ensures forall k :: 0 <= k < |hs| ==> items[k] == FromResponse(hs[k])
  {
    if hs == [] then [] else [FromResponse(hs[0])] + FromResponses(hs[1..])
  }
}
