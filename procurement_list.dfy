/**
 * The procurement request table: which actions each row offers, the approve
 * call, the status badge and the quantity and status cells.
 */
module ProcurementList {
  import opened Base
  import opened Js
  import opened Models

  /** Approve is offered on a PENDING request to an ADMIN session only. */
  predicate CanApprove(status: RequestStatus, role: Option<string>) {
    status == PENDING && role == Some("ADMIN")
  }

  /** Receive is offered while something approved is still expected. */
  predicate CanReceive(status: RequestStatus) {
    status == APPROVED || status == PARTIALLY_RECEIVED
  }

  /** The `POST /api/procurement/<id>/approve` call with its JSON body. */
  datatype ApproveCall = ApproveCall(path: string, approvedQty: real)

  /** `handleApprove`: nothing without the user's confirmation; otherwise full approval of the requested quantity. */
  function Approve(id: Id, requestedQty: real, confirmed: bool): (c: Option<ApproveCall>)
    ensures c.Some? <==> confirmed
    ensures c.Some? ==> c.value.approvedQty == requestedQty
    ensures c.Some? ==> (|c.value.path| > 25 && c.value.path[..17] == "/api/procurement/"
                         && c.value.path[|c.value.path| - 8..] == "/approve")
  {
    if !confirmed then None
    else Some(ApproveCall("/api/procurement/" + NatToString(id) + "/approve", requestedQty))
  }

  datatype Icon = Clock | Check | Truck | Package
  datatype Badge = Badge(color: string, bg: string, icon: Icon)

  const DefaultBadge: Badge := Badge("text-gray-500", "bg-gray-500/10", Clock)

  /** `getStatusBadge`: one badge per known status, the grey clock for anything else. */
  function StatusBadge(status: string): Badge {
    if status == "PENDING" then Badge("text-yellow-500", "bg-yellow-500/10", Clock)
    else if status == "APPROVED" then Badge("text-blue-500", "bg-blue-500/10", Check)
    else if status == "PARTIALLY_RECEIVED" then Badge("text-orange-500", "bg-orange-500/10", Truck)
    else if status == "RECEIVED" then Badge("text-green-500", "bg-green-500/10", Package)
    else DefaultBadge
  }

  /** `status.replace('_', ' ')`: only the first underscore becomes a space. */
  function ReplaceFirst(s: string, from: char, to: char): (r: string)
    ensures |r| == |s|
    decreases |s|
  {
    if s == [] then [] else if s[0] == from then [to] + s[1..] else [s[0]] + ReplaceFirst(s[1..], from, to)
  }

  /** The quantity cell `requested / approved || '-' / received || 0`. */
  function QuantityCell(r: ProcurementRequest): string {
    NumberToString(r.requestedQty) + " / "
    + (if r.approvedQty != 0.0 then NumberToString(r.approvedQty) else "-") + " / "
    + NumberToString(r.receivedQty)
  }

  /** The product cell: the populated group's name, or 'Unknown Product'. */
  function ProductCell(group: Option<ProductGroup>): string {
    if group.Some? && group.value.productName != "" then group.value.productName else "Unknown Product"
  }

  // -------------------------------------------------------------------- lemmas

  /** No row offers both actions; a received request offers neither, a pending one never Receive. */
  lemma ActionsExclusive(status: RequestStatus, role: Option<string>)
    ensures !(CanApprove(status, role) && CanReceive(status))
    ensures status == RECEIVED ==> !CanApprove(status, role) && !CanReceive(status)
    ensures CanApprove(status, role) || CanReceive(status) ==> status != RECEIVED
    ensures role != Some("ADMIN") ==> !CanApprove(status, role)
  {
  }

  /**
   * Each stored status has a badge of its own, and any value that is no
   * status name gets the default one.
   */
  lemma BadgesDistinct(a: RequestStatus, b: RequestStatus, other: string)
    requires forall s: RequestStatus :: other != RequestStatusName(s)
    ensures StatusBadge(RequestStatusName(a)) == StatusBadge(RequestStatusName(b)) <==> a == b
    ensures StatusBadge(RequestStatusName(a)) != DefaultBadge
    ensures StatusBadge(other) == DefaultBadge
  {
    assert other != RequestStatusName(PENDING) && other != RequestStatusName(APPROVED);
    assert other != RequestStatusName(PARTIALLY_RECEIVED) && other != RequestStatusName(RECEIVED);
  }

  /** Replacing the first underscore changes it alone: the text before it is unchanged. */
  lemma {:induction false} ReplaceFirstSpec(s: string, from: char, to: char, k: nat)
    requires k < |s| && s[k] == from && forall j :: 0 <= j < k ==> s[j] != from
    ensures ReplaceFirst(s, from, to) == s[..k] + [to] + s[k + 1..]
    decreases k
  {
    if k > 0 {
      ReplaceFirstSpec(s[1..], from, to, k - 1);
      assert s[1..][..k - 1] == s[1..k];
      assert s[1..][k..] == s[k + 1..];
    }
  }

  /** A string without the character is left as it is. */
  lemma {:induction false} ReplaceFirstAbsent(s: string, from: char, to: char)
    requires from !in s
    ensures ReplaceFirst(s, from, to) == s
    decreases |s|
  {
    if s != [] {
      ReplaceFirstAbsent(s[1..], from, to);
      assert [s[0]] + s[1..] == s;
    }
  }

  /** Every status shows without underscores: PARTIALLY_RECEIVED has only the one. */
  lemma StatusLabels(s: RequestStatus)
    ensures '_' !in ReplaceFirst(RequestStatusName(s), '_', ' ')
    ensures s == PARTIALLY_RECEIVED ==> ReplaceFirst(RequestStatusName(s), '_', ' ') == "PARTIALLY RECEIVED"
  {
    var n := RequestStatusName(s);
    if s == PARTIALLY_RECEIVED {
      ReplaceFirstSpec(n, '_', ' ', 9);
      assert n[..9] + [' '] + n[10..] == "PARTIALLY RECEIVED";
    } else {
      ReplaceFirstAbsent(n, '_', ' ');
    }
  }
}
