/** Refunds and refund lines (ecommerce/extensions/refund/models.py).

    A `Refund` and each of its `RefundLine`s carry a status that only moves
    along a configured pipeline. The two outside effects of approving a
    refund, issuing the credit through the payment processor and revoking
    the fulfilment of its lines, are not visible here: their outcomes are
    parameters of `Approve`. Money is in minor units (cents). */
module Refunds {
  import opened Wrappers
  import opened StatusPipeline

  /** The statuses of `REFUND` that the model refers to. */
  datatype RefundStatus = Open | PaymentRefundError | PaymentRefunded | RevocationError | Complete | Denied

  /** The statuses of `REFUND_LINE`. */
  datatype LineStatus = LineOpen | LineRevocationError | LineDenied | LineComplete

  type RefundError = InvalidStatus<RefundStatus>

  /** What `_issue_credit` ends in: the credit was issued (or there was no
      payment source to credit, which the source logs and accepts), or the
      processor raised a `PaymentError`. */
  datatype CreditOutcome = CreditIssued | PaymentFailed

  /** The part of an order line that a refund reads. */
  datatype OrderLine = OrderLine(linePriceExclTax: int, quantity: nat, hasRefundLines: bool)

  function Sum(xs: seq<int>): int
  {
    if xs == [] then 0 else Sum(xs[..|xs| - 1]) + xs[|xs| - 1]
  }

  /** The order lines without refund lines, in their order. */
  function Unrefunded(lines: seq<OrderLine>): seq<OrderLine>
  {
    if lines == [] then []
    else if lines[0].hasRefundLines then Unrefunded(lines[1..])
    else [lines[0]] + Unrefunded(lines[1..])
  }

  function Prices(lines: seq<OrderLine>): (r: seq<int>)
    ensures |r| == |lines|
  {
    seq(|lines|, k requires 0 <= k < |lines| => lines[k].linePriceExclTax)
  }

  lemma {:induction false} UnrefundedMembers(lines: seq<OrderLine>)
    ensures forall l :: l in Unrefunded(lines) <==> l in lines && !l.hasRefundLines
    ensures |Unrefunded(lines)| <= |lines|
  {
    if lines != [] {
      UnrefundedMembers(lines[1..]);
      assert lines == [lines[0]] + lines[1..];
    }
  }

  /** `_revoke_lines` as seen from the refund's status: from a status that
      awaits revocation, move to COMPLETE when revocation succeeded and to
      REVOCATION_ERROR otherwise; then report whether the refund is complete. */
  function RevokeStep(pipeline: Pipeline<RefundStatus>, s: RefundStatus, revoked: bool): (Result<bool, RefundError>, RefundStatus)
  {
    if s == PaymentRefunded || s == RevocationError then
      var target := if revoked then Complete else RevocationError;
      match Transition(pipeline, s, target)
      case Err(e) => (Err(e), s)
      case Ok(t) => (Ok(t == Complete), t)
    else (Ok(s == Complete), s)
  }

  /** `Refund.approve` as a function of the status it starts from and the two
      outside outcomes: what it returns (or the `InvalidStatus` it raises)
      and the status the refund is left in. */
  function ApproveSpec(pipeline: Pipeline<RefundStatus>, s: RefundStatus, credit: CreditOutcome, revoked: bool)
    : (r: (Result<bool, RefundError>, RefundStatus))
    ensures r.0 == Ok(true) ==> r.1 == Complete
    ensures r.0.Err? ==> r.1 == r.0.error.current && r.0.error.requested !in AvailableStatuses(pipeline, r.1)
  {
    if s == Complete || s == Denied then (Ok(false), s)
    else if s == Open || s == PaymentRefundError then
      if credit == PaymentFailed then
        match Transition(pipeline, s, PaymentRefundError)
        case Err(e) => (Err(e), s)
        case Ok(t) => (Ok(false), t)
      else
        match Transition(pipeline, s, PaymentRefunded)
        case Err(e) => (Err(e), s)
        case Ok(t) => RevokeStep(pipeline, t, revoked)
    else RevokeStep(pipeline, s, revoked)
  }

  /** The refund's own part of `deny`: a refund outside the initial status
      answers false and stays; otherwise it moves to DENIED and goes on to
      deny its lines (true here), or `InvalidStatus` escapes and it stays. */
  function DenyStatus(pipeline: Pipeline<RefundStatus>, initialStatus: RefundStatus, s: RefundStatus)
    : (r: (Result<bool, RefundError>, RefundStatus))
    ensures r.0 == Ok(true) <==> s == initialStatus && Denied in AvailableStatuses(pipeline, s)
    ensures r.0 == Ok(true) ==> r.1 == Denied
    ensures r.0 != Ok(true) ==> r.1 == s
    ensures r.0.Err? ==> r.0.error == InvalidStatus(s, Denied)
    ensures s != initialStatus ==> r == (Ok(false), s)
    ensures r.0.Err? <==> s == initialStatus && Denied !in AvailableStatuses(pipeline, s)
  {
    if s != initialStatus then (Ok(false), s)
    else
      match Transition(pipeline, s, Denied)
      case Err(e) => (Err(e), s)
      case Ok(t) => (Ok(true), t)
  }

  /** A refund that is complete or denied cannot be approved: `approve`
      returns false and the status stays. */
  lemma ApproveWhenClosed(pipeline: Pipeline<RefundStatus>, s: RefundStatus, credit: CreditOutcome, revoked: bool)
    requires s == Complete || s == Denied
    ensures ApproveSpec(pipeline, s, credit, revoked) == (Ok(false), s)
  {
  }

  /** A `PaymentError` while issuing the credit moves an open refund (or one
      whose earlier credit failed) to PAYMENT_REFUND_ERROR and approve returns
      false; if the pipeline forbids that move, `InvalidStatus` escapes and
      the status stays. */
  lemma ApprovePaymentFailure(pipeline: Pipeline<RefundStatus>, s: RefundStatus, revoked: bool)
    requires s == Open || s == PaymentRefundError
    ensures var (r, t) := ApproveSpec(pipeline, s, PaymentFailed, revoked);
      if PaymentRefundError in AvailableStatuses(pipeline, s) then r == Ok(false) && t == PaymentRefundError
      else r == Err(InvalidStatus(s, PaymentRefundError)) && t == s
  {
  }

  /** Once the credit is issued and the pipeline allows the moves, revocation
      decides the end: COMPLETE and true when it succeeded, REVOCATION_ERROR
      and false when it failed. */
  lemma ApproveAfterCredit(pipeline: Pipeline<RefundStatus>, s: RefundStatus, revoked: bool)
    requires s == Open || s == PaymentRefundError
    requires PaymentRefunded in AvailableStatuses(pipeline, s)
    requires Complete in AvailableStatuses(pipeline, PaymentRefunded)
    requires RevocationError in AvailableStatuses(pipeline, PaymentRefunded)
    ensures var (r, t) := ApproveSpec(pipeline, s, CreditIssued, revoked);
      r == Ok(revoked) && t == (if revoked then Complete else RevocationError)
  {
  }

  /** On a refund that can be approved, `approve` returns true exactly when
      it leaves the refund COMPLETE (an already complete refund yields false);
      and whatever happens, the status only moves along the pipeline, at most
      two steps. */
  lemma ApproveTrueIffComplete(pipeline: Pipeline<RefundStatus>, s: RefundStatus, credit: CreditOutcome, revoked: bool)
    ensures var (r, t) := ApproveSpec(pipeline, s, credit, revoked);
      && (r == Ok(true) <==> r.Ok? && t == Complete && s != Complete && s != Denied)
      && (t == s || t in AvailableStatuses(pipeline, s)
          || exists m :: m in AvailableStatuses(pipeline, s) && t in AvailableStatuses(pipeline, m))
  {
    var (r, t) := ApproveSpec(pipeline, s, credit, revoked);
    if s == Complete || s == Denied {
    } else if s == Open || s == PaymentRefundError {
      if credit == CreditIssued && Transition(pipeline, s, PaymentRefunded).Ok? {
        assert (r, t) == RevokeStep(pipeline, PaymentRefunded, revoked);
        if t != PaymentRefunded {
          assert PaymentRefunded in AvailableStatuses(pipeline, s) && t in AvailableStatuses(pipeline, PaymentRefunded);
        }
      }
    } else {
      assert (r, t) == RevokeStep(pipeline, s, revoked);
    }
  }

  /** A refund line: one order line's share of a refund. */
  class RefundLine {
    const pipeline: Pipeline<LineStatus>
    const lineCreditExclTax: int
    const quantity: nat
    var status: LineStatus

    constructor (pipeline: Pipeline<LineStatus>, lineCreditExclTax: int, quantity: nat, status: LineStatus)
      ensures this.pipeline == pipeline && this.lineCreditExclTax == lineCreditExclTax
      ensures this.quantity == quantity && this.status == status
    {
      this.pipeline := pipeline;
      this.lineCreditExclTax := lineCreditExclTax;
      this.quantity := quantity;
      this.status := status;
    }

    /** `set_status`: moves to `newStatus` if the pipeline allows it and
        raises `InvalidStatus` (status unchanged) otherwise. */
    method SetStatus(newStatus: LineStatus) returns (o: Outcome<InvalidStatus<LineStatus>>)
      modifies this`status
      ensures o.Pass? <==> newStatus in AvailableStatuses(pipeline, old(status))
      ensures o.Fail? ==> o.error == InvalidStatus(old(status), newStatus)
      ensures status == if o.Pass? then newStatus else old(status)
    {
      match Transition(pipeline, status, newStatus)
      case Ok(s) =>
        status := s;
        o := Pass;
      case Err(e) =>
        o := Fail(e);
    }

    /** `RefundLine.deny`. */
    method Deny() returns (o: Outcome<InvalidStatus<LineStatus>>)
      modifies this`status
      ensures o.Pass? <==> LineDenied in AvailableStatuses(pipeline, old(status))
      ensures status == if o.Pass? then LineDenied else old(status)
    {
      o := SetStatus(LineDenied);
    }
  }

  function Quantities(lines: seq<RefundLine>): (r: seq<int>)
    ensures |r| == |lines|
  {
    seq(|lines|, k requires 0 <= k < |lines| => lines[k].quantity)
  }

  function Credits(lines: seq<RefundLine>): (r: seq<int>)
    ensures |r| == |lines|
  {
    seq(|lines|, k requires 0 <= k < |lines| => lines[k].lineCreditExclTax)
  }

  class Refund {
    const pipeline: Pipeline<RefundStatus>
    /** The configured initial refund status. */
    const initialStatus: RefundStatus
    const totalCreditExclTax: int
    var status: RefundStatus
    var lines: seq<RefundLine>

    /** Each refund line is its own row. */
    ghost predicate Valid()
      reads this
    {
      forall i, j :: 0 <= i < j < |lines| ==> lines[i] != lines[j]
    }

    constructor (pipeline: Pipeline<RefundStatus>, initialStatus: RefundStatus, totalCreditExclTax: int)
      ensures this.pipeline == pipeline && this.initialStatus == initialStatus
      ensures this.totalCreditExclTax == totalCreditExclTax
      ensures status == initialStatus && lines == [] && Valid()
    {
      this.pipeline := pipeline;
      this.initialStatus := initialStatus;
      this.totalCreditExclTax := totalCreditExclTax;
      status := initialStatus;
      lines := [];
    }

    /** A refund that cannot be approved is left alone by `approve`, which
        returns false. One that can is never answered with false and left
        unchanged when the credit is issued and revocation succeeds: the
        approval either moves the status or raises `InvalidStatus`. */
    predicate CanApprove()
      reads this
      ensures !CanApprove() ==>
        forall credit, revoked :: ApproveSpec(pipeline, status, credit, revoked) == (Ok(false), status)
      ensures CanApprove() ==> ApproveSpec(pipeline, status, CreditIssued, true) != (Ok(false), status)
    {
      status != Complete && status != Denied
    }

    /** A refund that cannot be denied is left alone by `deny`, which
        returns false; one that can is either DENIED afterwards or refused by
        its pipeline with `InvalidStatus`. */
    predicate CanDeny()
      reads this
      ensures !CanDeny() ==> DenyStatus(pipeline, initialStatus, status) == (Ok(false), status)
      ensures CanDeny() ==>
        || DenyStatus(pipeline, initialStatus, status) == (Ok(true), Denied)
        || DenyStatus(pipeline, initialStatus, status) == (Err(InvalidStatus(status, Denied)), status)
    {
      status == initialStatus
    }

    /** `num_items`: the number of items over all refund lines. */
    method NumItems() returns (n: int)
      ensures n == Sum(Quantities(lines))
    {
      n := 0;
      for i := 0 to |lines|
        invariant n == Sum(Quantities(lines[..i]))
      {
        assert Quantities(lines[..i + 1]) == Quantities(lines[..i]) + [lines[i].quantity];
        n := n + lines[i].quantity;
      }
      assert lines[..|lines|] == lines;
    }

    method SetStatus(newStatus: RefundStatus) returns (o: Outcome<RefundError>)
      modifies this`status
      ensures o.Pass? <==> newStatus in AvailableStatuses(pipeline, old(status))
      ensures o.Fail? ==> o.error == InvalidStatus(old(status), newStatus)
      ensures status == if o.Pass? then newStatus else old(status)
    {
      match Transition(pipeline, status, newStatus)
      case Ok(s) =>
        status := s;
        o := Pass;
      case Err(e) =>
        o := Fail(e);
    }

    /** `_revoke_lines`, with the outcome of revoking the fulfilment given. */
    method RevokeLines(revoked: bool) returns (o: Outcome<RefundError>)
      modifies this`status
      ensures o.Pass? <==> (if revoked then Complete else RevocationError) in AvailableStatuses(pipeline, old(status))
      ensures o.Fail? ==> o.error == InvalidStatus(old(status), if revoked then Complete else RevocationError)
      ensures status == if o.Pass? then (if revoked then Complete else RevocationError) else old(status)
    {
      if revoked {
        o := SetStatus(Complete);
      } else {
        o := SetStatus(RevocationError);
      }
    }

    /** `approve`, with the outcomes of issuing the credit and of revoking
        the fulfilment given. */
    method Approve(credit: CreditOutcome, revoked: bool) returns (r: Result<bool, RefundError>)
      modifies this`status
      ensures (r, status) == ApproveSpec(pipeline, old(status), credit, revoked)
    {
      if !CanApprove() {
        return Ok(false);
      } else if status == Open || status == PaymentRefundError {
        if credit == PaymentFailed {
          var o := SetStatus(PaymentRefundError);
          if o.Fail? {
            return Err(o.error);
          }
          return Ok(false);
        }
        var o := SetStatus(PaymentRefunded);
        if o.Fail? {
          return Err(o.error);
        }
      }
      if status == PaymentRefunded || status == RevocationError {
        var o := RevokeLines(revoked);
        if o.Fail? {
          return Err(o.error);
        }
      }
      return Ok(status == Complete);
    }

    /** `deny`: only a refund still in the initial status can be denied; it
        becomes DENIED, every line is asked to become DENIED, and the result
        is true exactly when no line refused. */
    method Deny() returns (r: Result<bool, RefundError>)
      requires Valid()
      modifies this`status, lines
      ensures Valid() && lines == old(lines)
      ensures status == DenyStatus(pipeline, initialStatus, old(status)).1
      ensures DenyStatus(pipeline, initialStatus, old(status)).0 != Ok(true) ==>
        r == DenyStatus(pipeline, initialStatus, old(status)).0
      ensures old(status) != initialStatus ==>
        r == Ok(false) && status == old(status) && forall k :: 0 <= k < |lines| ==> lines[k].status == old(lines[k].status)
      ensures old(status) == initialStatus && Denied !in AvailableStatuses(pipeline, old(status)) ==>
        r == Err(InvalidStatus(old(status), Denied)) && status == old(status)
        && forall k :: 0 <= k < |lines| ==> lines[k].status == old(lines[k].status)
      ensures old(status) == initialStatus && Denied in AvailableStatuses(pipeline, old(status)) ==>
        && status == Denied
        && (forall k :: 0 <= k < |lines| ==>
              (lines[k].status ==
                 if LineDenied in AvailableStatuses(lines[k].pipeline, old(lines[k].status)) then LineDenied
                 else old(lines[k].status)))
        && r == Ok(forall k :: 0 <= k < |lines| ==> LineDenied in AvailableStatuses(lines[k].pipeline, old(lines[k].status)))
    {
      if !CanDeny() {
        return Ok(false);
      }
      var o := SetStatus(Denied);
      if o.Fail? {
        return Err(o.error);
      }
      var result := true;
      for i := 0 to |lines|
        invariant lines == old(lines) && status == Denied
        invariant forall k :: 0 <= k < i ==>
          (lines[k].status ==
             if LineDenied in AvailableStatuses(lines[k].pipeline, old(lines[k].status)) then LineDenied
             else old(lines[k].status))
        invariant forall k :: i <= k < |lines| ==> lines[k].status == old(lines[k].status)
        invariant result == forall k :: 0 <= k < i ==> LineDenied in AvailableStatuses(lines[k].pipeline, old(lines[k].status))
      {
        var lineOutcome := lines[i].Deny();
        if lineOutcome.Fail? {
          result := false;
        }
      }
      return Ok(result);
    }
  }

  /** `Refund.create_with_lines`: a refund for the order lines that have no
      refund lines yet, with one refund line per such order line; a refund
      whose total credit is zero is approved straight away. Returns None when
      every given line was already refunded. The outcomes that approval needs
      are parameters; `InvalidStatus` raised by that approval escapes. */
  method CreateWithLines(
    orderLines: seq<OrderLine>,
    pipeline: Pipeline<RefundStatus>, initialStatus: RefundStatus,
    linePipeline: Pipeline<LineStatus>, initialLineStatus: LineStatus,
    credit: CreditOutcome, revoked: bool)
    returns (r: Result<Option<Refund>, RefundError>)
    ensures r == Ok(None) <==> Unrefunded(orderLines) == []
    ensures r.Err? <==> && Unrefunded(orderLines) != [] && Sum(Prices(Unrefunded(orderLines))) == 0
                        && ApproveSpec(pipeline, initialStatus, credit, revoked).0.Err?
    ensures r.Err? ==>
      Sum(Prices(Unrefunded(orderLines))) == 0 && ApproveSpec(pipeline, initialStatus, credit, revoked).0 == Err(r.error)
    ensures r.Ok? && r.value.Some? ==>
      var refund := r.value.value;
      var unrefunded := Unrefunded(orderLines);
      && fresh(refund) && refund.Valid()
      && refund.pipeline == pipeline && refund.initialStatus == initialStatus
      && refund.totalCreditExclTax == Sum(Prices(unrefunded)) == Sum(Credits(refund.lines))
      && |refund.lines| == |unrefunded|
      && (forall k :: 0 <= k < |unrefunded| ==>
            && fresh(refund.lines[k])
            && refund.lines[k].lineCreditExclTax == unrefunded[k].linePriceExclTax
            && refund.lines[k].quantity == unrefunded[k].quantity
            && refund.lines[k].status == initialLineStatus
            && refund.lines[k].pipeline == linePipeline)
      && refund.status == if refund.totalCreditExclTax == 0
                          then ApproveSpec(pipeline, initialStatus, credit, revoked).1
                          else initialStatus
  {
    var unrefunded := Unrefunded(orderLines);
    if unrefunded == [] {
      return Ok(None);
    }
    var total := Sum(Prices(unrefunded));
    var refund := new Refund(pipeline, initialStatus, total);
    for i := 0 to |unrefunded|
      invariant fresh(refund) && refund.Valid()
      invariant refund.status == initialStatus
      invariant |refund.lines| == i
      invariant Credits(refund.lines) == Prices(unrefunded[..i])
      invariant forall k :: 0 <= k < i ==>
        && fresh(refund.lines[k])
        && refund.lines[k].lineCreditExclTax == unrefunded[k].linePriceExclTax
        && refund.lines[k].quantity == unrefunded[k].quantity
        && refund.lines[k].status == initialLineStatus
        && refund.lines[k].pipeline == linePipeline
    {
      var line := new RefundLine(linePipeline, unrefunded[i].linePriceExclTax, unrefunded[i].quantity, initialLineStatus);
      refund.lines := refund.lines + [line];
    }
    assert unrefunded[..|unrefunded|] == unrefunded;
    if total == 0 {
      var approved := refund.Approve(credit, revoked);
      if approved.Err? {
        return Err(approved.error);
      }
    }
    return Ok(Some(refund));
  }
}
