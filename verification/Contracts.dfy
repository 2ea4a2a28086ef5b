/** A contract's life: the status guards of both sides' handlers, what a handler does whose look at the contract
    is out of date by the time it writes, and which way a contract can become active. */
module Contracts {
  import opened Ledger
  import opened Sums

  datatype ContractStatus =
    | DraftContract | PendingSignature | PendingPayment | Active | Expired | Terminated | Cancelled

  // `dated` says whether a signing date is set.
  datatype Contract = Contract(
    status: ContractStatus,
    requireSignature: bool,
    hasFile: bool,
    dated: bool,
    revision: int)

  // What the signature service says about a contract file, if it answers.
  datatype Verification = Verified(provider: bool, customer: bool) | NoReply

  predicate BothSigned(v: Verification) {
    v.Verified? && v.provider && v.customer
  }

  /** The check before an activation, from the requirement and the file that were read. */
  predicate Signed(flag: bool, file: bool, v: Verification) {
    !flag || (file && BothSigned(v))
  }

  predicate FullySigned(c: Contract, v: Verification) {
    Signed(c.requireSignature, c.hasFile, v)
  }

  // A `Late` act is the write of a handler that has read the contract some time before: an activation carries
  // the requirement and the file it read.
  datatype Act =
    | Update(requireSignature: Option<bool>, newFile: bool)
    | Send(ready: bool, v: Verification)
    | Revoke
    | Reject
    | CancelService(paid: bool)
    | Approve(prepaid: bool, v: Verification)
    | ConfirmTerms(prepaid: bool, v: Verification)
    | ActivateAfterPrepayment(v: Verification)
    | InvoicePaidFor(v: Verification)
    | Terminate
    | Lapse
    | LateUpdate(edit: Option<bool>, newFile: bool)
    | LateSend
    | LateRevoke
    | LateReject
    | LateApprove(flag: bool, file: bool, prepaid: bool, v: Verification)
    | LateActivate(flag: bool, file: bool, v: Verification)
    | LatePaid(flag: bool, file: bool, v: Verification)

  function Edited(c: Contract, flag: Option<bool>, file: bool): Contract {
    c.(requireSignature := if flag.Some? then flag.value else c.requireSignature, hasFile := c.hasFile || file)
  }

  /** The customer's approval: its write is guarded by the status, not by what was read of the signatures. */
  function Approved(c: Contract, flag: bool, file: bool, prepaid: bool, v: Verification): Contract {
    if !c.status.PendingSignature? then c
    else if prepaid then c.(status := PendingPayment, dated := true)
    else if Signed(flag, file, v) then c.(status := Active, dated := true)
    else c.(dated := true)
  }

  /** The write of a prepaid contract's activation has no guard at all. */
  function Activated(c: Contract, flag: bool, file: bool, v: Verification): Contract {
    if Signed(flag, file, v) then c.(status := Active) else c
  }

  /** Nor has the payment message's. */
  function PaidUp(c: Contract, flag: bool, file: bool, v: Verification): Contract {
    if Signed(flag, file, v) then c.(status := Active, dated := true, revision := c.revision + 1) else c
  }

  function Acted(c: Contract, a: Act): Contract {
    match a
    case Update(flag, file) =>
      if c.status.DraftContract? || c.status.PendingSignature? then Edited(c, flag, file) else c
    case Send(ready, v) =>
      if !c.status.DraftContract? || !ready then c
      else if c.requireSignature && !(v.Verified? && v.provider) then c.(hasFile := true)
      else c.(status := PendingSignature, hasFile := true, revision := c.revision + 1)
    case Revoke => if c.status.PendingSignature? then c.(status := DraftContract) else c
    case Reject => if c.status.DraftContract? then c.(status := Cancelled, revision := c.revision + 1) else c
    case CancelService(paid) =>
      if c.status.DraftContract? || c.status.PendingSignature? || (c.status.PendingPayment? && !paid)
      then c.(status := Cancelled) else c
    case Approve(prepaid, v) => Approved(c, c.requireSignature, c.hasFile, prepaid, v)
    case ConfirmTerms(prepaid, v) =>
      if c.requireSignature then c else Approved(c, c.requireSignature, c.hasFile, prepaid, v)
    case ActivateAfterPrepayment(v) =>
      if c.status.PendingPayment? then Activated(c, c.requireSignature, c.hasFile, v) else c
    case InvoicePaidFor(v) =>
      if c.status.Active? then c else PaidUp(c, c.requireSignature, c.hasFile, v)
    case Terminate => if c.status.Active? then c.(status := Terminated, revision := c.revision + 1) else c
    case Lapse => if c.status.PendingPayment? && c.dated then c.(status := Cancelled) else c
    case LateUpdate(flag, file) => Edited(c, flag, file)
    case LateSend => c.(status := PendingSignature, hasFile := true, revision := c.revision + 1)
    case LateRevoke => c.(status := DraftContract)
    case LateReject => c.(status := Cancelled, revision := c.revision + 1)
    case LateApprove(flag, file, prepaid, v) => Approved(c, flag, file, prepaid, v)
    case LateActivate(flag, file, v) => Activated(c, flag, file, v)
    case LatePaid(flag, file, v) => PaidUp(c, flag, file, v)
  }

  function Life(c: Contract, acts: seq<Act>): Contract {
    Folded(Acted, c, acts)
  }

  // ---- Signing dates ----------------------------------------------------------

  /** A contract waits for payment only once it has a signing date, so its deadline is always known. */
  predicate DeadlineKnown(c: Contract) {
    c.status.PendingPayment? ==> c.dated
  }

  /** No handler, late or not, leaves a contract waiting for payment without a deadline. */
  lemma {:induction false} DeadlineAlwaysKnown(c: Contract, acts: seq<Act>)
    requires DeadlineKnown(c)
    ensures DeadlineKnown(Life(c, acts))
  {
    if acts != [] {
      DeadlineAlwaysKnown(c, acts[..|acts| - 1]);
    }
  }

  // ---- Signatures -------------------------------------------------------------

  predicate Activating(c: Contract, a: Act) {
    !c.status.Active? && Acted(c, a).status.Active?
  }

  /** This step asked for the signatures of both sides on the contract's file and found them. */
  predicate Verifies(c: Contract, a: Act) {
    match a
    case Approve(_, v) => c.requireSignature && c.hasFile && BothSigned(v)
    case ActivateAfterPrepayment(v) => c.requireSignature && c.hasFile && BothSigned(v)
    case InvoicePaidFor(v) => c.requireSignature && c.hasFile && BothSigned(v)
    case LateApprove(flag, file, _, v) => flag && file && BothSigned(v)
    case LateActivate(flag, file, v) => flag && file && BothSigned(v)
    case LatePaid(flag, file, v) => flag && file && BothSigned(v)
    case _ => false
  }

  // A contract, and what held when it last became active: whether it required signatures, and whether they
  // were verified.
  datatype Record = Record(c: Contract, required: bool, verified: bool)

  function Noted(r: Record, a: Act): Record {
    if Activating(r.c, a) then Record(Acted(r.c, a), r.c.requireSignature, Verifies(r.c, a))
    else r.(c := Acted(r.c, a))
  }

  function Recorded(r: Record, acts: seq<Act>): Record {
    Folded(Noted, r, acts)
  }

  /** An active contract has the requirement it was activated under, and if it requires signatures they were
      verified then. */
  predicate Honoured(r: Record) {
    r.c.status.Active? ==> r.c.requireSignature == r.required && (r.required ==> r.verified)
  }

  /** An edit that lands on an active contract leaves its requirement as it is, and an activation that lands
      late read the requirement the contract now has. */
  predicate Careful(c: Contract, a: Act) {
    match a
    case LateUpdate(edit, _) => c.status.Active? && edit.Some? ==> edit.value == c.requireSignature
    case LateApprove(flag, _, _, _) => Activating(c, a) && c.requireSignature ==> flag
    case LateActivate(flag, _, _) => Activating(c, a) && c.requireSignature ==> flag
    case LatePaid(flag, _, _) => Activating(c, a) && c.requireSignature ==> flag
    case _ => true
  }

  lemma StepHonoursExactly(r: Record, a: Act)
    requires Honoured(r)
    ensures Honoured(Noted(r, a)) <==> Careful(r.c, a)
  {
  }

  predicate AllHonoured(r: Record, acts: seq<Act>) {
    forall n :: 0 <= n <= |acts| ==> Honoured(Recorded(r, acts[..n]))
  }

  predicate AllCareful(c: Contract, acts: seq<Act>) {
    forall k :: 0 <= k < |acts| ==> Careful(Life(c, acts[..k]), acts[k])
  }

  lemma {:induction false} RecordFollows(r: Record, acts: seq<Act>)
    ensures Recorded(r, acts).c == Life(r.c, acts)
  {
    if acts != [] {
      RecordFollows(r, acts[..|acts| - 1]);
    }
  }

  lemma HonouredSnoc(r: Record, before: seq<Act>, a: Act)
    ensures AllHonoured(r, before + [a]) <==>
      AllHonoured(r, before) && Honoured(Noted(Recorded(r, before), a))
  {
    var acts := before + [a];
    var n := |before|;
    assert forall k :: 0 <= k <= n ==> acts[..k] == before[..k];
    assert acts[..n + 1] == acts && acts[..n] == before;
    assert Recorded(r, acts) == Noted(Recorded(r, before), a);
  }

  lemma CarefulSnoc(c: Contract, before: seq<Act>, a: Act)
    ensures AllCareful(c, before + [a]) <==> AllCareful(c, before) && Careful(Life(c, before), a)
  {
    var acts := before + [a];
    assert forall k :: 0 <= k <= |before| ==> acts[..k] == before[..k];
    assert before[..|before|] == before && acts[|before|] == a;
  }

  /** At every moment of a contract's life an active contract has kept the requirement it was activated under
      and, if it requires signatures, had both verified then: exactly when every late write is careful. */
  lemma {:induction false} SignaturesHonouredExactly(r: Record, acts: seq<Act>)
    requires Honoured(r)
    ensures AllHonoured(r, acts) <==> AllCareful(r.c, acts)
  {
    if acts != [] {
      var before, a := acts[..|acts| - 1], acts[|acts| - 1];
      assert acts == before + [a];
      SignaturesHonouredExactly(r, before);
      HonouredSnoc(r, before, a);
      CarefulSnoc(r.c, before, a);
      RecordFollows(r, before);
      assert before[..|before|] == before;
      if Honoured(Recorded(r, before)) {
        StepHonoursExactly(Recorded(r, before), a);
      }
    }
  }

  /** Step `k` made the contract active for the last time. */
  predicate LastActivation(c: Contract, acts: seq<Act>, k: nat) {
    && k < |acts|
    && Activating(Life(c, acts[..k]), acts[k])
    && forall j :: k < j <= |acts| ==> Life(c, acts[..j]).status.Active?
  }

  /** What the record is a record of. */
  lemma {:induction false} RecordIsOfLastActivation(r: Record, acts: seq<Act>) returns (k: nat)
    requires !r.c.status.Active? && Life(r.c, acts).status.Active?
    ensures LastActivation(r.c, acts, k)
    ensures var was := Life(r.c, acts[..k]);
      var now := Recorded(r, acts);
      now.required == was.requireSignature && now.verified == Verifies(was, acts[k])
  {
    assert acts != [];
    var n := |acts| - 1;
    var before := acts[..n];
    RecordFollows(r, before);
    assert acts[..n + 1] == acts;
    assert Recorded(r, acts) == Noted(Recorded(r, before), acts[n]);
    if Life(r.c, before).status.Active? {
      k := RecordIsOfLastActivation(r, before);
      assert forall j :: 0 <= j <= n ==> acts[..j] == before[..j];
    } else {
      k := n;
    }
  }

  /** So as long as late writes are careful, a contract that is active has been so since a step that left it
      the requirement it has now and, if it requires signatures, verified both. */
  lemma ActiveMeansSigned(c: Contract, acts: seq<Act>) returns (k: nat)
    requires !c.status.Active? && AllCareful(c, acts) && Life(c, acts).status.Active?
    ensures LastActivation(c, acts, k)
    ensures Life(c, acts).requireSignature == Life(c, acts[..k]).requireSignature
    ensures Life(c, acts).requireSignature ==> Verifies(Life(c, acts[..k]), acts[k])
  {
    var r := Record(c, false, false);
    SignaturesHonouredExactly(r, acts);
    RecordFollows(r, acts);
    assert acts[..|acts|] == acts;
    k := RecordIsOfLastActivation(r, acts);
  }

  predicate NeverVerified(c: Contract, acts: seq<Act>) {
    forall k :: 0 <= k < |acts| ==> !Verifies(Life(c, acts[..k]), acts[k])
  }

  lemma LifeOfTwo(c: Contract, first: Act, second: Act)
    ensures Life(c, [first]) == Acted(c, first)
    ensures Life(c, [first, second]) == Acted(Acted(c, first), second)
    ensures !Verifies(c, first) && !Verifies(Acted(c, first), second) ==> NeverVerified(c, [first, second])
  {
    var acts := [first, second];
    assert acts[..1] == [first] && acts[..0] == [] && [first][..0] == [];
    assert Life(c, [first]) == Acted(Life(c, []), first);
    assert Life(c, acts) == Acted(Life(c, [first]), second);
  }

  /** An edit that checked the status before an approval and writes after it leaves the contract active and
      requiring signatures, with none ever verified. */
  lemma LateUpdateForgetsSignatures(c: Contract, v: Verification)
    requires c.status.PendingSignature? && !c.requireSignature
    ensures var acts := [Approve(false, v), LateUpdate(Some(true), false)];
      Life(c, acts).status.Active? && Life(c, acts).requireSignature && NeverVerified(c, acts)
  {
    LifeOfTwo(c, Approve(false, v), LateUpdate(Some(true), false));
  }

  /** So does an edit, however prompt, that lands between an approval's reading that no signature is required
      and its write. */
  lemma UpdateDuringApprovalForgetsSignatures(c: Contract, v: Verification)
    requires c.status.PendingSignature? && !c.requireSignature
    ensures var acts := [Update(Some(true), false), LateApprove(c.requireSignature, c.hasFile, false, v)];
      Life(c, acts).status.Active? && Life(c, acts).requireSignature && NeverVerified(c, acts)
  {
    LifeOfTwo(c, Update(Some(true), false), LateApprove(c.requireSignature, c.hasFile, false, v));
  }
}
