/** The contract service's handlers as they update contracts, inbox and outbox in place. */
module ContractService {
  import opened Sums
  import opened Ledger
  import opened Outbox
  import opened Inbox
  import opened Contracts
  import opened ActivationSaga

  datatype Answer = Done | NotFound | Refused

  function Moved(contracts: map<Id, Contract>, id: Id, a: Act): map<Id, Contract> {
    if id in contracts then contracts[id := Acted(contracts[id], a)] else contracts
  }

  /** The customer's approval is due, or has been given before. */
  predicate AwaitsCustomer(c: Contract) {
    c.status.PendingSignature? || c.status.PendingPayment? || c.status.Active?
  }

  lemma EffectIgnoresClaims(side: ContractSide, claims: map<nat, ClaimState>, event: Message, v: Verification)
    ensures PaidEffect(side.(claims := claims), event, v) == PaidEffect(side, event, v).(claims := claims)
  {
  }

  lemma MovedKeepsStep(side: ContractSide, id: Id, a: Act)
    ensures ContractsStayInStep(side, side.(contracts := Moved(side.contracts, id, a)))
  {
    if id in side.contracts {
      MoveKeepsStep(side, id, Acted(side.contracts[id], a));
    }
  }

  class ContractStore {
    var contracts: map<Id, Contract>
    var claims: map<nat, ClaimState>
    var reports: seq<Message>

    constructor ()
      ensures View() == ContractSide(map[], map[], []) && Valid()
    {
      contracts, claims, reports := map[], map[], [];
    }

    function View(): ContractSide
      reads this
    {
      ContractSide(contracts, claims, reports)
    }

    /** Every contract that waits for payment has its deadline. */
    predicate Valid()
      reads this
    {
      forall id :: id in contracts ==> DeadlineKnown(contracts[id])
    }

    method UpdateContract(id: Id, requireSignature: Option<bool>, newFile: bool) returns (answer: Answer)
      requires Valid()
      modifies this`contracts
      ensures contracts == Moved(old(contracts), id, Update(requireSignature, newFile))
      ensures answer.Done? ==>
        id in contracts && (requireSignature.Some? ==> contracts[id].requireSignature == requireSignature.value)
      ensures !answer.Done? ==> contracts == old(contracts)
      ensures Valid() && ContractsStayInStep(old(View()), View())
    {
      MovedKeepsStep(View(), id, Update(requireSignature, newFile));
      if id !in contracts {
        return NotFound;
      }
      var existing := contracts[id];
      if !existing.status.DraftContract? && !existing.status.PendingSignature? {
        return Refused;
      }
      if requireSignature.Some? {
        existing := existing.(requireSignature := requireSignature.value);
      }
      if newFile {
        existing := existing.(hasFile := true);
      }
      contracts := contracts[id := existing];
      answer := Done;
    }

    method SendContract(id: Id, ready: bool, v: Verification) returns (answer: Answer)
      requires Valid()
      modifies this`contracts
      ensures contracts == Moved(old(contracts), id, Send(ready, v))
      ensures answer.Done? ==> id in contracts && (contracts[id].requireSignature ==> v.Verified? && v.provider)
      ensures Valid() && ContractsStayInStep(old(View()), View())
    {
      MovedKeepsStep(View(), id, Send(ready, v));
      if id !in contracts {
        return NotFound;
      }
      if !contracts[id].status.DraftContract? || !ready {
        return Refused;
      }
      contracts := contracts[id := contracts[id].(hasFile := true)];
      if contracts[id].requireSignature && (v.NoReply? || !v.provider) {
        return Refused;
      }
      contracts := contracts[id := contracts[id].(status := PendingSignature, revision := contracts[id].revision + 1)];
      answer := Done;
    }

    /** A contract that waits for payment without a signing date would be refused; there is none. */
    method TransitionAfterCustomerApproval(id: Id, prepaid: bool, v: Verification) returns (answer: Answer)
      requires Valid()
      modifies this`contracts
      ensures contracts == Moved(old(contracts), id, Approve(prepaid, v))
      ensures answer.NotFound? <==> id !in contracts
      ensures answer.Done? <==> id in contracts && AwaitsCustomer(old(contracts)[id])
      ensures Valid() && ContractsStayInStep(old(View()), View())
    {
      MovedKeepsStep(View(), id, Approve(prepaid, v));
      if id !in contracts {
        return NotFound;
      }
      var contract := contracts[id];
      if contract.status.Active? {
        return Done;
      }
      if contract.status.PendingPayment? && contract.dated {
        return Done;
      }
      if !contract.status.PendingSignature? {
        return Refused;
      }
      var nextStatus := PendingSignature;
      if prepaid {
        nextStatus := PendingPayment;
      } else if FullySigned(contract, v) {
        nextStatus := Active;
      }
      contracts := contracts[id := contract.(status := nextStatus, dated := true)];
      answer := Done;
    }

    method ConfirmContractTerms(id: Id, prepaid: bool, v: Verification) returns (answer: Answer)
      requires Valid()
      modifies this`contracts
      ensures contracts == Moved(old(contracts), id, ConfirmTerms(prepaid, v))
      ensures id in contracts && contracts[id].requireSignature ==> answer.Refused?
      ensures Valid() && ContractsStayInStep(old(View()), View())
    {
      if id !in contracts {
        return NotFound;
      }
      if contracts[id].requireSignature {
        return Refused;
      }
      answer := TransitionAfterCustomerApproval(id, prepaid, v);
    }

    method ActivateContractAfterPrepayment(id: Id, v: Verification) returns (answer: Answer)
      requires Valid()
      modifies this`contracts
      ensures contracts == Moved(old(contracts), id, ActivateAfterPrepayment(v))
      ensures answer.Done? <==> id in contracts && contracts[id].status.Active?
      ensures Valid() && ContractsStayInStep(old(View()), View())
    {
      MovedKeepsStep(View(), id, ActivateAfterPrepayment(v));
      if id !in contracts {
        return NotFound;
      }
      var contract := contracts[id];
      if contract.status.Active? {
        return Done;
      }
      if !contract.status.PendingPayment? || !FullySigned(contract, v) {
        return Refused;
      }
      contracts := contracts[id := contract.(status := Active)];
      answer := Done;
    }

    /** The overdue prepayments, one by one. */
    method ExpirePendingPrepaymentContracts(expired: seq<Id>)
      requires Valid()
      modifies this`contracts
      ensures contracts.Keys == old(contracts).Keys
      ensures forall id | id in contracts ::
        contracts[id] == if id in expired then Acted(old(contracts)[id], Lapse) else old(contracts)[id]
      ensures Valid() && ContractsStayInStep(old(View()), View())
    {
      for k := 0 to |expired|
        invariant contracts.Keys == old(contracts).Keys
        invariant forall id | id in contracts ::
          contracts[id] == if id in expired[..k] then Acted(old(contracts)[id], Lapse) else old(contracts)[id]
        invariant Valid() && ContractsStayInStep(old(View()), View())
      {
        assert expired[..k + 1] == expired[..k] + [expired[k]];
        MovedKeepsStep(View(), expired[k], Lapse);
        if expired[k] in contracts && contracts[expired[k]].status.PendingPayment? && contracts[expired[k]].dated {
          contracts := contracts[expired[k] := contracts[expired[k]].(status := Cancelled)];
        }
      }
      assert expired[..|expired|] == expired;
    }

    method PublishLocal(m: Message)
      modifies this`reports
      ensures reports == Outbox.PublishLocal(old(reports), m)
    {
      if exists k :: 0 <= k < |reports| && SameKey(reports[k], m) {
        return;
      }
      reports := reports + [m];
    }

    method ActivateOrReport(event: Message, v: Verification)
      requires Valid()
      modifies this`contracts, this`reports
      ensures View() == PaidEffect(old(View()), event, v) && Valid()
    {
      if event.contract.None? || event.contract.value !in contracts {
        return;
      }
      var id := event.contract.value;
      var contract := contracts[id];
      if contract.status.Active? {
        return;
      }
      var fullySigned := true;
      if contract.requireSignature {
        fullySigned := contract.hasFile && v.Verified? && v.provider && v.customer;
      }
      if !fullySigned {
        PublishLocal(Message(ActivationFailed, id, contract.revision, Some(id), event.invoice, false));
        return;
      }
      contracts := contracts[id := contract.(status := Active, dated := true, revision := contract.revision + 1)];
      PublishLocal(Message(MessageKind.Activated, id, contract.revision + 1, Some(id), event.invoice, false));
    }

    /** Payment message `k` of billing; `landing` says whether and where the delivery breaks off. */
    method HandleInvoicePaidEvent(k: nat, event: Message, v: Verification, landing: Landing)
      requires Valid()
      modifies this
      ensures View() == ReceivePaid(old(View()), k, event, v, landing)
      ensures Valid() && PaymentKeepsStep(old(View()), View(), k, event)
    {
      ReceiptKeepsStep(View(), k, event, v, landing);
      if k in claims {
        return;
      }
      claims := claims[k := Processing];
      if Begun(landing) {
        EffectIgnoresClaims(old(View()), claims, event, v);
        ActivateOrReport(event, v);
      }
      if landing.Completed? {
        claims := claims[k := Processed];
      } else if landing.FailedEarly? || landing.FailedLate? {
        claims := claims[k := ClaimFailed];
      }
    }
  }
}
