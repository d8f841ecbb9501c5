/**
 * The fixed-owner ("light") multi-signature wallet.
 *
 * The owner set and the number of approvals a transaction needs are fixed when
 * the wallet is deployed. Owners submit transactions into an append-only pool,
 * approve them, revoke their approvals, and execute a transaction once enough
 * owners approve it. Every call either succeeds or reverts with a reason and
 * leaves the wallet exactly as it was.
 *
 * The pure part of this module (State and the functions over it) is the
 * specification; the class Wallet is the contract itself, with storage that its
 * methods update in place, and each method is proved to agree with the
 * function of the same operation.
 */
module Light {
  import opened Common

  /** One entry of the transaction pool, as the public getter transactions(i) returns it. */
  datatype Tx = Tx(to: Address, value: nat, data: Bytes, executed: bool, numApprovals: nat)

  /** Why a call reverted. */
  datatype Error = NotOwner | TxDoesNotExist | TxAlreadyExecuted | CannotExecuteTx | TxNotApproved

  /**
   * The revert message carried by each reason. TxNotApproved borrows the
   * extended wallet's message, since this variant's is not known.
   */
  function Reason(e: Error): (m: string)
    ensures m != ""
  {
    match e
    case NotOwner => "not owner"
    case TxDoesNotExist => "tx does not exist"
    case TxAlreadyExecuted => "tx already executed"
    case CannotExecuteTx => "cannot execute tx"
    case TxNotApproved => "tx not approved"
  }

  /** Each revert message names one reason only. */
  lemma ReasonsDistinct()
    ensures forall e1, e2 :: Reason(e1) == Reason(e2) ==> e1 == e2
  {
  }

  datatype Outcome = Ok | Revert(error: Error)

  /**
   * The wallet's storage. approvers[i] holds the owners whose isApproved(i, owner)
   * flag is set; there is one such set for every transaction in the pool.
   */
  datatype State = State(
    owners: set<Address>,
    approvalsRequired: nat,
    transactions: seq<Tx>,
    approvers: map<nat, set<Address>>)

  /**
   * The storage invariant: every pool entry has its approval flags, only owners
   * are ever flagged, numApprovals counts the flagged owners, and an executed
   * entry had reached the required number of approvals.
   */
  ghost predicate WellFormed(s: State)
  {
    && (forall i: nat :: i in s.approvers <==> i < |s.transactions|)
    && (forall i :: 0 <= i < |s.transactions| ==>
          && s.transactions[i].numApprovals == |s.approvers[i]|
          && s.approvers[i] <= s.owners
          && (s.transactions[i].executed ==> s.transactions[i].numApprovals >= s.approvalsRequired))
  }

  /**
   * The public getter isApproved(txId, owner). Flags exist only for pool
   * entries, and only owners are ever flagged.
   */
  function Approved(s: State, id: nat, p: Address): (b: bool)
    ensures WellFormed(s) && b ==> id < |s.transactions| && p in s.owners
  {
    id in s.approvers && p in s.approvers[id]
  }

  /** Nothing but pool entry id (and its approval flags) differs between s and t. */
  ghost predicate OnlyEntryChanged(s: State, t: State, id: nat)
    requires WellFormed(s) && WellFormed(t)
  {
    && t.owners == s.owners
    && t.approvalsRequired == s.approvalsRequired
    && |t.transactions| == |s.transactions|
    && forall j :: 0 <= j < |s.transactions| && j != id ==>
         t.transactions[j] == s.transactions[j] && t.approvers[j] == s.approvers[j]
  }

  /** The storage right after deployment with the given owners and threshold. */
  function Init(ownerList: seq<Address>, required: nat): (s: State)
    ensures WellFormed(s)
    ensures forall a :: a in s.owners <==> a in ownerList
    ensures s.approvalsRequired == required
    ensures s.transactions == []
  {
    State(Elements(ownerList), required, [], map[])
  }

  /** submitTransaction(to, value, data) called by caller. */
  function Submit(s: State, caller: Address, to: Address, value: nat, data: Bytes): (r: (Outcome, State))
    requires WellFormed(s)
    ensures WellFormed(r.1)
    ensures r.0 == Ok <==> caller in s.owners
    ensures r.0 != Ok ==> r == (Revert(NotOwner), s)
    ensures r.0 == Ok ==>
      && r.1.owners == s.owners
      && r.1.approvalsRequired == s.approvalsRequired
      && |r.1.transactions| == |s.transactions| + 1
      && r.1.transactions[..|s.transactions|] == s.transactions
      && r.1.transactions[|s.transactions|] == Tx(to, value, data, false, 0)
      && (forall j :: 0 <= j < |s.transactions| ==> r.1.approvers[j] == s.approvers[j])
      && r.1.approvers[|s.transactions|] == {}
  {
    if caller !in s.owners then (Revert(NotOwner), s)
    else
      var n := |s.transactions|;
      (Ok, s.(transactions := s.transactions + [Tx(to, value, data, false, 0)],
              approvers := s.approvers[n := {}]))
  }

  /**
   * approveTransaction(id) called by caller. Approving a second time is
   * accepted and changes nothing: approvals are a set of owners.
   */
  function Approve(s: State, caller: Address, id: nat): (r: (Outcome, State))
    requires WellFormed(s)
    ensures WellFormed(r.1)
    ensures caller !in s.owners ==> r.0 == Revert(NotOwner)
    ensures caller in s.owners && id >= |s.transactions| ==> r.0 == Revert(TxDoesNotExist)
    ensures caller in s.owners && id < |s.transactions| && s.transactions[id].executed ==>
      r.0 == Revert(TxAlreadyExecuted)
    ensures r.0 == Ok <==> caller in s.owners && id < |s.transactions| && !s.transactions[id].executed
    ensures r.0 != Ok ==> r.1 == s
    ensures r.0 == Ok ==>
      && OnlyEntryChanged(s, r.1, id)
      && r.1.approvers[id] == s.approvers[id] + {caller}
      && r.1.transactions[id] == s.transactions[id].(numApprovals :=
           s.transactions[id].numApprovals + if Approved(s, id, caller) then 0 else 1)
  {
    if caller !in s.owners then (Revert(NotOwner), s)
    else if id >= |s.transactions| then (Revert(TxDoesNotExist), s)
    else if s.transactions[id].executed then (Revert(TxAlreadyExecuted), s)
    else if caller in s.approvers[id] then (Ok, s)
    else
      var tx := s.transactions[id];
      (Ok, s.(transactions := s.transactions[id := tx.(numApprovals := tx.numApprovals + 1)],
              approvers := s.approvers[id := s.approvers[id] + {caller}]))
  }

  /** revokeApproval(id) called by caller. */
  function Revoke(s: State, caller: Address, id: nat): (r: (Outcome, State))
    requires WellFormed(s)
    ensures WellFormed(r.1)
    ensures caller !in s.owners ==> r.0 == Revert(NotOwner)
    ensures caller in s.owners && id >= |s.transactions| ==> r.0 == Revert(TxDoesNotExist)
    ensures caller in s.owners && id < |s.transactions| && s.transactions[id].executed ==>
      r.0 == Revert(TxAlreadyExecuted)
    ensures (caller in s.owners && id < |s.transactions| && !s.transactions[id].executed
             && !Approved(s, id, caller)) ==> r.0 == Revert(TxNotApproved)
    ensures r.0 == Ok <==>
      caller in s.owners && id < |s.transactions| && !s.transactions[id].executed && Approved(s, id, caller)
    ensures r.0 != Ok ==> r.1 == s
    ensures r.0 == Ok ==>
      && OnlyEntryChanged(s, r.1, id)
      && r.1.approvers[id] == s.approvers[id] - {caller}
      && r.1.transactions[id] == s.transactions[id].(numApprovals := s.transactions[id].numApprovals - 1)
  {
    if caller !in s.owners then (Revert(NotOwner), s)
    else if id >= |s.transactions| then (Revert(TxDoesNotExist), s)
    else if s.transactions[id].executed then (Revert(TxAlreadyExecuted), s)
    else if caller !in s.approvers[id] then (Revert(TxNotApproved), s)
    else
      var tx := s.transactions[id];
      (Ok, s.(transactions := s.transactions[id := tx.(numApprovals := tx.numApprovals - 1)],
              approvers := s.approvers[id := s.approvers[id] - {caller}]))
  }

  /**
   * executeTransaction(id) called by caller. Only the executed flag is modelled;
   * the call to the destination is not.
   */
  function Execute(s: State, caller: Address, id: nat): (r: (Outcome, State))
    requires WellFormed(s)
    ensures WellFormed(r.1)
    ensures caller !in s.owners ==> r.0 == Revert(NotOwner)
    ensures caller in s.owners && id >= |s.transactions| ==> r.0 == Revert(TxDoesNotExist)
    ensures caller in s.owners && id < |s.transactions| && s.transactions[id].executed ==>
      r.0 == Revert(TxAlreadyExecuted)
    ensures (caller in s.owners && id < |s.transactions| && !s.transactions[id].executed
             && s.transactions[id].numApprovals < s.approvalsRequired) ==> r.0 == Revert(CannotExecuteTx)
    ensures r.0 == Ok <==>
      && caller in s.owners && id < |s.transactions| && !s.transactions[id].executed
      && |s.approvers[id]| >= s.approvalsRequired
    ensures r.0 != Ok ==> r.1 == s
    ensures r.0 == Ok ==>
      && OnlyEntryChanged(s, r.1, id)
      && r.1.approvers[id] == s.approvers[id]
      && r.1.transactions[id] == s.transactions[id].(executed := true)
  {
    if caller !in s.owners then (Revert(NotOwner), s)
    else if id >= |s.transactions| then (Revert(TxDoesNotExist), s)
    else if s.transactions[id].executed then (Revert(TxAlreadyExecuted), s)
    else if s.transactions[id].numApprovals < s.approvalsRequired then (Revert(CannotExecuteTx), s)
    else
      var tx := s.transactions[id];
      (Ok, s.(transactions := s.transactions[id := tx.(executed := true)]))
  }

  /** A call to the wallet, with the address that sends it. */
  datatype Call =
    | SubmitCall(caller: Address, to: Address, value: nat, data: Bytes)
    | ApproveCall(caller: Address, id: nat)
    | RevokeCall(caller: Address, id: nat)
    | ExecuteCall(caller: Address, id: nat)

  /** What one call may change: the pool only grows, the owners and threshold stay, and an executed entry is final. */
  ghost predicate Evolves(s: State, t: State)
    requires WellFormed(s) && WellFormed(t)
  {
    && t.owners == s.owners
    && t.approvalsRequired == s.approvalsRequired
    && |s.transactions| <= |t.transactions|
    && forall i :: 0 <= i < |s.transactions| ==>
         && t.transactions[i].to == s.transactions[i].to
         && t.transactions[i].value == s.transactions[i].value
         && t.transactions[i].data == s.transactions[i].data
         && (s.transactions[i].executed ==>
               t.transactions[i] == s.transactions[i] && t.approvers[i] == s.approvers[i])
  }

  function Step(s: State, c: Call): (r: (Outcome, State))
    requires WellFormed(s)
    ensures WellFormed(r.1) && Evolves(s, r.1)
  {
    match c
    case SubmitCall(caller, to, value, data) => Submit(s, caller, to, value, data)
    case ApproveCall(caller, id) => Approve(s, caller, id)
    case RevokeCall(caller, id) => Revoke(s, caller, id)
    case ExecuteCall(caller, id) => Execute(s, caller, id)
  }

  /** The storage after a sequence of calls, each applied to the storage the previous one left. */
  function Run(s: State, calls: seq<Call>): (t: State)
    requires WellFormed(s)
    ensures WellFormed(t)
    decreases |calls|
  {
    if calls == [] then s else Run(Step(s, calls[0]).1, calls[1..])
  }

  lemma EvolvesTransitive(s: State, t: State, u: State)
    requires WellFormed(s) && WellFormed(t) && WellFormed(u)
    requires Evolves(s, t) && Evolves(t, u)
    ensures Evolves(s, u)
  {
  }

  /**
   * Over any sequence of calls the owners and the threshold never change, no
   * entry leaves the pool, no entry's destination, value or data changes, and
   * an executed entry stays executed with its approvals frozen.
   */
  lemma {:induction false} RunEvolves(s: State, calls: seq<Call>)
    requires WellFormed(s)
    ensures Evolves(s, Run(s, calls))
    decreases |calls|
  {
    if calls != [] {
      var t := Step(s, calls[0]).1;
      RunEvolves(t, calls[1..]);
      EvolvesTransitive(s, t, Run(t, calls[1..]));
    }
  }

  /** A transaction executes at most once: once executed, no later call changes it. */
  lemma ExecutedIsFinal(s: State, calls: seq<Call>, id: nat)
    requires WellFormed(s)
    requires id < |s.transactions| && s.transactions[id].executed
    ensures id < |Run(s, calls).transactions|
    ensures Run(s, calls).transactions[id] == s.transactions[id]
    ensures forall caller :: caller in s.owners ==>
      Execute(Run(s, calls), caller, id).0 == Revert(TxAlreadyExecuted)
  {
    RunEvolves(s, calls);
  }

  /** No owner's approval is counted twice: an entry never has more approvals than there are owners. */
  lemma ApprovalsBounded(s: State, id: nat)
    requires WellFormed(s)
    requires id < |s.transactions|
    ensures s.transactions[id].numApprovals <= |s.owners|
  {
    SubsetCount(s.approvers[id], s.owners);
  }

  /** Approving and then revoking by the same owner restores the storage. */
  lemma ApproveThenRevoke(s: State, caller: Address, id: nat)
    requires WellFormed(s)
    requires !Approved(s, id, caller)
    requires Approve(s, caller, id).0 == Ok
    ensures Revoke(Approve(s, caller, id).1, caller, id) == (Ok, s)
  {
    var t := Approve(s, caller, id).1;
    var u := Revoke(t, caller, id).1;
    assert u.approvers[id] == s.approvers[id];
    assert u.approvers == s.approvers;
    assert u.transactions == s.transactions;
  }

  /** Approving twice is the same as approving once: the outcome and the storage agree. */
  lemma ApproveTwice(s: State, caller: Address, id: nat)
    requires WellFormed(s)
    ensures Approve(Approve(s, caller, id).1, caller, id) == Approve(s, caller, id)
  {
  }

  /**
   * The deployed contract. owners and approvalsRequired are constants, as in the
   * fixed-owner variant; the pool and the approval flags are storage that the
   * methods update in place.
   */
  class Wallet {
    const owners: set<Address>
    const approvalsRequired: nat
    var transactions: seq<Tx>
    var approvers: map<nat, set<Address>>

    ghost function Storage(): State
      reads this
    {
      State(owners, approvalsRequired, transactions, approvers)
    }

    ghost predicate Valid()
      reads this
    {
      WellFormed(Storage())
    }

    constructor (ownerList: seq<Address>, required: nat)
      ensures Valid() && Storage() == Init(ownerList, required)
    {
      owners := Elements(ownerList);
      approvalsRequired := required;
      transactions := [];
      approvers := map[];
    }

    /** The public getter isOwner(p). */
    predicate IsOwner(p: Address)
      reads this
      ensures IsOwner(p) <==> p in Storage().owners
    {
      p in owners
    }

    /** The public getter isApproved(id, p). */
    predicate IsApproved(id: nat, p: Address)
      reads this
      ensures IsApproved(id, p) == Approved(Storage(), id, p)
    {
      id in approvers && p in approvers[id]
    }

    method SubmitTransaction(caller: Address, to: Address, value: nat, data: Bytes) returns (r: Outcome)
      requires Valid()
      modifies this
      ensures Valid()
      ensures (r, Storage()) == Submit(old(Storage()), caller, to, value, data)
    {
      if caller !in owners {
        return Revert(NotOwner);
      }
      approvers := approvers[|transactions| := {}];
      transactions := transactions + [Tx(to, value, data, false, 0)];
      r := Ok;
    }

    method ApproveTransaction(caller: Address, id: nat) returns (r: Outcome)
      requires Valid()
      modifies this
      ensures Valid()
      ensures (r, Storage()) == Approve(old(Storage()), caller, id)
    {
      if caller !in owners {
        return Revert(NotOwner);
      }
      if id >= |transactions| {
        return Revert(TxDoesNotExist);
      }
      var tx := transactions[id];
      if tx.executed {
        return Revert(TxAlreadyExecuted);
      }
      if caller !in approvers[id] {
        transactions := transactions[id := tx.(numApprovals := tx.numApprovals + 1)];
        approvers := approvers[id := approvers[id] + {caller}];
      }
      r := Ok;
    }

    method RevokeApproval(caller: Address, id: nat) returns (r: Outcome)
      requires Valid()
      modifies this
      ensures Valid()
      ensures (r, Storage()) == Revoke(old(Storage()), caller, id)
    {
      if caller !in owners {
        return Revert(NotOwner);
      }
      if id >= |transactions| {
        return Revert(TxDoesNotExist);
      }
      var tx := transactions[id];
      if tx.executed {
        return Revert(TxAlreadyExecuted);
      }
      if caller !in approvers[id] {
        return Revert(TxNotApproved);
      }
      transactions := transactions[id := tx.(numApprovals := tx.numApprovals - 1)];
      approvers := approvers[id := approvers[id] - {caller}];
      r := Ok;
    }

    method ExecuteTransaction(caller: Address, id: nat) returns (r: Outcome)
      requires Valid()
      modifies this
      ensures Valid()
      ensures (r, Storage()) == Execute(old(Storage()), caller, id)
    {
      if caller !in owners {
        return Revert(NotOwner);
      }
      if id >= |transactions| {
        return Revert(TxDoesNotExist);
      }
      var tx := transactions[id];
      if tx.executed {
        return Revert(TxAlreadyExecuted);
      }
      if tx.numApprovals < approvalsRequired {
        return Revert(CannotExecuteTx);
      }
      transactions := transactions[id := tx.(executed := true)];
      r := Ok;
    }
  }
}
