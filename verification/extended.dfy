/**
 * The extended multi-signature wallet.
 *
 * The deployer becomes the admin and is added to the permitted users on top of
 * the list passed at deployment. The admin may add and remove permitted users
 * and change the number of approvals ("requirements") that transactions
 * submitted from then on need. Each pool entry records the requirement in force
 * when it was submitted, and execution is measured against that snapshot.
 *
 * As in module Light, the functions over State are the specification and the
 * class Wallet is the contract, its methods proved against those functions.
 */
module Extended {
  import opened Common

  /** One entry of the pool, as the public getter TXPool(i) returns it. */
  datatype Tx = Tx(
    to: Address,
    value: nat,
    data: Bytes,
    executed: bool,
    numApprovals: nat,
    denied: bool,
    requiredApprovals: nat)

  /** Why a call reverted. */
  datatype Error =
    | OnlyAdmin
    | OnlyPermittedUsers
    | TxDoesNotExist
    | TxAlreadyExecuted
    | CannotExecuteTx
    | TxNotApproved
    | AlreadyPermitted
    | NotPermitted
    | AdminNotRemovable

  /**
   * The revert message carried by each reason. The messages of AlreadyPermitted,
   * NotPermitted and AdminNotRemovable are placeholders: the contract's own
   * strings for those cases are not known.
   */
  function Reason(e: Error): (m: string)
    ensures m != ""
  {
    match e
    case OnlyAdmin => "only admin"
    case OnlyPermittedUsers => "only permittedUsers"
    case TxDoesNotExist => "tx does not exist"
    case TxAlreadyExecuted => "tx already executed"
    case CannotExecuteTx => "cannot execute tx"
    case TxNotApproved => "tx not approved"
    case AlreadyPermitted => "already permitted"
    case NotPermitted => "not permitted"
    case AdminNotRemovable => "admin cannot be removed"
  }

  /** Each revert message names one reason only. */
  lemma ReasonsDistinct()
    ensures forall e1, e2 :: Reason(e1) == Reason(e2) ==> e1 == e2
  {
  }

  datatype Outcome = Ok | Revert(error: Error)

  /**
   * The wallet's storage. members is the set of permitted users and
   * permittedUsers the count the public getter of that name returns;
   * approvers[i] holds the users whose isApproved(i, user) flag is set.
   */
  datatype State = State(
    admin: Address,
    members: set<Address>,
    permittedUsers: nat,
    requirements: nat,
    pool: seq<Tx>,
    approvers: map<nat, set<Address>>)

  /**
   * The storage invariant: the permitted-user count is the size of the member
   * set, every pool entry has its approval flags and numApprovals counts them,
   * an executed entry had reached the requirement it was submitted with, and
   * no entry is denied. The admin is always a permitted user, so there always
   * is at least one.
   */
  ghost predicate WellFormed(s: State)
  {
    && s.admin in s.members
    && s.permittedUsers == |s.members|
    && (forall i: nat :: i in s.approvers <==> i < |s.pool|)
    && (forall i :: 0 <= i < |s.pool| ==>
          && s.pool[i].numApprovals == |s.approvers[i]|
          && !s.pool[i].denied
          && (s.pool[i].executed ==> s.pool[i].numApprovals >= s.pool[i].requiredApprovals))
  }

  /**
   * The public getter isApproved(txId, user). Flags exist only for pool
   * entries, and a flagged entry has at least one approval.
   */
  function Approved(s: State, id: nat, p: Address): (b: bool)
    ensures WellFormed(s) && b ==> id < |s.pool| && s.pool[id].numApprovals >= 1
  {
    id in s.approvers && p in s.approvers[id]
  }

  /** Nothing but pool entry id (and its approval flags) differs between s and t. */
  ghost predicate OnlyEntryChanged(s: State, t: State, id: nat)
    requires WellFormed(s) && WellFormed(t)
  {
    && t.admin == s.admin
    && t.members == s.members
    && t.permittedUsers == s.permittedUsers
    && t.requirements == s.requirements
    && |t.pool| == |s.pool|
    && forall j :: 0 <= j < |s.pool| && j != id ==>
         t.pool[j] == s.pool[j] && t.approvers[j] == s.approvers[j]
  }

  /** The storage right after the admin deploys with the given user list and requirement. */
  function Init(admin: Address, userList: seq<Address>, required: nat): (s: State)
    ensures WellFormed(s)
    ensures s.admin == admin
    ensures forall a :: a in s.members <==> a == admin || a in userList
    ensures s.requirements == required
    ensures s.pool == []
  {
    var members := Elements(userList) + {admin};
    State(admin, members, |members|, required, [], map[])
  }

  /** With a list that repeats no one and leaves out the admin, the count is the list's length plus one. */
  lemma InitCount(admin: Address, userList: seq<Address>, required: nat)
    requires Distinct(userList) && admin !in userList
    ensures Init(admin, userList, required).permittedUsers == |userList| + 1
  {
    DistinctCount(userList);
    assert admin !in Elements(userList);
  }

  /** submitTransaction(to, value, data) called by caller. */
  function Submit(s: State, caller: Address, to: Address, value: nat, data: Bytes): (r: (Outcome, State))
    requires WellFormed(s)
    ensures WellFormed(r.1)
    ensures r.0 == Ok <==> caller in s.members
    ensures r.0 != Ok ==> r == (Revert(OnlyPermittedUsers), s)
    ensures r.0 == Ok ==>
      && r.1.admin == s.admin
      && r.1.members == s.members
      && r.1.permittedUsers == s.permittedUsers
      && r.1.requirements == s.requirements
      && |r.1.pool| == |s.pool| + 1
      && r.1.pool[..|s.pool|] == s.pool
      && r.1.pool[|s.pool|] == Tx(to, value, data, false, 0, false, s.requirements)
      && (forall j :: 0 <= j < |s.pool| ==> r.1.approvers[j] == s.approvers[j])
      && r.1.approvers[|s.pool|] == {}
  {
    if caller !in s.members then (Revert(OnlyPermittedUsers), s)
    else
      var n := |s.pool|;
      (Ok, s.(pool := s.pool + [Tx(to, value, data, false, 0, false, s.requirements)],
              approvers := s.approvers[n := {}]))
  }

  /**
   * approveTransaction(id) called by caller. Approving a second time is
   * accepted and changes nothing: approvals are a set of users.
   */
  function Approve(s: State, caller: Address, id: nat): (r: (Outcome, State))
    requires WellFormed(s)
    ensures WellFormed(r.1)
    ensures id >= |s.pool| ==> r.0 == Revert(TxDoesNotExist)
    ensures id < |s.pool| && caller !in s.members ==> r.0 == Revert(OnlyPermittedUsers)
    ensures id < |s.pool| && caller in s.members && s.pool[id].executed ==> r.0 == Revert(TxAlreadyExecuted)
    ensures r.0 == Ok <==> id < |s.pool| && caller in s.members && !s.pool[id].executed
    ensures r.0 != Ok ==> r.1 == s
    ensures r.0 == Ok ==>
      && OnlyEntryChanged(s, r.1, id)
      && r.1.approvers[id] == s.approvers[id] + {caller}
      && r.1.pool[id] == s.pool[id].(numApprovals :=
           s.pool[id].numApprovals + if Approved(s, id, caller) then 0 else 1)
  {
    if id >= |s.pool| then (Revert(TxDoesNotExist), s)
    else if caller !in s.members then (Revert(OnlyPermittedUsers), s)
    else if s.pool[id].executed then (Revert(TxAlreadyExecuted), s)
    else if caller in s.approvers[id] then (Ok, s)
    else
      var tx := s.pool[id];
      (Ok, s.(pool := s.pool[id := tx.(numApprovals := tx.numApprovals + 1)],
              approvers := s.approvers[id := s.approvers[id] + {caller}]))
  }

  /**
   * revokeApproval(id) called by caller. What it takes is an approval to
   * withdraw, not current membership, so a removed user may still withdraw one.
   */
  function Revoke(s: State, caller: Address, id: nat): (r: (Outcome, State))
    requires WellFormed(s)
    ensures WellFormed(r.1)
    ensures id >= |s.pool| ==> r.0 == Revert(TxDoesNotExist)
    ensures id < |s.pool| && s.pool[id].executed ==> r.0 == Revert(TxAlreadyExecuted)
    ensures id < |s.pool| && !s.pool[id].executed && !Approved(s, id, caller) ==> r.0 == Revert(TxNotApproved)
    ensures r.0 == Ok <==> id < |s.pool| && !s.pool[id].executed && Approved(s, id, caller)
    ensures r.0 != Ok ==> r.1 == s
    ensures r.0 == Ok ==>
      && OnlyEntryChanged(s, r.1, id)
      && r.1.approvers[id] == s.approvers[id] - {caller}
      && r.1.pool[id] == s.pool[id].(numApprovals := s.pool[id].numApprovals - 1)
  {
    if id >= |s.pool| then (Revert(TxDoesNotExist), s)
    else if s.pool[id].executed then (Revert(TxAlreadyExecuted), s)
    else if caller !in s.approvers[id] then (Revert(TxNotApproved), s)
    else
      var tx := s.pool[id];
      (Ok, s.(pool := s.pool[id := tx.(numApprovals := tx.numApprovals - 1)],
              approvers := s.approvers[id := s.approvers[id] - {caller}]))
  }

  /**
   * executeTransaction(id) called by caller. The approvals are measured against
   * the requirement recorded when the entry was submitted, not the current one.
   * Only the executed flag is modelled; the call to the destination is not.
   */
  function Execute(s: State, caller: Address, id: nat): (r: (Outcome, State))
    requires WellFormed(s)
    ensures WellFormed(r.1)
    ensures id >= |s.pool| ==> r.0 == Revert(TxDoesNotExist)
    ensures id < |s.pool| && caller !in s.members ==> r.0 == Revert(OnlyPermittedUsers)
    ensures id < |s.pool| && caller in s.members && s.pool[id].executed ==> r.0 == Revert(TxAlreadyExecuted)
    ensures (id < |s.pool| && caller in s.members && !s.pool[id].executed
             && s.pool[id].numApprovals < s.pool[id].requiredApprovals) ==> r.0 == Revert(CannotExecuteTx)
    ensures r.0 == Ok <==>
      && id < |s.pool| && caller in s.members && !s.pool[id].executed
      && |s.approvers[id]| >= s.pool[id].requiredApprovals
    ensures r.0 != Ok ==> r.1 == s
    ensures r.0 == Ok ==>
      && OnlyEntryChanged(s, r.1, id)
      && r.1.approvers[id] == s.approvers[id]
      && r.1.pool[id] == s.pool[id].(executed := true)
  {
    if id >= |s.pool| then (Revert(TxDoesNotExist), s)
    else if caller !in s.members then (Revert(OnlyPermittedUsers), s)
    else if s.pool[id].executed then (Revert(TxAlreadyExecuted), s)
    else if s.pool[id].numApprovals < s.pool[id].requiredApprovals then (Revert(CannotExecuteTx), s)
    else
      var tx := s.pool[id];
      (Ok, s.(pool := s.pool[id := tx.(executed := true)]))
  }

  /** addUser(p) called by caller: the admin grants p permission. */
  function AddMember(s: State, caller: Address, p: Address): (r: (Outcome, State))
    requires WellFormed(s)
    ensures WellFormed(r.1)
    ensures caller != s.admin ==> r.0 == Revert(OnlyAdmin)
    ensures caller == s.admin && p in s.members ==> r.0 == Revert(AlreadyPermitted)
    ensures r.0 == Ok <==> caller == s.admin && p !in s.members
    ensures r.0 != Ok ==> r.1 == s
    ensures r.0 == Ok ==>
      && r.1 == s.(members := r.1.members, permittedUsers := r.1.permittedUsers)
      && r.1.members == s.members + {p}
      && r.1.permittedUsers == s.permittedUsers + 1
  {
    if caller != s.admin then (Revert(OnlyAdmin), s)
    else if p in s.members then (Revert(AlreadyPermitted), s)
    else (Ok, s.(members := s.members + {p}, permittedUsers := s.permittedUsers + 1))
  }

  /**
   * removeUser(p) called by caller: the admin withdraws p's permission. The
   * admin itself cannot be removed. The approvals p has already given stay
   * recorded and keep counting.
   */
  function RemoveMember(s: State, caller: Address, p: Address): (r: (Outcome, State))
    requires WellFormed(s)
    ensures WellFormed(r.1)
    ensures caller != s.admin ==> r.0 == Revert(OnlyAdmin)
    ensures caller == s.admin && p == s.admin ==> r.0 == Revert(AdminNotRemovable)
    ensures caller == s.admin && p != s.admin && p !in s.members ==> r.0 == Revert(NotPermitted)
    ensures r.0 == Ok <==> caller == s.admin && p != s.admin && p in s.members
    ensures r.0 != Ok ==> r.1 == s
    ensures r.0 == Ok ==>
      && r.1 == s.(members := r.1.members, permittedUsers := r.1.permittedUsers)
      && r.1.members == s.members - {p}
      && r.1.permittedUsers == s.permittedUsers - 1
  {
    if caller != s.admin then (Revert(OnlyAdmin), s)
    else if p == s.admin then (Revert(AdminNotRemovable), s)
    else if p !in s.members then (Revert(NotPermitted), s)
    else (Ok, s.(members := s.members - {p}, permittedUsers := s.permittedUsers - 1))
  }

  /** changeRequirements(n) called by caller: only transactions submitted later see n. */
  function ChangeThreshold(s: State, caller: Address, n: nat): (r: (Outcome, State))
    requires WellFormed(s)
    ensures WellFormed(r.1)
    ensures r.0 == Ok <==> caller == s.admin
    ensures r.0 != Ok ==> r == (Revert(OnlyAdmin), s)
    ensures r.0 == Ok ==> r.1 == s.(requirements := n)
  {
    if caller != s.admin then (Revert(OnlyAdmin), s)
    else (Ok, s.(requirements := n))
  }

  /** A call to the wallet, with the address that sends it. */
  datatype Call =
    | SubmitCall(caller: Address, to: Address, value: nat, data: Bytes)
    | ApproveCall(caller: Address, id: nat)
    | RevokeCall(caller: Address, id: nat)
    | ExecuteCall(caller: Address, id: nat)
    | AddUserCall(caller: Address, user: Address)
    | RemoveUserCall(caller: Address, user: Address)
    | ChangeRequirementsCall(caller: Address, n: nat)

  /**
   * What one call may change: the admin stays, the pool only grows, what an
   * entry proposes and the requirement it was submitted with never change, and
   * an executed entry is final.
   */
  ghost predicate Evolves(s: State, t: State)
    requires WellFormed(s) && WellFormed(t)
  {
    && t.admin == s.admin
    && |s.pool| <= |t.pool|
    && forall i :: 0 <= i < |s.pool| ==>
         && t.pool[i].to == s.pool[i].to
         && t.pool[i].value == s.pool[i].value
         && t.pool[i].data == s.pool[i].data
         && t.pool[i].requiredApprovals == s.pool[i].requiredApprovals
         && (s.pool[i].executed ==> t.pool[i] == s.pool[i] && t.approvers[i] == s.approvers[i])
  }

  function Step(s: State, c: Call): (r: (Outcome, State))
    requires WellFormed(s)
    ensures WellFormed(r.1) && Evolves(s, r.1)
  {
    match c
    case SubmitCall(caller, to, value, data) => Submit(s, caller, to, value, data)
    case ApproveCall(caller, id) => Approve(s, caller, id)
    case RevokeCall(caller, id) => Revoke(s, caller, id)
    case ExecuteCall(caller, id) => Execute(s, caller, id)
    case AddUserCall(caller, user) => AddMember(s, caller, user)
    case RemoveUserCall(caller, user) => RemoveMember(s, caller, user)
    case ChangeRequirementsCall(caller, n) => ChangeThreshold(s, caller, n)
  }

  /** The storage after a sequence of calls, each applied to the storage the previous one left. */
  function Run(s: State, calls: seq<Call>): (t: State)
    requires WellFormed(s)
    ensures WellFormed(t)
    decreases |calls|
  {
    if calls == [] then s else Run(Step(s, calls[0]).1, calls[1..])
  }

  lemma EvolvesTransitive(s: State, t: State, u: State)
    requires WellFormed(s) && WellFormed(t) && WellFormed(u)
    requires Evolves(s, t) && Evolves(t, u)
    ensures Evolves(s, u)
  {
  }

  /** Over any sequence of calls, every step's guarantees of Evolves accumulate. */
  lemma {:induction false} RunEvolves(s: State, calls: seq<Call>)
    requires WellFormed(s)
    ensures Evolves(s, Run(s, calls))
    decreases |calls|
  {
    if calls != [] {
      var t := Step(s, calls[0]).1;
      RunEvolves(t, calls[1..]);
      EvolvesTransitive(s, t, Run(t, calls[1..]));
    }
  }

  /**
   * The requirement an entry was submitted with survives every later call,
   * including any number of requirement changes.
   */
  lemma SnapshotIsKept(s: State, calls: seq<Call>, id: nat)
    requires WellFormed(s)
    requires id < |s.pool|
    ensures id < |Run(s, calls).pool|
    ensures Run(s, calls).pool[id].requiredApprovals == s.pool[id].requiredApprovals
  {
    RunEvolves(s, calls);
  }

  /**
   * The admin stays the admin and a permitted user over any sequence of calls,
   * so the set of permitted users is never empty.
   */
  lemma AdminAlwaysPermitted(s: State, calls: seq<Call>)
    requires WellFormed(s)
    ensures Run(s, calls).admin == s.admin
    ensures s.admin in Run(s, calls).members && Run(s, calls).permittedUsers >= 1
  {
    RunEvolves(s, calls);
  }

  /** A transaction executes at most once: once executed, no later call changes it. */
  lemma ExecutedIsFinal(s: State, calls: seq<Call>, id: nat)
    requires WellFormed(s)
    requires id < |s.pool| && s.pool[id].executed
    ensures id < |Run(s, calls).pool|
    ensures Run(s, calls).pool[id] == s.pool[id]
    ensures forall caller :: Execute(Run(s, calls), caller, id).0 != Ok
  {
    RunEvolves(s, calls);
  }

  /** Changing the requirement never changes whether a pending entry can execute. */
  lemma ExecuteIgnoresCurrentRequirements(s: State, caller: Address, id: nat, n: nat)
    requires WellFormed(s)
    ensures Execute(ChangeThreshold(s, s.admin, n).1, caller, id).0 == Execute(s, caller, id).0
  {
  }

  /** Approving and then revoking by the same user restores the storage. */
  lemma ApproveThenRevoke(s: State, caller: Address, id: nat)
    requires WellFormed(s)
    requires !Approved(s, id, caller)
    requires Approve(s, caller, id).0 == Ok
    ensures Revoke(Approve(s, caller, id).1, caller, id) == (Ok, s)
  {
    var t := Approve(s, caller, id).1;
    var u := Revoke(t, caller, id).1;
    assert u.approvers[id] == s.approvers[id];
    assert u.approvers == s.approvers;
    assert u.pool == s.pool;
  }

  /** Approving twice is the same as approving once: the outcome and the storage agree. */
  lemma ApproveTwice(s: State, caller: Address, id: nat)
    requires WellFormed(s)
    ensures Approve(Approve(s, caller, id).1, caller, id) == Approve(s, caller, id)
  {
  }

  /** Removing a user leaves every approval that user gave on the books. */
  lemma RemovalKeepsApprovals(s: State, p: Address, id: nat)
    requires WellFormed(s)
    requires p in s.members && p != s.admin && id < |s.pool| && Approved(s, id, p)
    ensures var t := RemoveMember(s, s.admin, p).1;
      p !in t.members && Approved(t, id, p) && t.pool[id].numApprovals == s.pool[id].numApprovals
  {
  }

  /**
   * Approvals can outnumber the permitted users. With one user besides the
   * admin and a requirement of one, both approve entry 0 and the admin then
   * removes that user: the entry keeps two approvals while one user remains.
   */
  lemma ApprovalsCanExceedMembers()
    ensures var s0 := Init(1, [2], 1);
      var s1 := Submit(s0, 1, 3, 0, []).1;
      var s2 := Approve(s1, 2, 0).1;
      var s3 := Approve(s2, 1, 0).1;
      var s4 := RemoveMember(s3, 1, 2).1;
      s4.pool[0].numApprovals == 2 && s4.permittedUsers == 1
  {
    var s0 := Init(1, [2], 1);
    assert s0.members == {1, 2} && s0.permittedUsers == 2;
    var s1 := Submit(s0, 1, 3, 0, []).1;
    assert |s1.pool| == 1 && s1.pool[0].numApprovals == 0;
    var s2 := Approve(s1, 2, 0).1;
    assert s2.approvers[0] == {2};
    var s3 := Approve(s2, 1, 0).1;
    assert s3.approvers[0] == {1, 2} && s3.pool[0].numApprovals == 2;
  }

  /**
   * The deployed contract. The admin is a constant; the permitted users, the
   * requirement, the pool and the approval flags are storage that the methods
   * update in place.
   */
  class Wallet {
    const admin: Address
    var members: set<Address>
    var permittedUsers: nat
    var requirements: nat
    var pool: seq<Tx>
    var approvers: map<nat, set<Address>>

    ghost function Storage(): State
      reads this
    {
      State(admin, members, permittedUsers, requirements, pool, approvers)
    }

    ghost predicate Valid()
      reads this
    {
      WellFormed(Storage())
    }

    /** Deployment by deployer, who becomes the admin. */
    constructor (deployer: Address, userList: seq<Address>, required: nat)
      ensures Valid() && Storage() == Init(deployer, userList, required)
    {
      admin := deployer;
      members := Elements(userList) + {deployer};
      permittedUsers := |Elements(userList) + {deployer}|;
      requirements := required;
      pool := [];
      approvers := map[];
    }

    /** The public getter isApproved(id, p). */
    predicate IsApproved(id: nat, p: Address)
      reads this
      ensures IsApproved(id, p) == Approved(Storage(), id, p)
    {
      id in approvers && p in approvers[id]
    }

    method SubmitTransaction(caller: Address, to: Address, value: nat, data: Bytes) returns (r: Outcome)
      requires Valid()
      modifies this
      ensures Valid()
      ensures (r, Storage()) == Submit(old(Storage()), caller, to, value, data)
    {
      if caller !in members {
        return Revert(OnlyPermittedUsers);
      }
      approvers := approvers[|pool| := {}];
      pool := pool + [Tx(to, value, data, false, 0, false, requirements)];
      r := Ok;
    }

    method ApproveTransaction(caller: Address, id: nat) returns (r: Outcome)
      requires Valid()
      modifies this
      ensures Valid()
      ensures (r, Storage()) == Approve(old(Storage()), caller, id)
    {
      if id >= |pool| {
        return Revert(TxDoesNotExist);
      }
      if caller !in members {
        return Revert(OnlyPermittedUsers);
      }
      var tx := pool[id];
      if tx.executed {
        return Revert(TxAlreadyExecuted);
      }
      if caller !in approvers[id] {
        pool := pool[id := tx.(numApprovals := tx.numApprovals + 1)];
        approvers := approvers[id := approvers[id] + {caller}];
      }
      r := Ok;
    }

    method RevokeApproval(caller: Address, id: nat) returns (r: Outcome)
      requires Valid()
      modifies this
      ensures Valid()
      ensures (r, Storage()) == Revoke(old(Storage()), caller, id)
    {
      if id >= |pool| {
        return Revert(TxDoesNotExist);
      }
      var tx := pool[id];
      if tx.executed {
        return Revert(TxAlreadyExecuted);
      }
      if caller !in approvers[id] {
        return Revert(TxNotApproved);
      }
      pool := pool[id := tx.(numApprovals := tx.numApprovals - 1)];
      approvers := approvers[id := approvers[id] - {caller}];
      r := Ok;
    }

    method ExecuteTransaction(caller: Address, id: nat) returns (r: Outcome)
      requires Valid()
      modifies this
      ensures Valid()
      ensures (r, Storage()) == Execute(old(Storage()), caller, id)
    {
      if id >= |pool| {
        return Revert(TxDoesNotExist);
      }
      if caller !in members {
        return Revert(OnlyPermittedUsers);
      }
      var tx := pool[id];
      if tx.executed {
        return Revert(TxAlreadyExecuted);
      }
      if tx.numApprovals < tx.requiredApprovals {
        return Revert(CannotExecuteTx);
      }
      pool := pool[id := tx.(executed := true)];
      r := Ok;
    }

    method AddUser(caller: Address, p: Address) returns (r: Outcome)
      requires Valid()
      modifies this
      ensures Valid()
      ensures (r, Storage()) == AddMember(old(Storage()), caller, p)
    {
      if caller != admin {
        return Revert(OnlyAdmin);
      }
      if p in members {
        return Revert(AlreadyPermitted);
      }
      members := members + {p};
      permittedUsers := permittedUsers + 1;
      r := Ok;
    }

    method RemoveUser(caller: Address, p: Address) returns (r: Outcome)
      requires Valid()
      modifies this
      ensures Valid()
      ensures (r, Storage()) == RemoveMember(old(Storage()), caller, p)
    {
      if caller != admin {
        return Revert(OnlyAdmin);
      }
      if p == admin {
        return Revert(AdminNotRemovable);
      }
      if p !in members {
        return Revert(NotPermitted);
      }
      members := members - {p};
      permittedUsers := permittedUsers - 1;
      r := Ok;
    }

    method ChangeRequirements(caller: Address, n: nat) returns (r: Outcome)
      requires Valid()
      modifies this
      ensures Valid()
      ensures (r, Storage()) == ChangeThreshold(old(Storage()), caller, n)
    {
      if caller != admin {
        return Revert(OnlyAdmin);
      }
      requirements := n;
      r := Ok;
    }
  }
}
