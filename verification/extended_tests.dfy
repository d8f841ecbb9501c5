/**
 * The extended wallet's test suite, one method per test case. Each test has
 * Admin deploy a fresh wallet with permitted users [Addr1, Addr2] and
 * requirement 2, makes its calls as the named signers, and returns what the
 * test inspects; the postconditions are the test's expectations. The last two
 * methods are not tests of the suite: they pin down two behaviours the suite
 * leaves open (see the notes on them).
 */
module ExtendedTests {
  import opened Common
  import opened Extended

  const Admin: Address := 1
  const Addr1: Address := 2
  const Addr2: Address := 3
  const Addr3: Address := 4

  /**
   * The revert message of an outcome, or "" when the call succeeded. A test
   * that expects a message thereby pins down the outcome.
   */
  function Message(o: Outcome): (m: string)
    ensures m == "" <==> o == Ok
    ensures forall e :: m == Reason(e) <==> o == Revert(e)
  {
    ReasonsDistinct();
    if o.Revert? then Reason(o.error) else ""
  }

  method Deploy() returns (w: Wallet)
    ensures fresh(w) && w.Valid() && w.Storage() == Init(Admin, [Addr1, Addr2], 2)
    ensures w.permittedUsers == 3
  {
    w := new Wallet(Admin, [Addr1, Addr2], 2);
    InitCount(Admin, [Addr1, Addr2], 2);
  }

  method CorrectNumberOfPermittedUsers() returns (count: nat)
    ensures count == |[Addr1, Addr2]| + 1
  {
    var w := Deploy();
    count := w.permittedUsers;
  }

  method CorrectNumberOfRequiredApprovals() returns (n: nat)
    ensures n == 2
  {
    var w := Deploy();
    n := w.requirements;
  }

  method SubmitWithCorrectParameters() returns (tx: Tx, requirements: nat)
    ensures tx.to == Addr2 && tx.value == 10 && tx.data == [0x12, 0x34]
    ensures !tx.executed && tx.numApprovals == 0 && !tx.denied
    ensures tx.requiredApprovals == requirements == 2
  {
    var w := Deploy();
    var r := w.SubmitTransaction(Admin, Addr2, 10, [0x12, 0x34]);
    tx := w.pool[0];
    requirements := w.requirements;
  }

  method NonMemberCannotSubmit() returns (reason: string)
    ensures reason == "only permittedUsers"
  {
    var w := Deploy();
    var r := w.SubmitTransaction(Addr3, Addr2, 10, [0x12, 0x34]);
    reason := Message(r);
  }

  method ApprovalAddsOne() returns (before: nat, after: nat, flagged: bool)
    ensures before == 0 && after == 1 && flagged
  {
    var w := Deploy();
    var r := w.SubmitTransaction(Admin, Addr1, 10, [0x12, 0x34]);
    before := w.pool[0].numApprovals;
    r := w.ApproveTransaction(Admin, 0);
    after := w.pool[0].numApprovals;
    flagged := w.IsApproved(0, Admin);
  }

  method NonMemberCannotApprove() returns (reason: string)
    ensures reason == "only permittedUsers"
  {
    var w := Deploy();
    var r := w.SubmitTransaction(Admin, Addr1, 10, [0x12, 0x34]);
    r := w.ApproveTransaction(Addr3, 0);
    reason := Message(r);
  }

  method ApproveNonExistingTransaction() returns (reason: string)
    ensures reason == "tx does not exist"
  {
    var w := Deploy();
    var r := w.ApproveTransaction(Admin, 1);
    reason := Message(r);
  }

  method ApproveExecutedTransaction() returns (reason: string)
    ensures reason == "tx already executed"
  {
    var w := Deploy();
    var r := w.SubmitTransaction(Admin, Addr1, 10, [0x12, 0x34]);
    r := w.ApproveTransaction(Admin, 0);
    r := w.ApproveTransaction(Addr1, 0);
    r := w.ExecuteTransaction(Admin, 0);
    r := w.ApproveTransaction(Admin, 0);
    reason := Message(r);
  }

  method ExecuteWithoutEnoughApprovals() returns (reason: string)
    ensures reason == "cannot execute tx"
  {
    var w := Deploy();
    var r := w.SubmitTransaction(Admin, Addr1, 10, [0x12, 0x34]);
    r := w.ApproveTransaction(Admin, 0);
    r := w.ExecuteTransaction(Admin, 0);
    reason := Message(r);
  }

  method ExecuteWithEnoughApprovals() returns (succeeded: bool)
    ensures succeeded
  {
    var w := Deploy();
    var r := w.SubmitTransaction(Admin, Addr1, 10, [0x12, 0x34]);
    r := w.ApproveTransaction(Admin, 0);
    r := w.ApproveTransaction(Addr1, 0);
    r := w.ExecuteTransaction(Admin, 0);
    succeeded := r == Ok;
  }

  method ExecuteNonExistingTransaction() returns (reason: string)
    ensures reason == "tx does not exist"
  {
    var w := Deploy();
    var r := w.ExecuteTransaction(Admin, 2);
    reason := Message(r);
  }

  method RevokeRejections() returns (notApproved: string, onMissing: string, afterExecution: string)
    ensures notApproved == "tx not approved"
    ensures onMissing == "tx does not exist"
    ensures afterExecution == "tx already executed"
  {
    var w := Deploy();
    var r := w.SubmitTransaction(Admin, Addr1, 10, [0x12, 0x34]);
    r := w.RevokeApproval(Addr2, 0);
    notApproved := Message(r);
    r := w.RevokeApproval(Admin, 1);
    onMissing := Message(r);
    r := w.ApproveTransaction(Admin, 0);
    r := w.ApproveTransaction(Addr1, 0);
    r := w.ExecuteTransaction(Admin, 0);
    r := w.RevokeApproval(Admin, 0);
    afterExecution := Message(r);
  }

  method RevokeRemovesApproval() returns (approved: nat, revoked: nat)
    ensures approved == 1 && revoked == 0
  {
    var w := Deploy();
    var r := w.SubmitTransaction(Admin, Addr1, 10, [0x12, 0x34]);
    r := w.ApproveTransaction(Admin, 0);
    approved := w.pool[0].numApprovals;
    r := w.RevokeApproval(Admin, 0);
    revoked := w.pool[0].numApprovals;
  }

  method AddNewUser() returns (before: nat, after: nat)
    ensures before == |[Addr1, Addr2]| + 1
    ensures after == |[Addr1, Addr2]| + 2
  {
    var w := Deploy();
    before := w.permittedUsers;
    var r := w.AddUser(Admin, Addr3);
    after := w.permittedUsers;
  }

  method RemovedUserCannotSubmit() returns (submittedBefore: bool, reasonAfter: string)
    ensures submittedBefore
    ensures reasonAfter == "only permittedUsers"
  {
    var w := Deploy();
    var r := w.SubmitTransaction(Addr1, Addr2, 10, [0x12, 0x34]);
    submittedBefore := r == Ok;
    r := w.RemoveUser(Admin, Addr1);
    r := w.SubmitTransaction(Addr1, Addr2, 10, [0x12, 0x34]);
    reasonAfter := Message(r);
  }

  method OnlyAdminAddsOrRemoves() returns (onAdd: string, onRemove: string)
    ensures onAdd == "only admin" && onRemove == "only admin"
  {
    var w := Deploy();
    var r := w.AddUser(Addr3, Addr3);
    onAdd := Message(r);
    r := w.RemoveUser(Addr3, Addr3);
    onRemove := Message(r);
  }

  method ChangeRequirementsSnapshots() returns (first: nat, second: nat)
    ensures first == 2 && second == 3
  {
    var w := Deploy();
    var r := w.SubmitTransaction(Admin, Addr2, 10, [0x12, 0x34]);
    first := w.pool[0].requiredApprovals;
    r := w.ChangeRequirements(Admin, 3);
    r := w.SubmitTransaction(Admin, Addr3, 10, [0x12, 0x34]);
    second := w.pool[1].requiredApprovals;
  }

  /**
   * Not a test of the suite: an entry submitted under requirement 2 still
   * executes with two approvals after the requirement is raised to 3, because
   * execution is measured against the entry's own snapshot.
   */
  method RaisedRequirementSparesPendingEntry() returns (succeeded: bool)
    ensures succeeded
  {
    var w := Deploy();
    var r := w.SubmitTransaction(Admin, Addr2, 10, [0x12, 0x34]);
    r := w.ChangeRequirements(Admin, 3);
    r := w.ApproveTransaction(Admin, 0);
    r := w.ApproveTransaction(Addr1, 0);
    r := w.ExecuteTransaction(Admin, 0);
    succeeded := r == Ok;
  }

  /**
   * Not a test of the suite: removing a user who already approved an entry
   * keeps that approval, which still counts towards execution.
   */
  method RemovedUsersApprovalStillCounts() returns (stillFlagged: bool, succeeded: bool)
    ensures stillFlagged && succeeded
  {
    var w := Deploy();
    var r := w.SubmitTransaction(Admin, Addr2, 10, [0x12, 0x34]);
    r := w.ApproveTransaction(Addr1, 0);
    r := w.RemoveUser(Admin, Addr1);
    stillFlagged := w.IsApproved(0, Addr1);
    r := w.ApproveTransaction(Admin, 0);
    r := w.ExecuteTransaction(Admin, 0);
    succeeded := r == Ok;
  }
}
