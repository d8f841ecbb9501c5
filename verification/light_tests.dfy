/**
 * The fixed-owner wallet's test suite, one method per test case. Each test
 * deploys a fresh wallet with owners [Deployer, Addr1] and threshold 2, makes
 * its calls as the named signers, and returns what the test inspects; the
 * postconditions are the test's expectations.
 */
module LightTests {
  import opened Common
  import opened Light

  const Deployer: Address := 1
  const Addr1: Address := 2
  const Addr2: Address := 3

  /**
   * The revert message of an outcome, or "" when the call succeeded. A test
   * that expects a message thereby pins down the outcome.
   */
  function Message(o: Outcome): (m: string)
    ensures m == "" <==> o == Ok
    ensures forall e :: m == Reason(e) <==> o == Revert(e)
  {
    ReasonsDistinct();
    if o.Revert? then Reason(o.error) else ""
  }

  method Deploy() returns (w: Wallet)
    ensures fresh(w) && w.Valid() && w.Storage() == Init([Deployer, Addr1], 2)
  {
    w := new Wallet([Deployer, Addr1], 2);
  }

  method RightNumberOfRequiredApprovals() returns (n: nat)
    ensures n == 2
  {
    var w := Deploy();
    n := w.approvalsRequired;
  }

  method RightOwners() returns (deployerIsOwner: bool, addr1IsOwner: bool, addr2IsOwner: bool)
    ensures deployerIsOwner && addr1IsOwner && !addr2IsOwner
  {
    var w := Deploy();
    deployerIsOwner := w.IsOwner(Deployer);
    addr1IsOwner := w.IsOwner(Addr1);
    addr2IsOwner := w.IsOwner(Addr2);
  }

  method SubmitCorrectTransaction() returns (tx: Tx)
    ensures tx.to == Addr1 && tx.value == 10 && tx.data == [0x12, 0x34]
    ensures !tx.executed && tx.numApprovals == 0
  {
    var w := Deploy();
    var r := w.SubmitTransaction(Deployer, Addr1, 10, [0x12, 0x34]);
    tx := w.transactions[0];
  }

  method ApprovalAddsOne() returns (before: nat, after: nat, flagged: bool)
    ensures before == 0 && after == 1 && flagged
  {
    var w := Deploy();
    var r := w.SubmitTransaction(Deployer, Addr1, 10, [0x12, 0x34]);
    before := w.transactions[0].numApprovals;
    r := w.ApproveTransaction(Deployer, 0);
    after := w.transactions[0].numApprovals;
    flagged := w.IsApproved(0, Deployer);
  }

  method NonOwnerCannotApprove() returns (reason: string)
    ensures reason == "not owner"
  {
    var w := Deploy();
    var r := w.SubmitTransaction(Deployer, Addr1, 10, [0x12, 0x34]);
    r := w.ApproveTransaction(Addr2, 0);
    reason := Message(r);
  }

  method ExecuteWithoutEnoughApprovals() returns (reason: string)
    ensures reason == "cannot execute tx"
  {
    var w := Deploy();
    var r := w.SubmitTransaction(Deployer, Addr1, 10, [0x12, 0x34]);
    r := w.ApproveTransaction(Deployer, 0);
    r := w.ExecuteTransaction(Deployer, 0);
    reason := Message(r);
  }

  method ExecuteWithEnoughApprovals() returns (succeeded: bool, executed: bool)
    ensures succeeded && executed
  {
    var w := Deploy();
    var r := w.SubmitTransaction(Deployer, Addr1, 10, [0x12, 0x34]);
    r := w.ApproveTransaction(Deployer, 0);
    r := w.ApproveTransaction(Addr1, 0);
    r := w.ExecuteTransaction(Deployer, 0);
    succeeded := r == Ok;
    executed := w.transactions[0].executed;
  }

  method ExecuteNonExistingTransaction() returns (reason: string)
    ensures reason == "tx does not exist"
  {
    var w := Deploy();
    var r := w.ExecuteTransaction(Deployer, 2);
    reason := Message(r);
  }

  method RevokeRejections() returns (byNonOwner: string, onMissing: string, afterExecution: string)
    ensures byNonOwner == "not owner"
    ensures onMissing == "tx does not exist"
    ensures afterExecution == "tx already executed"
  {
    var w := Deploy();
    var r := w.SubmitTransaction(Deployer, Addr1, 10, [0x12, 0x34]);
    r := w.RevokeApproval(Addr2, 0);
    byNonOwner := Message(r);
    r := w.RevokeApproval(Deployer, 1);
    onMissing := Message(r);
    r := w.ApproveTransaction(Deployer, 0);
    r := w.ApproveTransaction(Addr1, 0);
    r := w.ExecuteTransaction(Deployer, 0);
    r := w.RevokeApproval(Deployer, 0);
    afterExecution := Message(r);
  }

  method RevokeRemovesApproval() returns (approved: nat, revoked: nat)
    ensures approved == 1 && revoked == 0
  {
    var w := Deploy();
    var r := w.SubmitTransaction(Deployer, Addr1, 10, [0x12, 0x34]);
    r := w.ApproveTransaction(Deployer, 0);
    approved := w.transactions[0].numApprovals;
    r := w.RevokeApproval(Deployer, 0);
    revoked := w.transactions[0].numApprovals;
  }
}
