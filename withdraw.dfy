/** Seller withdrawals (controller/withdraw.js).  A request records a
    withdraw and debits the shop's available balance at once, with no
    check that the balance suffices; the admin's approval marks the
    withdraw "succeed" and appends one transaction to the shop's history
    without touching the balance again. */
module Withdrawals {
  import opened Common
  import opened Entities
  import opened Store

  /** Status of a new withdraw (the withdraw schema's default). */
  const PROCESSING := "Processing"
  /** Status set on approval. */
  const SUCCEED := "succeed"

  function NewWithdraw(seller: Id, amount: int, now: int): Withdraw
  {
    Withdraw(seller, amount, PROCESSING, now, now)
  }

  /** `shop.availableBalance - amount`. */
  function Debit(shop: Shop, amount: int): Shop
  {
    shop.(availableBalance := shop.availableBalance - amount)
  }

  /** The update `findByIdAndUpdate` applies on approval. */
  function MarkSucceeded(w: Withdraw, now: int): Withdraw
  {
    w.(status := SUCCEED, updatedAt := now)
  }

  /** The history entry copied from a withdraw. */
  function TransactionOf(id: Id, w: Withdraw): Transaction
  {
    Transaction(id, w.amount, w.updatedAt, w.status)
  }

  /** `seller.transections = [...seller.transections, transection]`. */
  function AppendTransaction(shop: Shop, t: Transaction): Shop
  {
    shop.(transections := shop.transections + [t])
  }

  /** A request followed by its approval: the balance ends `amount` lower,
      the history grows by exactly one entry at the end, carrying the
      withdraw's id, amount, approval time and "succeed", and nothing else
      about the shop changes. */
  lemma RequestThenApprove(shop: Shop, seller: Id, id: Id, amount: int, requested: int, approved: int)
    ensures var w := MarkSucceeded(NewWithdraw(seller, amount, requested), approved);
      var after := AppendTransaction(Debit(shop, amount), TransactionOf(id, w));
      && after.availableBalance == shop.availableBalance - amount
      && after.transections == shop.transections + [Transaction(id, amount, approved, SUCCEED)]
      && after == shop.(availableBalance := after.availableBalance, transections := after.transections)
  {
  }

  /** Nothing stops a shop from withdrawing more than it holds. */
  lemma OverdraftAllowed(shop: Shop, amount: int)
    requires amount > shop.availableBalance
    ensures Debit(shop, amount).availableBalance < 0
  {
  }

  /** Approving a withdraw leaves every earlier history entry in place. */
  lemma ApprovalIsAppendOnly(shop: Shop, t: Transaction)
    ensures |AppendTransaction(shop, t).transections| == |shop.transections| + 1
    ensures AppendTransaction(shop, t).transections[..|shop.transections|] == shop.transections
    ensures AppendTransaction(shop, t).transections[|shop.transections|] == t
    ensures AppendTransaction(shop, t).availableBalance == shop.availableBalance
  {
  }

  /** `/create-withdraw-request` by the signed-in seller `sellerId`.  The
      withdraw is created first; a seller record that has disappeared then
      fails the request with 500 and the balance is not debited. */
  method CreateWithdrawRequest(db: Db, sellerId: Id, amount: int, now: int) returns (code: int, id: Id)
    modifies db`withdraws, db`shops
    ensures id !in old(db.withdraws)
    ensures db.withdraws == old(db.withdraws)[id := NewWithdraw(sellerId, amount, now)]
    ensures sellerId in old(db.shops) ==>
      code == CREATED && db.shops == old(db.shops)[sellerId := Debit(old(db.shops)[sellerId], amount)]
    ensures sellerId !in old(db.shops) ==> code == SERVER_ERROR && db.shops == old(db.shops)
  {
    FreshIdExists(db.withdraws.Keys);
    id :| id !in db.withdraws;
    db.withdraws := db.withdraws[id := Withdraw(sellerId, amount, PROCESSING, now, now)];
    if sellerId !in db.shops {
      return SERVER_ERROR, id;
    }
    var shop := db.shops[sellerId];
    shop := shop.(availableBalance := shop.availableBalance - amount);
    db.shops := db.shops[sellerId := shop];
    code := CREATED;
  }

  /** `/update-withdraw-request/:id` by the admin, naming the seller in the
      body.  An unknown withdraw fails with 500 and nothing changes; an
      unknown seller fails with 500 after the withdraw was marked. */
  method ApproveWithdraw(db: Db, withdrawId: Id, sellerId: Id, now: int) returns (code: int)
    modifies db`withdraws, db`shops
    ensures withdrawId !in old(db.withdraws) ==>
      code == SERVER_ERROR && db.withdraws == old(db.withdraws) && db.shops == old(db.shops)
    ensures withdrawId in old(db.withdraws) ==>
      var w := MarkSucceeded(old(db.withdraws)[withdrawId], now);
      && db.withdraws == old(db.withdraws)[withdrawId := w]
      && (if sellerId in old(db.shops) then
            code == CREATED
            && db.shops == old(db.shops)[sellerId := AppendTransaction(old(db.shops)[sellerId], TransactionOf(withdrawId, w))]
          else
            code == SERVER_ERROR && db.shops == old(db.shops))
  {
    if withdrawId !in db.withdraws {
      return SERVER_ERROR;
    }
    var withdraw := db.withdraws[withdrawId];
    withdraw := withdraw.(status := SUCCEED, updatedAt := now);
    db.withdraws := db.withdraws[withdrawId := withdraw];
    if sellerId !in db.shops {
      return SERVER_ERROR;
    }
    var seller := db.shops[sellerId];
    var transection := Transaction(withdrawId, withdraw.amount, withdraw.updatedAt, withdraw.status);
    seller := seller.(transections := seller.transections + [transection]);
    db.shops := db.shops[sellerId := seller];
    code := CREATED;
  }
}
