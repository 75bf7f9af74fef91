/** The document database, replaced by one in-memory map per collection.
    Handlers receive the database and change only the collections their
    `modifies` clauses name. */
module Store {
  import opened Common
  import opened Entities
  import QuickSellSchema

  class Db {
    var users: map<Id, User>
    var shops: map<Id, Shop>
    var products: map<Id, Product>
    var orders: map<Id, Order>
    var withdraws: map<Id, Withdraw>
    var listings: map<Id, QuickSellSchema.QuickSell>

    constructor ()
      ensures users == map[] && shops == map[] && products == map[]
      ensures orders == map[] && withdraws == map[] && listings == map[]
    {
      users, shops, products := map[], map[], map[];
      orders, withdraws, listings := map[], map[], map[];
    }
  }
}
