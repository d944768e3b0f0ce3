/**
 * The shop database handle (backend/database.js): the three tables, held in
 * one object whose statements change them in place, and the module start-up
 * that opens the file, creates missing tables and seeds the demo products.
 */
module Database {
  import opened Wrappers
  import opened Schema
  import opened Purchases

  class Store {
    var users: seq<User>
    var products: seq<Product>
    var purchases: seq<Purchase>
    /** The `sqlite_sequence` entry of `purchases`: the largest id AUTOINCREMENT has handed out. */
    var purchaseSeq: int

    /** The database satisfies every constraint of its schema. */
    ghost predicate Valid()
      reads this
    {
      WellFormed(users, products, purchases, purchaseSeq)
    }

    /**
     * Opens a database file holding the given rows. `CREATE TABLE IF NOT EXISTS`
     * leaves existing tables as they are, so opening changes nothing; a new
     * file is the case where all three tables are empty.
     */
    constructor Open(users0: seq<User>, products0: seq<Product>, purchases0: seq<Purchase>, purchaseSeq0: int)
      requires WellFormed(users0, products0, purchases0, purchaseSeq0)
      ensures Valid()
      ensures users == users0 && products == products0 && purchases == purchases0 && purchaseSeq == purchaseSeq0
    {
      users, products, purchases, purchaseSeq := users0, products0, purchases0, purchaseSeq0;
    }

    /**
     * The seeding insert of one product with an explicit id, at time `now`:
     * the row is added unless a product with that id already exists.
     */
    method InsertOrIgnoreProduct(id: int, name: string, description: Option<string>, price: int,
                                 fileUrl: Option<string>, now: int)
      requires Valid()
      modifies this
      ensures Valid()
      ensures products == InsertOrIgnore(old(products), Product(id, name, description, price, fileUrl, now))
      ensures users == old(users) && purchases == old(purchases) && purchaseSeq == old(purchaseSeq)
    {
      var row := Product(id, name, description, price, fileUrl, now);
      if !HasProductId(products, id) {
        assert ReferencesHold(users, products + [row], purchases) by {
          forall k | 0 <= k < |purchases| ensures HasProductId(products + [row], purchases[k].productId) {
            var j :| 0 <= j < |products| && products[j].id == purchases[k].productId;
            assert (products + [row])[j] == products[j];
          }
        }
      }
      products := InsertOrIgnore(products, row);
    }

    /** The three seeding statements, run one after the other at time `now`. */
    method SeedProducts(now: int)
      requires Valid()
      modifies this
      ensures Valid()
      ensures products == Seed(old(products), now)
      ensures users == old(users) && purchases == old(purchases) && purchaseSeq == old(purchaseSeq)
    {
      InsertOrIgnoreProduct(1, RsiProName, Some(RsiProDescription), 500, None, now);
      InsertOrIgnoreProduct(2, MacdName, Some(MacdDescription), 700, None, now);
      InsertOrIgnoreProduct(3, VolumeProfileName, Some(VolumeProfileDescription), 1000, None, now);
    }

    /**
     * The insert of a pending purchase for a user, a product and an amount,
     * at time `now`: one row is appended, with the next AUTOINCREMENT id.
     * The foreign keys must hold for the row to be accepted.
     */
    method InsertPendingPurchase(userId: int, productId: int, amount: int, now: int) returns (row: Purchase)
      requires Valid()
      requires HasUserId(users, userId) && HasProductId(products, productId)
      modifies this
      ensures Valid()
      ensures row == Purchase(old(purchaseSeq) + 1, userId, productId, amount, Pending, now)
      ensures purchases == old(purchases) + [row] && purchaseSeq == row.id
      ensures users == old(users) && products == old(products)
    {
      row := Purchase(purchaseSeq + 1, userId, productId, amount, Pending, now);
      purchases := purchases + [row];
      purchaseSeq := row.id;
    }

    /**
     * The settling update of a payment: when the (user, product) pair
     * has a pending row, one of its most recent ones (which one, among rows
     * with equal `created_at`, is up to the engine) becomes paid; otherwise
     * nothing changes. `settled` is the position of the changed row.
     */
    method SettleLatestPending(userId: int, productId: int) returns (settled: Option<int>)
      requires Valid()
      modifies this
      ensures Valid()
      ensures settled.None? <==> PendingCount(old(purchases), userId, productId) == 0
      ensures settled.None? ==> purchases == old(purchases)
      ensures settled.Some? ==> IsLatestPending(old(purchases), settled.value, userId, productId) &&
                                purchases == MarkPaid(old(purchases), settled.value)
      ensures users == old(users) && products == old(products) && purchaseSeq == old(purchaseSeq)
    {
      if PendingCount(purchases, userId, productId) == 0 {
        settled := None;
      } else {
        LatestPendingExists(purchases, userId, productId);
        var i :| 0 <= i < |purchases| && IsLatestPending(purchases, i, userId, productId);
        purchases := MarkPaid(purchases, i);
        settled := Some(i);
      }
    }
  }

  /**
   * Loading the database module: open the file with whatever it already
   * holds, then seed the demo products at time `now`.
   */
  method Initialise(users0: seq<User>, products0: seq<Product>, purchases0: seq<Purchase>, purchaseSeq0: int,
                    now: int) returns (db: Store)
    requires WellFormed(users0, products0, purchases0, purchaseSeq0)
    ensures fresh(db) && db.Valid()
    ensures db.products == Seed(products0, now)
    ensures HasProductId(db.products, 1) && HasProductId(db.products, 2) && HasProductId(db.products, 3)
    ensures db.users == users0 && db.purchases == purchases0 && db.purchaseSeq == purchaseSeq0
  {
    db := new Store.Open(users0, products0, purchases0, purchaseSeq0);
    db.SeedProducts(now);
  }
}
