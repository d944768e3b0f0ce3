/**
 * The tables `users`, `products` and `purchases` of the shop database
 * (backend/database.js), the two key lookups the payment code performs on
 * them, and the idempotent seeding of the three demo products.
 *
 * Timestamps (`DATETIME DEFAULT CURRENT_TIMESTAMP`) are whole seconds,
 * modelled as `int`; the clock value is always supplied by the caller.
 */
module Schema {
  import opened Wrappers

  /** The values the code ever writes into `purchases.status`. */
  datatype Status = Pending | Paid

  /** A row of `users`: `telegram_id` is UNIQUE NOT NULL, `username` and `first_name` nullable. */
  datatype User = User(id: int, telegramId: int, username: Option<string>, firstName: Option<string>, createdAt: int)

  /** A row of `products`: `name` and `price` are NOT NULL, `description` and `file_url` nullable. */
  datatype Product = Product(id: int, name: string, description: Option<string>, price: int,
                             fileUrl: Option<string>, createdAt: int)

  /** A row of `purchases`: `user_id`, `product_id` and `amount` are NOT NULL integers. */
  datatype Purchase = Purchase(id: int, userId: int, productId: int, amount: int, status: Status, createdAt: int)

  // ---------------------------------------------------------------------
  // Keys and constraints
  // ---------------------------------------------------------------------

  predicate HasUserId(users: seq<User>, id: int) {
    exists k :: 0 <= k < |users| && users[k].id == id
  }

  predicate HasProductId(products: seq<Product>, id: int) {
    exists k :: 0 <= k < |products| && products[k].id == id
  }

  /** `users.id` is the primary key and `users.telegram_id` is UNIQUE. */
  predicate UsersKeyed(users: seq<User>) {
    forall i, j :: 0 <= i < j < |users| ==> users[i].id != users[j].id && users[i].telegramId != users[j].telegramId
  }

  /** `products.id` is the primary key. */
  predicate ProductsKeyed(products: seq<Product>) {
    forall i, j :: 0 <= i < j < |products| ==> products[i].id != products[j].id
  }

  /**
   * `purchases.id` is an AUTOINCREMENT primary key: ids are distinct and none
   * exceeds the table's sequence counter `seqNo`.
   */
  predicate PurchasesKeyed(purchases: seq<Purchase>, seqNo: int) {
    (forall i, j :: 0 <= i < j < |purchases| ==> purchases[i].id != purchases[j].id) &&
    (forall k :: 0 <= k < |purchases| ==> purchases[k].id <= seqNo)
  }

  /** The two FOREIGN KEY clauses of `purchases`. */
  predicate ReferencesHold(users: seq<User>, products: seq<Product>, purchases: seq<Purchase>) {
    forall k :: 0 <= k < |purchases| ==>
      HasUserId(users, purchases[k].userId) && HasProductId(products, purchases[k].productId)
  }

  /** Every constraint the schema declares, over the whole database. */
  predicate WellFormed(users: seq<User>, products: seq<Product>, purchases: seq<Purchase>, seqNo: int) {
    UsersKeyed(users) && ProductsKeyed(products) && PurchasesKeyed(purchases, seqNo) &&
    ReferencesHold(users, products, purchases)
  }

  // ---------------------------------------------------------------------
  // Lookups: the first product row with a given id, and the first user
  //          row with a given telegram id
  // ---------------------------------------------------------------------

  /** The first product row whose id is `id`, or None when there is none. */
  function FindProduct(products: seq<Product>, id: int): (r: Option<Product>)
    ensures r.Some? <==> HasProductId(products, id)
    ensures r.Some? ==> r.value in products && r.value.id == id
  {
    if |products| == 0 then None
    else if products[0].id == id then Some(products[0])
    else
      var r := FindProduct(products[1..], id);
      assert HasProductId(products, id) ==> HasProductId(products[1..], id) by {
        if HasProductId(products, id) {
          var k :| 0 <= k < |products| && products[k].id == id;
          assert products[1..][k - 1].id == id;
        }
      }
      assert r.Some? ==> HasProductId(products, id) by {
        if r.Some? {
          var k :| 0 <= k < |products[1..]| && products[1..][k].id == id;
          assert products[k + 1].id == id;
        }
      }
      r
  }

  /** The first user row whose telegram id is `telegramId`, or None when there is none. */
  function FindUserByTelegramId(users: seq<User>, telegramId: int): (r: Option<User>)
    ensures r.Some? <==> exists k :: 0 <= k < |users| && users[k].telegramId == telegramId
    ensures r.Some? ==> r.value in users && r.value.telegramId == telegramId
  {
    if |users| == 0 then None
    else if users[0].telegramId == telegramId then Some(users[0])
    else
      var r := FindUserByTelegramId(users[1..], telegramId);
      assert (exists k :: 0 <= k < |users| && users[k].telegramId == telegramId) ==>
             (exists k :: 0 <= k < |users[1..]| && users[1..][k].telegramId == telegramId) by {
        if exists k :: 0 <= k < |users| && users[k].telegramId == telegramId {
          var k :| 0 <= k < |users| && users[k].telegramId == telegramId;
          assert users[1..][k - 1].telegramId == telegramId;
        }
      }
      assert r.Some? ==> (exists k :: 0 <= k < |users| && users[k].telegramId == telegramId) by {
        if r.Some? {
          var k :| 0 <= k < |users[1..]| && users[1..][k].telegramId == telegramId;
          assert users[k + 1].telegramId == telegramId;
        }
      }
      r
  }

  /** Because `id` is the primary key, the product lookup returns THE row with that id. */
  lemma FindProductIsTheRow(products: seq<Product>, k: int)
    requires ProductsKeyed(products) && 0 <= k < |products|
    ensures FindProduct(products, products[k].id) == Some(products[k])
  {
  }

  /** Because `telegram_id` is UNIQUE, the user lookup returns THE row with that telegram id. */
  lemma FindUserIsTheRow(users: seq<User>, k: int)
    requires UsersKeyed(users) && 0 <= k < |users|
    ensures FindUserByTelegramId(users, users[k].telegramId) == Some(users[k])
  {
  }

  // ---------------------------------------------------------------------
  // Seeding: inserts with an explicit id that skip ids already present
  // ---------------------------------------------------------------------

  /**
   * The product table after `INSERT OR IGNORE` of `p`: the primary key is the
   * only constraint that can conflict, and on a conflict the statement does nothing.
   */
  function InsertOrIgnore(products: seq<Product>, p: Product): (r: seq<Product>)
    ensures products <= r && |r| <= |products| + 1
    ensures HasProductId(r, p.id)
    ensures HasProductId(products, p.id) ==> r == products
    ensures !HasProductId(products, p.id) ==> r[|products|] == p
    ensures ProductsKeyed(products) ==> ProductsKeyed(r)
  {
    if HasProductId(products, p.id) then products
    else
      assert (products + [p])[|products|] == p;
      products + [p]
  }

  const RsiProName: string := "RSI Pro"
  const RsiProDescription: string := "Продвинутый индикатор RSI с дополнительными уровнями и сигналами"
  const MacdName: string := "MACD Advanced"
  const MacdDescription: string := "Улучшенный MACD с настраиваемыми параметрами"
  const VolumeProfileName: string := "Volume Profile"
  const VolumeProfileDescription: string := "Профессиональный инструмент для анализа объёмов"

  /** The three demo products, stamped with the time `now` at which they are inserted. */
  function SeedRows(now: int): seq<Product> {
    [ Product(1, RsiProName, Some(RsiProDescription), 500, None, now),
      Product(2, MacdName, Some(MacdDescription), 700, None, now),
      Product(3, VolumeProfileName, Some(VolumeProfileDescription), 1000, None, now) ]
  }

  /** The product table after the three seeding statements, run one after the other. */
  function Seed(products: seq<Product>, now: int): (r: seq<Product>)
    ensures products <= r
    ensures HasProductId(r, 1) && HasProductId(r, 2) && HasProductId(r, 3)
    ensures ProductsKeyed(products) ==> ProductsKeyed(r)
  {
    var rows := SeedRows(now);
    InsertOrIgnore(InsertOrIgnore(InsertOrIgnore(products, rows[0]), rows[1]), rows[2])
  }

  /** Seeding never overwrites: a product row that existed before keeps its name and price. */
  lemma SeedKeepsExistingRows(products: seq<Product>, now: int, k: int)
    requires ProductsKeyed(products) && 0 <= k < |products|
    ensures FindProduct(Seed(products, now), products[k].id) == Some(products[k])
  {
  }

  /** Appending a row changes a lookup only when no earlier row already had the key. */
  lemma {:induction false} FindProductAppend(products: seq<Product>, p: Product, id: int)
    ensures FindProduct(products + [p], id) ==
      if FindProduct(products, id).Some? then FindProduct(products, id)
      else if p.id == id then Some(p) else None
  {
    if |products| > 0 {
      assert (products + [p])[1..] == products[1..] + [p];
      FindProductAppend(products[1..], p, id);
    }
  }

  /** A lookup after `INSERT OR IGNORE`: the new row is found only where there was none. */
  lemma FindAfterInsertOrIgnore(products: seq<Product>, p: Product, id: int)
    ensures FindProduct(InsertOrIgnore(products, p), id) ==
      if FindProduct(products, id).Some? then FindProduct(products, id)
      else if p.id == id then Some(p) else None
  {
    if !HasProductId(products, p.id) {
      FindProductAppend(products, p, id);
    }
  }

  /**
   * After seeding, products 1, 2 and 3 exist; each of them that was absent
   * before carries the seeded name and price (500, 700 and 1000), and each
   * that was present is left as it was.
   */
  lemma SeedPrices(products: seq<Product>, now: int)
    ensures var r := Seed(products, now);
      FindProduct(r, 1) == (if HasProductId(products, 1) then FindProduct(products, 1) else Some(SeedRows(now)[0])) &&
      FindProduct(r, 2) == (if HasProductId(products, 2) then FindProduct(products, 2) else Some(SeedRows(now)[1])) &&
      FindProduct(r, 3) == (if HasProductId(products, 3) then FindProduct(products, 3) else Some(SeedRows(now)[2])) &&
      (!HasProductId(products, 1) ==> FindProduct(r, 1).value.price == 500) &&
      (!HasProductId(products, 2) ==> FindProduct(r, 2).value.price == 700) &&
      (!HasProductId(products, 3) ==> FindProduct(r, 3).value.price == 1000)
  {
    var rows := SeedRows(now);
    var r1 := InsertOrIgnore(products, rows[0]);
    var r2 := InsertOrIgnore(r1, rows[1]);
    forall id | 1 <= id <= 3
      ensures FindProduct(Seed(products, now), id) ==
        if FindProduct(products, id).Some? then FindProduct(products, id) else Some(rows[id - 1])
    {
      FindAfterInsertOrIgnore(products, rows[0], id);
      FindAfterInsertOrIgnore(r1, rows[1], id);
      FindAfterInsertOrIgnore(r2, rows[2], id);
    }
  }

  /** Re-running the seed, at any later time, leaves the product table as it is. */
  lemma SeedIdempotent(products: seq<Product>, now: int, later: int)
    ensures Seed(Seed(products, now), later) == Seed(products, now)
  {
  }
}
