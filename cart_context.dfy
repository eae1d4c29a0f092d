/** The browser-side cart state of context/AppContext.jsx: the quantity map,
    add and set-quantity, the single debounced pending write, the cart count
    and amount, and loading the cart (guest validation, guest-to-account
    merge). */
module CartContext {
  import opened Common
  import opened Catalog

  /** `cartItems`: product id to quantity, in insertion order. */
  type Cart = Dict<int>

  /** The quantity under `id`, 0 when there is no entry. */
  function Qty(c: Cart, id: string): int {
    if id in c.vals then c.vals[id] else 0
  }

  /** The entry under `id`, if any. */
  function Entry(c: Cart, id: string): Option<int> {
    if id in c.vals then Some(c.vals[id]) else None
  }

  /** The cart after `addToCart(id)` for a product in the catalog: an entry
      with a true quantity goes up by one, a missing or zero entry becomes 1. */
  function Added(c: Cart, id: string): (r: Cart)
    requires DictValid(c)
    ensures DictValid(r)
    ensures id in r.vals && Qty(r, id) == Qty(c, id) + 1
    ensures forall k :: k != id ==> Entry(r, k) == Entry(c, k)
    ensures r.keys == if id in c.vals then c.keys else c.keys + [id]
  {
    if id in c.vals && c.vals[id] != 0 then Put(c, id, c.vals[id] + 1) else Put(c, id, 1)
  }

  /** The cart after `updateCartQuantity(id, q)`: 0 deletes the entry, any
      other value is stored as given. */
  function WithQuantity(c: Cart, id: string, q: int): (r: Cart)
    requires DictValid(c)
    ensures DictValid(r)
    ensures q == 0 ==> id !in r.vals
    ensures q != 0 ==> Entry(r, id) == Some(q)
    ensures forall k :: k != id ==> Entry(r, k) == Entry(c, k)
    ensures q == 0 ==> Subsequence(r.keys, c.keys) && |r.keys| == |c.keys| - (if id in c.vals then 1 else 0)
    ensures q != 0 && id in c.vals ==> r.keys == c.keys
    ensures q != 0 && id !in c.vals ==> r.keys == c.keys + [id]
  {
    if q == 0 then Remove(c, id) else Put(c, id, q)
  }

  // ---------------------------------------------------------------------------
  // Count and amount

  /** What an entry adds to the cart count: its quantity when positive. */
  function CountWeight(c: Cart): string -> int {
    k => if k in c.vals && c.vals[k] > 0 then c.vals[k] else 0
  }

  /** `getCartCount()`: the sum of the strictly positive quantities. */
  function CartCount(c: Cart): int {
    SumInt(c.keys, CountWeight(c))
  }

  /** What an entry adds to the cart amount: unit price times quantity when
      the quantity is positive and the product is in the catalog. */
  function LineAmount(c: Cart, products: seq<Product>, k: string): real {
    if k in c.vals && c.vals[k] > 0 && FindProduct(products, k).Some?
    then LineTotal(FindProduct(products, k).value, c.vals[k])
    else 0.0
  }

  function AmountWeight(c: Cart, products: seq<Product>): string -> real {
    k => LineAmount(c, products, k)
  }

  /** The cart amount before it is floored to cents. */
  function RawAmount(c: Cart, products: seq<Product>): real {
    SumReal(c.keys, AmountWeight(c, products))
  }

  /** Adding a product with a non-negative entry raises the count by one. */
  lemma {:induction false} AddRaisesCount(c: Cart, id: string)
    requires DictValid(c) && Qty(c, id) >= 0
    ensures CartCount(Added(c, id)) == CartCount(c) + 1
  {
    var r := Added(c, id);
    var f, g := CountWeight(c), CountWeight(r);
    if id in c.vals {
      SumIntExceptOne(c.keys, f, g, id);
    } else {
      SumIntExceptOne(c.keys, f, g, id);
      SumIntAppend(c.keys, id, g);
    }
  }

  /** Setting a quantity to 0 takes that entry's positive part off the count. */
  lemma {:induction false} RemoveLowersCount(c: Cart, id: string)
    requires DictValid(c)
    ensures CartCount(WithQuantity(c, id, 0)) == CartCount(c) - CountWeight(c)(id)
  {
    var r := WithQuantity(c, id, 0);
    var f, g := CountWeight(c), CountWeight(r);
    SumIntFilter(c.keys, g, Except(id));
    SumIntExceptOne(c.keys, f, g, id);
  }

  // ---------------------------------------------------------------------------
  // Guest cart validation and guest-to-account merge

  /** The entries guest validation and POST /api/cart keep: a catalog
      product with quantity > 0. */
  function ValidEntry(parsed: Cart, products: seq<Product>): string -> bool {
    k => k in parsed.vals && parsed.vals[k] > 0 && FindProduct(products, k).Some?
  }

  /** Guest validation never changes the cart amount: what it drops weighs 0. */
  lemma {:induction false} GuestValidationKeepsAmount(parsed: Cart, products: seq<Product>)
    requires DictValid(parsed)
    ensures RawAmount(FilterKeys(parsed, ValidEntry(parsed, products)), products)
         == RawAmount(parsed, products)
  {
    var p := ValidEntry(parsed, products);
    var v := FilterKeys(parsed, p);
    var f, g := AmountWeight(parsed, products), AmountWeight(v, products);
    forall i | 0 <= i < |parsed.keys| && !p(parsed.keys[i])
      ensures f(parsed.keys[i]) == 0.0
    {
    }
    SumRealFilter(parsed.keys, f, p);
    forall i | 0 <= i < |v.keys| ensures g(v.keys[i]) == f(v.keys[i]) {
      var k := v.keys[i];
      assert k in v.vals;
      assert v.vals[k] == parsed.vals[k];
      assert LineAmount(v, products, k) == LineAmount(parsed, products, k);
    }
    SumRealSame(v.keys, g, f);
  }

  /** The validation loop of `loadCart` for a guest: keep the entries whose
      product is in the catalog and whose quantity is above 0. */
  method ValidateGuestCart(parsed: Cart, products: seq<Product>) returns (validated: Cart)
    requires DictValid(parsed)
    ensures validated == FilterKeys(parsed, ValidEntry(parsed, products))
  {
    var keep := ValidEntry(parsed, products);
    validated := EmptyDict();
    var i := 0;
    FilteredStart(parsed, keep);
    while i < |parsed.keys|
      invariant 0 <= i <= |parsed.keys|
      invariant FilteredUpTo(validated, parsed, keep, i)
    {
      var productId := parsed.keys[i];
      FilteredStep(validated, parsed, keep, i);
      var productExists := FindProduct(products, productId);
      if productExists.Some? && parsed.vals[productId] > 0 {
        validated := Put(validated, productId, parsed.vals[productId]);
      }
      i := i + 1;
    }
    FilteredDone(validated, parsed, keep);
  }

  /** The condition "is not already in the account cart". */
  function NotIn(account: Cart): string -> bool {
    k => k !in account.vals
  }

  /** `m` is what the login merge produces from the account cart and the
      guest cart: account keys first, then the guest's new keys in order,
      and every quantity the sum of both sides. */
  ghost predicate MergedFrom(m: Cart, account: Cart, guest: Cart) {
    DictValid(m) &&
    m.keys == account.keys + Filter(guest.keys, NotIn(account)) &&
    (forall k :: k in m.vals <==> k in account.vals || k in guest.vals) &&
    (forall k :: k in m.vals ==> m.vals[k] == Qty(account, k) + Qty(guest, k))
  }

  /** The merge after the guest keys `ks`: the keys, which entries exist,
      and their quantities. */
  ghost predicate MergedKeys(m: Cart, account: Cart, ks: seq<string>) {
    m.keys == account.keys + Filter(ks, NotIn(account))
  }

  ghost predicate MergedEntries(vals: map<string, int>, account: Cart, guest: Cart, ks: seq<string>) {
    (forall k :: k in vals <==> k in account.vals || k in ks) &&
    (forall k :: k in vals ==> vals[k] == Qty(account, k) + (if k in ks then Qty(guest, k) else 0))
  }

  /** Adding the next guest key's quantity to the entries, when that key
      was not among the guest keys already merged. */
  lemma MergeEntriesAppend(vals: map<string, int>, account: Cart, guest: Cart, ks: seq<string>, id: string, ks2: seq<string>)
    requires id !in ks && ks2 == ks + [id]
    requires MergedEntries(vals, account, guest, ks)
    ensures MergedEntries(vals[id := Qty(account, id) + Qty(guest, id)], account, guest, ks2)
  {
    var vals' := vals[id := Qty(account, id) + Qty(guest, id)];
    forall k ensures k in vals' <==> k in account.vals || k in ks2 {
      assert (k in ks2) == (k in ks || k == id);
    }
    forall k | k in vals'
      ensures vals'[k] == Qty(account, k) + (if k in ks2 then Qty(guest, k) else 0)
    {
      assert (k in ks2) == (k in ks || k == id);
    }
  }

  /** The next guest key goes after the keys merged so far exactly when
      the account cart lacks it. */
  lemma MergeKeysAppend(keys: seq<string>, account: Cart, ks: seq<string>, id: string, ks2: seq<string>)
    requires ks2 == ks + [id]
    requires keys == account.keys + Filter(ks, NotIn(account))
    ensures (if id in account.vals then keys else keys + [id]) ==
            account.keys + Filter(ks2, NotIn(account))
  {
    FilterAppend(ks, id, NotIn(account));
  }

  /** The merge invariant after the first `i` guest keys. */
  ghost predicate MergedUpTo(m: Cart, account: Cart, guest: Cart, i: nat)
    requires i <= |guest.keys|
  {
    DictValid(m) && MergedKeys(m, account, guest.keys[..i]) &&
    MergedEntries(m.vals, account, guest, guest.keys[..i])
  }

  /** Before any guest key, the merge is the account cart. */
  lemma MergeStart(account: Cart, guest: Cart)
    requires DictValid(account)
    ensures MergedUpTo(account, account, guest, 0)
  {
    assert guest.keys[..0] == [];
  }

  /** The next guest key goes last exactly when the account cart lacks it. */
  lemma MergeStepKeys(m: Cart, m': Cart, account: Cart, guest: Cart, i: nat, q: int)
    requires DictValid(guest) && i < |guest.keys|
    requires MergedUpTo(m, account, guest, i)
    requires m' == Put(m, guest.keys[i], q)
    ensures MergedKeys(m', account, guest.keys[..i + 1])
  {
    var id, ks, ks2 := guest.keys[i], guest.keys[..i], guest.keys[..i + 1];
    TakeNext(guest.keys, i);
    DistinctNotBefore(guest.keys, i);
    assert id in m.vals <==> id in account.vals;
    MergeKeysAppend(m.keys, account, ks, id, ks2);
  }

  /** The next guest key's quantity is added to what the account cart had. */
  lemma MergeStepEntries(m: Cart, m': Cart, account: Cart, guest: Cart, i: nat, q: int)
    requires DictValid(guest) && i < |guest.keys|
    requires MergedUpTo(m, account, guest, i)
    requires q == Qty(m, guest.keys[i]) + Qty(guest, guest.keys[i])
    requires m' == Put(m, guest.keys[i], q)
    ensures MergedEntries(m'.vals, account, guest, guest.keys[..i + 1])
  {
    var id, ks, ks2 := guest.keys[i], guest.keys[..i], guest.keys[..i + 1];
    TakeNext(guest.keys, i);
    DistinctNotBefore(guest.keys, i);
    assert Qty(m, id) == Qty(account, id);
    MergeEntriesAppend(m.vals, account, guest, ks, id, ks2);
  }

  /** Merging one more guest key, with the sum `q` of both quantities,
      keeps the merge invariant. */
  lemma MergeStep(m: Cart, m': Cart, account: Cart, guest: Cart, i: nat, q: int)
    requires DictValid(guest) && i < |guest.keys|
    requires MergedUpTo(m, account, guest, i)
    requires q == Qty(m, guest.keys[i]) + Qty(guest, guest.keys[i])
    requires m' == Put(m, guest.keys[i], q)
    ensures MergedUpTo(m', account, guest, i + 1)
  {
    MergeStepKeys(m, m', account, guest, i, q);
    MergeStepEntries(m, m', account, guest, i, q);
  }

  /** The cart after merging the first `n` guest keys into the account cart,
      one key at a time. */
  function MergePrefix(account: Cart, guest: Cart, n: nat): (m: Cart)
    requires DictValid(account) && n <= |guest.keys|
    ensures DictValid(m)
  {
    if n == 0 then account
    else
      var m := MergePrefix(account, guest, n - 1);
      var id := guest.keys[n - 1];
      Put(m, id, Qty(m, id) + Qty(guest, id))
  }

  /** One more guest key, merged with the sum `q` of both quantities, gives
      the next prefix of the merge. */
  lemma MergePrefixNext(account: Cart, guest: Cart, n: nat, m: Cart, q: int)
    requires DictValid(account) && n < |guest.keys|
    requires m == MergePrefix(account, guest, n)
    requires q == Qty(m, guest.keys[n]) + Qty(guest, guest.keys[n])
    ensures Put(m, guest.keys[n], q) == MergePrefix(account, guest, n + 1)
  {
  }

  /** Every prefix of the merge satisfies the merge invariant. */
  lemma {:induction false} MergePrefixInvariant(account: Cart, guest: Cart, n: nat)
    requires DictValid(account) && DictValid(guest) && n <= |guest.keys|
    ensures MergedUpTo(MergePrefix(account, guest, n), account, guest, n)
  {
    if n == 0 {
      MergeStart(account, guest);
    } else {
      var k := n - 1;
      var m := MergePrefix(account, guest, k);
      var q := Qty(m, guest.keys[k]) + Qty(guest, guest.keys[k]);
      MergePrefixInvariant(account, guest, k);
      MergePrefixNext(account, guest, k, m, q);
      MergeStep(m, MergePrefix(account, guest, n), account, guest, k, q);
    }
  }

  /** Once every guest key is merged, the invariant is the merge. */
  lemma MergedAll(m: Cart, account: Cart, guest: Cart)
    requires DictValid(guest) && MergedUpTo(m, account, guest, |guest.keys|)
    ensures MergedFrom(m, account, guest)
  {
    assert guest.keys[..|guest.keys|] == guest.keys;
  }

  /** The whole merge, one key at a time, is the merge. */
  lemma MergePrefixIsMerge(account: Cart, guest: Cart, m: Cart)
    requires DictValid(account) && DictValid(guest)
    requires m == MergePrefix(account, guest, |guest.keys|)
    ensures MergedFrom(m, account, guest)
  {
    MergePrefixInvariant(account, guest, |guest.keys|);
    MergedAll(m, account, guest);
  }

  /** The merge loop of `loadCart`. */
  method MergeGuestCart(account: Cart, guest: Cart) returns (merged: Cart)
    requires DictValid(account) && DictValid(guest)
    ensures merged == MergePrefix(account, guest, |guest.keys|)
  {
    merged := account;
    var i := 0;
    while i < |guest.keys|
      invariant 0 <= i <= |guest.keys|
      invariant merged == MergePrefix(account, guest, i)
    {
      var id := guest.keys[i];
      KeyHasValue(guest, i);
      var q := if id in merged.vals && merged.vals[id] != 0
        then merged.vals[id] + guest.vals[id]
        else guest.vals[id];
      MergePrefixNext(account, guest, i, merged, q);
      merged := Put(merged, id, q);
      i := i + 1;
    }
  }

  /** A guest cart {A: 2, B: 1} merged into an account cart {B: 3, C: 1}
      gives {A: 2, B: 4, C: 1}: quantities add up, nothing is overwritten. */
  lemma MergeAddsQuantities(m: Cart)
    requires MergedFrom(m, Dict(["B", "C"], map["B" := 3, "C" := 1]), Dict(["A", "B"], map["A" := 2, "B" := 1]))
    ensures m.vals == map["A" := 2, "B" := 4, "C" := 1]
    ensures m.keys == ["B", "C", "A"]
  {
    var account := Dict(["B", "C"], map["B" := 3, "C" := 1]);
    var guest := Dict(["A", "B"], map["A" := 2, "B" := 1]);
    assert "A" in m.vals && "B" in m.vals && "C" in m.vals;
    assert m.vals.Keys == {"A", "B", "C"};
    assert Filter(guest.keys, NotIn(account)) == ["A"];
  }

  // ---------------------------------------------------------------------------
  // The debounced write, as a sequence of events

  datatype Mutation = AddItem(id: string) | SetQuantity(id: string, quantity: int)

  datatype Event = Mutate(m: Mutation) | TimerFires

  /** The browser cart, the single pending-write slot (the snapshot the
      scheduled save will write) and the writes made so far. */
  datatype Saver = Saver(cart: Cart, slot: Option<Cart>, writes: seq<Cart>)

  /** A mutation goes through unless it adds a product missing from the catalog. */
  predicate Accepted(products: seq<Product>, m: Mutation) {
    m.SetQuantity? || FindProduct(products, m.id).Some?
  }

  function ApplyMutation(products: seq<Product>, c: Cart, m: Mutation): (r: Cart)
    requires DictValid(c)
    ensures DictValid(r)
  {
    if !Accepted(products, m) then c
    else match m
      case AddItem(id) => Added(c, id)
      case SetQuantity(id, q) => WithQuantity(c, id, q)
  }

  function ApplyAll(products: seq<Product>, c: Cart, ms: seq<Mutation>): (r: Cart)
    requires DictValid(c)
    ensures DictValid(r)
    decreases |ms|
  {
    if ms == [] then c else ApplyAll(products, ApplyMutation(products, c, ms[0]), ms[1..])
  }

  /** Each accepted mutation replaces the pending snapshot (cancelling the
      previous timer); a firing timer writes the pending snapshot, once. */
  function Step(products: seq<Product>, s: Saver, e: Event): (r: Saver)
    requires DictValid(s.cart)
    ensures DictValid(r.cart)
  {
    match e
    case Mutate(m) =>
      if Accepted(products, m) then
        var c := ApplyMutation(products, s.cart, m);
        Saver(c, Some(c), s.writes)
      else s
    case TimerFires =>
      if s.slot.Some? then Saver(s.cart, None, s.writes + [s.slot.value]) else s
  }

  function Run(products: seq<Product>, s: Saver, events: seq<Event>): (r: Saver)
    requires DictValid(s.cart)
    ensures DictValid(r.cart)
    decreases |events|
  {
    if events == [] then s else Run(products, Step(products, s, events[0]), events[1..])
  }

  function Mutations(ms: seq<Mutation>): (es: seq<Event>)
    ensures |es| == |ms|
  {
    if ms == [] then [] else [Mutate(ms[0])] + Mutations(ms[1..])
  }

  predicate AnyAccepted(products: seq<Product>, ms: seq<Mutation>) {
    exists i :: 0 <= i < |ms| && Accepted(products, ms[i])
  }

  /** A burst of mutations only moves the pending slot; nothing is written,
      and the slot always holds the current cart once anything was accepted. */
  lemma {:induction false} BurstWritesNothing(products: seq<Product>, s: Saver, ms: seq<Mutation>)
    requires DictValid(s.cart) && (s.slot.Some? ==> s.slot.value == s.cart)
    ensures var r := Run(products, s, Mutations(ms));
      r.cart == ApplyAll(products, s.cart, ms) &&
      r.writes == s.writes &&
      (r.slot.Some? ==> r.slot.value == r.cart) &&
      (r.slot.Some? <==> s.slot.Some? || AnyAccepted(products, ms))
    decreases |ms|
  {
    if ms != [] {
      var s' := Step(products, s, Mutate(ms[0]));
      assert Mutations(ms)[1..] == Mutations(ms[1..]);
      BurstWritesNothing(products, s', ms[1..]);
      if AnyAccepted(products, ms[1..]) {
        var i :| 0 <= i < |ms[1..]| && Accepted(products, ms[1..][i]);
        assert Accepted(products, ms[i + 1]);
      }
      if AnyAccepted(products, ms) && !Accepted(products, ms[0]) {
        var i :| 0 <= i < |ms| && Accepted(products, ms[i]);
        assert Accepted(products, ms[1..][i - 1]);
      }
    }
  }

  lemma {:induction false} RunAppend(products: seq<Product>, s: Saver, a: seq<Event>, b: seq<Event>)
    requires DictValid(s.cart)
    ensures Run(products, s, a + b) == Run(products, Run(products, s, a), b)
    decreases |a|
  {
    if a == [] {
      assert a + b == b;
    } else {
      assert (a + b)[0] == a[0];
      assert (a + b)[1..] == a[1..] + b;
      RunAppend(products, Step(products, s, a[0]), a[1..], b);
    }
  }

  /** After a burst of mutations and one firing timer exactly one write
      happens, and it holds the final cart: the bursts are coalesced. */
  lemma {:induction false} BurstThenFireWritesOnce(products: seq<Product>, s: Saver, ms: seq<Mutation>)
    requires DictValid(s.cart) && (s.slot.Some? ==> s.slot.value == s.cart)
    requires AnyAccepted(products, ms)
    ensures var r := Run(products, s, Mutations(ms) + [TimerFires]);
      r.writes == s.writes + [ApplyAll(products, s.cart, ms)] && r.slot.None? &&
      r.cart == ApplyAll(products, s.cart, ms)
  {
    BurstWritesNothing(products, s, ms);
    RunAppend(products, s, Mutations(ms), [TimerFires]);
  }

  // ---------------------------------------------------------------------------
  // The session object

  /** `localStorage.getItem('guestCart')`: no item, text that does not parse,
      or a parsed cart. */
  datatype LocalItem = NoItem | Unparsable | Parsed(cart: Cart)

  /** The cart part of the app-wide context for one browser session. */
  class CartSession {
    var products: seq<Product>     // `products`, the catalog list
    var items: Cart                // `cartItems`
    var pending: Option<Cart>      // the snapshot `cartUpdateTimeoutRef` will save
    var userId: Option<string>     // `session?.user?.id`
    var guestCart: LocalItem       // `localStorage['guestCart']`
    var posted: seq<Cart>          // carts sent to POST /api/cart, in order

    ghost predicate Valid()
      reads this
    {
      DictValid(items) && (pending.Some? ==> DictValid(pending.value)) &&
      (guestCart.Parsed? ==> DictValid(guestCart.cart))
    }

    constructor (catalog: seq<Product>, user: Option<string>, local: LocalItem)
      requires local.Parsed? ==> DictValid(local.cart)
      ensures Valid()
      ensures products == catalog && userId == user && guestCart == local
      ensures items == EmptyDict() && pending.None? && posted == []
    {
      products := catalog;
      items := EmptyDict();
      pending := None;
      userId := user;
      guestCart := local;
      posted := [];
    }

    /** `addToCart(id)` from a handler whose render saw the cart `rendered`
        (the current `items` for a fresh render): refused for a product
        missing from the catalog; otherwise the cart becomes `rendered` plus
        one of `id`, and the pending write is replaced. */
    method AddToCart(rendered: Cart, id: string) returns (added: bool)
      requires Valid() && DictValid(rendered)
      modifies this
      ensures Valid()
      ensures added <==> FindProduct(products, id).Some?
      ensures added ==> items == Added(rendered, id) && pending == Some(items)
      ensures !added ==> items == old(items) && pending == old(pending)
      ensures products == old(products) && userId == old(userId)
      ensures guestCart == old(guestCart) && posted == old(posted)
    {
      var found := FindProduct(products, id);
      if found.None? {
        return false;
      }
      var cartData := rendered;
      if id in cartData.vals && cartData.vals[id] != 0 {
        cartData := Put(cartData, id, cartData.vals[id] + 1);
      } else {
        cartData := Put(cartData, id, 1);
      }
      items := cartData;
      pending := Some(cartData);
      added := true;
    }

    /** `updateCartQuantity(id, q)` from a handler whose render saw the cart
        `rendered`: 0 deletes, anything else is stored; the pending write is
        replaced. */
    method UpdateCartQuantity(rendered: Cart, id: string, q: int)
      requires Valid() && DictValid(rendered)
      modifies this
      ensures Valid()
      ensures items == WithQuantity(rendered, id, q) && pending == Some(items)
      ensures products == old(products) && userId == old(userId)
      ensures guestCart == old(guestCart) && posted == old(posted)
    {
      var cartData := rendered;
      if q == 0 {
        cartData := Remove(cartData, id);
      } else {
        cartData := Put(cartData, id, q);
      }
      items := cartData;
      pending := Some(cartData);
    }

    /** `saveCartToDB(data)`: a guest's cart goes to local storage, a signed-in
        user's to POST /api/cart. */
    method SaveCartToDB(data: Cart)
      requires Valid() && DictValid(data)
      modifies this`guestCart, this`posted
      ensures Valid()
      ensures userId.None? ==> guestCart == Parsed(data) && posted == old(posted)
      ensures userId.Some? ==> guestCart == old(guestCart) && posted == old(posted) + [data]
    {
      if userId.None? {
        guestCart := Parsed(data);
      } else {
        posted := posted + [data];
      }
    }

    /** The 500 ms timer fires: the pending snapshot is saved, once. */
    method FireTimer()
      requires Valid()
      modifies this
      ensures Valid()
      ensures pending.None? && items == old(items) && userId == old(userId) && products == old(products)
      ensures old(pending).None? ==> guestCart == old(guestCart) && posted == old(posted)
      ensures old(pending).Some? && userId.None? ==>
        guestCart == Parsed(old(pending).value) && posted == old(posted)
      ensures old(pending).Some? && userId.Some? ==>
        guestCart == old(guestCart) && posted == old(posted) + [old(pending).value]
    {
      if pending.Some? {
        SaveCartToDB(pending.value);
      }
      pending := None;
    }

    /** `getCartCount()`. */
    method GetCartCount() returns (totalCount: int)
      requires Valid()
      ensures totalCount == CartCount(items)
      ensures totalCount >= 0
    {
      var cart := items;
      totalCount := 0;
      var i := 0;
      while i < |cart.keys|
        invariant 0 <= i <= |cart.keys|
        invariant totalCount == SumInt(cart.keys[..i], CountWeight(cart))
        invariant totalCount >= 0
      {
        var k := cart.keys[i];
        TakeNext(cart.keys, i);
        SumIntAppend(cart.keys[..i], k, CountWeight(cart));
        if cart.vals[k] > 0 {
          totalCount := totalCount + cart.vals[k];
        }
        i := i + 1;
      }
      assert cart.keys[..i] == cart.keys;
    }

    /** `getCartAmount()`: unit price times quantity over positive entries
        found in the catalog, floored to cents. */
    method GetCartAmount() returns (amount: real)
      requires Valid()
      ensures amount == FloorCents(RawAmount(items, products))
    {
      var cart, catalog := items, products;
      var weight := AmountWeight(cart, catalog);
      var totalAmount := 0.0;
      var i := 0;
      while i < |cart.keys|
        invariant 0 <= i <= |cart.keys|
        invariant totalAmount == SumReal(cart.keys[..i], weight)
      {
        var k := cart.keys[i];
        TakeNext(cart.keys, i);
        SumRealAppend(cart.keys[..i], k, weight);
        var itemInfo := FindProduct(catalog, k);
        if cart.vals[k] > 0 && itemInfo.Some? {
          totalAmount := totalAmount + LineTotal(itemInfo.value, cart.vals[k]);
        } else {
          assert weight(k) == 0.0;
        }
        i := i + 1;
      }
      assert cart.keys[..i] == cart.keys;
      amount := FloorCents(totalAmount);
    }

    /** The guest branch of `loadCart`: the stored cart is shown, then
        reduced to catalog products with quantity > 0; local storage is
        rewritten only when that dropped something. */
    method LoadGuestCart() returns (removed: nat)
      requires Valid() && userId.None?
      modifies this
      ensures Valid()
      ensures pending == old(pending) && posted == old(posted) && products == old(products)
      ensures userId == old(userId)
      ensures !old(guestCart).Parsed? ==> items == old(items) && guestCart == old(guestCart) && removed == 0
      ensures old(guestCart).Parsed? ==>
        var parsed := old(guestCart).cart;
        var kept := FilterKeys(parsed, ValidEntry(parsed, products));
        removed == |parsed.keys| - |kept.keys| &&
        (removed == 0 ==> items == parsed && guestCart == old(guestCart)) &&
        (removed > 0 ==> items == kept && guestCart == Parsed(kept))
    {
      removed := 0;
      if !guestCart.Parsed? {
        return;
      }
      var parsed := guestCart.cart;
      items := parsed;
      var validated := ValidateGuestCart(parsed, products);
      if |validated.keys| != |parsed.keys| {
        items := validated;
        guestCart := Parsed(validated);
        removed := |parsed.keys| - |validated.keys|;
      }
    }

    /** The signed-in branch of `loadCart`, given the GET /api/cart reply
        (None when it failed). A parsable guest cart is merged in, saved
        straight away and removed from local storage; an unparsable one is
        left in place. */
    method LoadAccountCart(response: Option<Cart>)
      requires Valid() && userId.Some?
      requires response.Some? ==> DictValid(response.value)
      modifies this
      ensures Valid()
      ensures pending == old(pending) && products == old(products) && userId == old(userId)
      ensures response.None? ==> items == old(items) && guestCart == old(guestCart) && posted == old(posted)
      ensures response.Some? && !old(guestCart).Parsed? ==>
        items == response.value && guestCart == old(guestCart) && posted == old(posted)
      ensures response.Some? && old(guestCart).Parsed? ==>
        MergedFrom(items, response.value, old(guestCart).cart) &&
        posted == old(posted) + [items] && guestCart == NoItem
    {
      if response.None? {
        return;
      }
      var data := response.value;
      if guestCart.Parsed? {
        var merged := MergeGuestCart(data, guestCart.cart);
        MergePrefixIsMerge(data, guestCart.cart, merged);
        items := merged;
        SaveCartToDB(merged);
        guestCart := NoItem;
      } else {
        items := data;
      }
    }
  }
}
