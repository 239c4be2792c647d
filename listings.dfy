/**
 * The read-only queries of the dashboard and the public preview: the active
 * member resources in their default ordering, the first four of them, and the
 * number of distinct products a user has bought.
 */
module Listings {
  import opened Models

  /** `filter(is_active=True)`, keeping table order. */
  function ActiveOnly(rs: seq<MemberResource>): (r: seq<MemberResource>)
    ensures forall i :: 0 <= i < |r| ==> r[i].isActive
    ensures forall x: MemberResource :: x.isActive ==> multiset(r)[x] == multiset(rs)[x]
    ensures forall x: MemberResource :: !x.isActive ==> multiset(r)[x] == 0
  {
    if rs == [] then []
    else
      assert rs == [rs[0]] + rs[1..];
      (if rs[0].isActive then [rs[0]] else []) + ActiveOnly(rs[1..])
  }

  /** Listed in the default ordering: no resource appears after one it must precede. */
  predicate InListingOrder(s: seq<MemberResource>)
  {
    forall i, j :: 0 <= i < j < |s| ==> ListedNoLaterThan(s[i], s[j])
  }

  /** Put `x` into an ordered listing, ahead of the first resource it may precede. */
  function InsertInOrder(x: MemberResource, s: seq<MemberResource>): (r: seq<MemberResource>)
    requires InListingOrder(s)
    ensures InListingOrder(r)
    ensures multiset(r) == multiset(s) + multiset{x}
  {
    if s == [] then [x]
    else if ListedNoLaterThan(x, s[0]) then
      assert forall j :: 0 <= j < |s| ==> ListedNoLaterThan(s[0], s[j]);
      [x] + s
    else
      assert s == [s[0]] + s[1..];
      var rest := InsertInOrder(x, s[1..]);
      assert forall y :: y in rest ==> y in s[1..] || y == x by {
        forall y | y in rest ensures y in s[1..] || y == x {
          assert y in multiset(rest);
        }
      }
      assert forall j :: 0 <= j < |rest| ==> ListedNoLaterThan(s[0], rest[j]) by {
        forall j | 0 <= j < |rest| ensures ListedNoLaterThan(s[0], rest[j]) {
          assert rest[j] in rest;
          if rest[j] != x {
            var k :| 0 <= k < |s[1..]| && s[1..][k] == rest[j];
            assert s[k + 1] == rest[j];
          }
        }
      }
      [s[0]] + rest
  }

  /** `order_by("order", "-created_at")`; resources tied on both keys keep their table order. */
  function SortForListing(s: seq<MemberResource>): (r: seq<MemberResource>)
    ensures InListingOrder(r)
    ensures multiset(r) == multiset(s)
  {
    if s == [] then []
    else
      assert s == [s[0]] + s[1..];
      InsertInOrder(s[0], SortForListing(s[1..]))
  }

  /** The `member_resources` of the dashboard: every active resource, in the default ordering. */
  function MemberListing(rs: seq<MemberResource>): (r: seq<MemberResource>)
    ensures InListingOrder(r)
    ensures forall i :: 0 <= i < |r| ==> r[i].isActive
    ensures forall x: MemberResource :: multiset(r)[x] == (if x.isActive then multiset(rs)[x] else 0)
  {
    var r := SortForListing(ActiveOnly(rs));
    assert forall i :: 0 <= i < |r| ==> r[i].isActive by {
      forall i | 0 <= i < |r| ensures r[i].isActive {
        assert r[i] in multiset(r);
      }
    }
    r
  }

  function Min(a: int, b: int): int
  {
    if a <= b then a else b
  }

  /** `public_resources_preview`: the listing cut to its first four entries. */
  function PublicPreview(rs: seq<MemberResource>): (r: seq<MemberResource>)
    ensures |r| == Min(4, |MemberListing(rs)|)
    ensures r <= MemberListing(rs)
  {
    MemberListing(rs)[..Min(4, |MemberListing(rs)|)]
  }

  /** The preview shows the resources that come first: none left out may be listed before one shown. */
  lemma PreviewShowsTheFirstInOrder(rs: seq<MemberResource>)
    ensures forall i, j :: 0 <= i < |PublicPreview(rs)| <= j < |MemberListing(rs)| ==>
              ListedNoLaterThan(PublicPreview(rs)[i], MemberListing(rs)[j])
  {
  }

  /** A newly added resource is active by default, so it shows in the listing. */
  lemma NewResourceIsListed(rs: seq<MemberResource>, title: string, description: string, file: string, thumbnail: string, now: Time)
    ensures NewMemberResource(title, description, file, thumbnail, now) in MemberListing(rs + [NewMemberResource(title, description, file, thumbnail, now)])
  {
  }

  // ---------------------------------------------------------------------
  // Purchased products
  // ---------------------------------------------------------------------

  /** An `OrderItem`: the user its order belongs to and the product bought. */
  datatype OrderItem = OrderItem(orderUser: UserId, product: ItemId)

  /** The products on `uid`'s order items, duplicates merged: `values("product").distinct()`. */
  function PurchasedProducts(items: seq<OrderItem>, uid: UserId): set<ItemId>
  {
    set it | it in items && it.orderUser == uid :: it.product
  }

  /** `purchased_count`. */
  function PurchasedCount(items: seq<OrderItem>, uid: UserId): nat
  {
    |PurchasedProducts(items, uid)|
  }

  /** `uid`'s order items, in order. */
  function ItemsOf(items: seq<OrderItem>, uid: UserId): (r: seq<OrderItem>)
    ensures forall it :: it in r <==> it in items && it.orderUser == uid
  {
    if items == [] then []
    else (if items[0].orderUser == uid then [items[0]] else []) + ItemsOf(items[1..], uid)
  }

  lemma PurchasedProductsSnoc(items: seq<OrderItem>, it: OrderItem, uid: UserId)
    ensures PurchasedProducts(items + [it], uid)
         == PurchasedProducts(items, uid) + (if it.orderUser == uid then {it.product} else {})
  {
  }

  /** Buying a product again does not change the count; a new product adds one. */
  lemma PurchaseCounting(items: seq<OrderItem>, uid: UserId, p: ItemId)
    ensures p in PurchasedProducts(items, uid) ==> PurchasedCount(items + [OrderItem(uid, p)], uid) == PurchasedCount(items, uid)
    ensures p !in PurchasedProducts(items, uid) ==> PurchasedCount(items + [OrderItem(uid, p)], uid) == PurchasedCount(items, uid) + 1
  {
    PurchasedProductsSnoc(items, OrderItem(uid, p), uid);
  }

  /** The count never exceeds the number of the user's order items. */
  lemma {:induction false} PurchasedCountAtMostItems(items: seq<OrderItem>, uid: UserId)
    ensures PurchasedCount(items, uid) <= |ItemsOf(items, uid)|
    decreases |items|
  {
    if items != [] {
      var init := items[..|items| - 1];
      var last := items[|items| - 1];
      assert items == init + [last];
      PurchasedCountAtMostItems(init, uid);
      PurchasedProductsSnoc(init, last, uid);
      ItemsOfSnoc(init, last, uid);
    }
  }

  lemma {:induction false} ItemsOfSnoc(items: seq<OrderItem>, it: OrderItem, uid: UserId)
    ensures |ItemsOf(items + [it], uid)| == |ItemsOf(items, uid)| + (if it.orderUser == uid then 1 else 0)
    decreases |items|
  {
    if items == [] {
      assert [it][1..] == [];
    } else {
      assert (items + [it])[1..] == items[1..] + [it];
      ItemsOfSnoc(items[1..], it, uid);
    }
  }
}
