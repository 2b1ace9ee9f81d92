/** Lists of requests ordered by a key, as the schedulers keep them: a tree in sector order and a fifo. */
module RequestLists {
  import opened Options

  /** An entry of a list: in the sorted list the key is the first sector, in the fifo the expiry time. */
  datatype Item = Item(id: nat, key: nat)

  function Ids(items: seq<Item>): set<nat> { if items == [] then {} else {items[0].id} + Ids(items[1..]) }

  predicate Distinct(items: seq<Item>) {
    items == [] || (items[0].id !in Ids(items[1..]) && Distinct(items[1..]))
  }

  predicate Ascending(items: seq<Item>) {
    items == [] || ((forall x :: x in items[1..] ==> items[0].key < x.key) && Ascending(items[1..]))
  }

  predicate InOrder(items: seq<Item>) {
    items == [] || ((forall x :: x in items[1..] ==> items[0].key <= x.key) && InOrder(items[1..]))
  }

  function Drop(items: seq<Item>, id: nat): seq<Item> {
    if items == [] then [] else if items[0].id == id then items[1..] else [items[0]] + Drop(items[1..], id)
  }

  /** deadline_latter_request: what follows in the sorted list. */
  function Latter(items: seq<Item>, id: nat): Option<nat> {
    if items == [] then None
    else if items[0].id == id then (if |items| > 1 then Some(items[1].id) else None)
    else Latter(items[1..], id)
  }

  function KeyOf(items: seq<Item>, id: nat): nat
    requires id in Ids(items)
  {
    if items[0].id == id then items[0].key else KeyOf(items[1..], id)
  }

  function Insert(items: seq<Item>, x: Item): seq<Item> {
    if items == [] || x.key < items[0].key then [x] + items else [items[0]] + Insert(items[1..], x)
  }

  function InsertAfter(items: seq<Item>, id: nat, x: Item): seq<Item> {
    if items == [] then []
    else if items[0].id == id then [items[0], x] + items[1..]
    else [items[0]] + InsertAfter(items[1..], id, x)
  }

  function Alias(items: seq<Item>, key: nat): Option<nat> {
    if items == [] then None else if items[0].key == key then Some(items[0].id) else Alias(items[1..], key)
  }

  lemma {:induction false} DropFacts(items: seq<Item>, id: nat)
    requires Distinct(items)
    ensures Distinct(Drop(items, id)) && Ids(Drop(items, id)) == Ids(items) - {id}
    ensures forall x :: x in Drop(items, id) ==> x in items
  {
    if items != [] && items[0].id != id {
      DropFacts(items[1..], id);
      var rest := Drop(items[1..], id);
      assert ([items[0]] + rest)[1..] == rest;
    }
  }

  lemma {:induction false} DropAscending(items: seq<Item>, id: nat)
    requires Distinct(items)
    ensures Ascending(items) ==> Ascending(Drop(items, id))
    ensures InOrder(items) ==> InOrder(Drop(items, id))
  {
    if items != [] && items[0].id != id {
      DropAscending(items[1..], id);
      DropFacts(items[1..], id);
      var rest := Drop(items[1..], id);
      assert ([items[0]] + rest)[1..] == rest;
    }
  }

  lemma {:induction false} LatterMember(items: seq<Item>, id: nat)
    requires Distinct(items)
    ensures Latter(items, id).Some? ==> Latter(items, id).value in Ids(items) - {id}
  {
    if items != [] {
      if items[0].id == id {
        assert |items| > 1 ==> items[1] == items[1..][0];
      } else {
        LatterMember(items[1..], id);
      }
    }
  }

  lemma {:induction false} InsertFacts(items: seq<Item>, x: Item)
    requires Distinct(items) && x.id !in Ids(items)
    ensures Distinct(Insert(items, x)) && Ids(Insert(items, x)) == Ids(items) + {x.id}
    ensures forall y :: y in Insert(items, x) <==> y in items || y == x
  {
    if items == [] || x.key < items[0].key {
      assert ([x] + items)[1..] == items;
    } else {
      InsertFacts(items[1..], x);
      var rest := Insert(items[1..], x);
      assert ([items[0]] + rest)[1..] == rest;
      assert forall y :: y in items <==> y == items[0] || y in items[1..];
    }
  }

  lemma {:induction false} InsertAscending(items: seq<Item>, x: Item)
    requires Distinct(items) && x.id !in Ids(items) && Ascending(items) && Alias(items, x.key).None?
    ensures Ascending(Insert(items, x))
  {
    if items == [] || x.key < items[0].key {
      assert ([x] + items)[1..] == items;
      if items != [] {
        assert forall y :: y in items <==> y in items[1..] || y == items[0];
      }
    } else {
      InsertAscending(items[1..], x);
      InsertFacts(items[1..], x);
      var rest := Insert(items[1..], x);
      assert ([items[0]] + rest)[1..] == rest;
    }
  }

  lemma {:induction false} AliasFacts(items: seq<Item>, key: nat)
    requires Distinct(items) && Ascending(items)
    ensures Alias(items, key).Some? ==>
              Alias(items, key).value in Ids(items) && Alias(Drop(items, Alias(items, key).value), key).None?
  {
    if items != [] {
      if items[0].key == key {
        NoAliasAbove(items[1..], key);
      } else {
        AliasFacts(items[1..], key);
        var a := Alias(items[1..], key);
        if a.Some? {
          var rest := Drop(items[1..], a.value);
          assert ([items[0]] + rest)[1..] == rest;
        }
      }
    }
  }

  lemma {:induction false} NoAliasAbove(items: seq<Item>, key: nat)
    requires forall x :: x in items ==> key < x.key
    ensures Alias(items, key).None?
  {
    if items != [] {
      assert items[0] in items;
      NoAliasAbove(items[1..], key);
    }
  }

  lemma {:induction false} AppendFacts(items: seq<Item>, x: Item)
    ensures Ids(items + [x]) == Ids(items) + {x.id}
    ensures Distinct(items) && x.id !in Ids(items) ==> Distinct(items + [x])
    ensures InOrder(items) && (forall y :: y in items ==> y.key <= x.key) ==> InOrder(items + [x])
  {
    if items == [] {
      assert items + [x] == [x];
    } else {
      AppendFacts(items[1..], x);
      assert (items + [x])[1..] == items[1..] + [x];
      assert forall y :: y in items[1..] ==> y in items;
    }
  }

  lemma {:induction false} InsertAfterFacts(items: seq<Item>, id: nat, x: Item)
    requires Distinct(items) && id in Ids(items) && x.id !in Ids(items)
    ensures var r := InsertAfter(items, id, x);
            && Distinct(r) && Ids(r) == Ids(items) + {x.id}
            && forall y :: y in r ==> y in items || y == x
  {
    if items[0].id == id {
      var rest := [x] + items[1..];
      assert [items[0], x] + items[1..] == [items[0]] + rest;
      assert ([items[0]] + rest)[1..] == rest && rest[1..] == items[1..];
    } else {
      InsertAfterFacts(items[1..], id, x);
      var rest := InsertAfter(items[1..], id, x);
      assert ([items[0]] + rest)[1..] == rest;
    }
  }

  lemma {:induction false} InsertAfterInOrder(items: seq<Item>, id: nat, x: Item)
    requires Distinct(items) && id in Ids(items) && x.id !in Ids(items) && InOrder(items) && x.key == KeyOf(items, id)
    ensures InOrder(InsertAfter(items, id, x))
  {
    if items[0].id == id {
      var rest := [x] + items[1..];
      assert [items[0], x] + items[1..] == [items[0]] + rest;
      assert ([items[0]] + rest)[1..] == rest && rest[1..] == items[1..];
    } else {
      InsertAfterInOrder(items[1..], id, x);
      InsertAfterFacts(items[1..], id, x);
      KeyMember(items[1..], id);
      var rest := InsertAfter(items[1..], id, x);
      assert ([items[0]] + rest)[1..] == rest;
    }
  }

  lemma {:induction false} KeyMember(items: seq<Item>, id: nat)
    requires id in Ids(items)
    ensures Item(id, KeyOf(items, id)) in items
  {
    if items[0].id != id {
      KeyMember(items[1..], id);
    }
  }

  lemma {:induction false} KeyAfterDrop(items: seq<Item>, id: nat, other: nat)
    requires Distinct(items) && other in Ids(items) && other != id
    ensures other in Ids(Drop(items, id)) && KeyOf(Drop(items, id), other) == KeyOf(items, other)
  {
    DropFacts(items, id);
    if items[0].id != id {
      var rest := Drop(items[1..], id);
      assert ([items[0]] + rest)[1..] == rest;
      if items[0].id != other {
        KeyAfterDrop(items[1..], id, other);
      }
    }
  }

  lemma {:induction false} SizeAfterDrop(items: seq<Item>, id: nat)
    requires Distinct(items) && id in Ids(items)
    ensures |Drop(items, id)| == |items| - 1
  {
    if items[0].id != id {
      SizeAfterDrop(items[1..], id);
    }
  }

  lemma NoIds(items: seq<Item>)
    ensures Ids(items) == {} <==> items == []
  {
  }

  lemma OneMoved(out: seq<nat>, ids: set<nat>, id: nat)
    requires id in ids
    ensures multiset(out + [id]) + multiset(ids - {id}) == multiset(out) + multiset(ids)
  {
  }

  /** The request before this one. */
  function Former(items: seq<Item>, id: nat): Option<nat> {
    if |items| < 2 then None
    else if items[1].id == id then Some(items[0].id)
    else Former(items[1..], id)
  }

  lemma {:induction false} FormerMember(items: seq<Item>, id: nat)
    requires Distinct(items)
    ensures Former(items, id).Some? ==> Former(items, id).value in Ids(items) - {id}
  {
    if |items| >= 2 {
      assert items[1] == items[1..][0];
      if items[1].id != id {
        FormerMember(items[1..], id);
      }
    }
  }

  /** next is the request of least key above k, or there is none above k. */
  ghost predicate NextAbove(sort: seq<Item>, k: nat, next: Option<nat>) {
    if next.None? then forall y :: y in sort ==> y.key <= k
    else
      exists x :: x in sort && x.id == next.value && x.key > k && forall y :: y in sort && y.key > k ==> x.key <= y.key
  }

  lemma {:induction false} LatterAbove(items: seq<Item>, id: nat)
    requires Distinct(items) && Ascending(items) && id in Ids(items)
    ensures NextAbove(items, KeyOf(items, id), Latter(items, id))
  {
    assert forall y :: y in items <==> y == items[0] || y in items[1..];
    if items[0].id == id {
      if |items| > 1 {
        assert items[1] == items[1..][0] && items[1] in items[1..];
        assert forall y :: y in items[1..] <==> y == items[1] || y in items[1..][1..];
      }
    } else {
      LatterAbove(items[1..], id);
      KeyMember(items[1..], id);
    }
  }

  lemma {:induction false} IdOf(items: seq<Item>, x: Item)
    requires x in items
    ensures x.id in Ids(items)
  {
    if x != items[0] {
      IdOf(items[1..], x);
    }
  }

  lemma {:induction false} KeyIs(items: seq<Item>, x: Item)
    requires Distinct(items) && x in items
    ensures x.id in Ids(items) && KeyOf(items, x.id) == x.key
  {
    if x != items[0] {
      IdOf(items[1..], x);
      KeyIs(items[1..], x);
    }
  }

  lemma {:induction false} DropMembers(items: seq<Item>, id: nat)
    requires Distinct(items)
    ensures forall y :: y in Drop(items, id) <==> y in items && y.id != id
  {
    if items != [] {
      assert forall y :: y in items <==> y == items[0] || y in items[1..];
      if items[0].id == id {
        forall y | y in items[1..] ensures y.id != id {
          IdOf(items[1..], y);
        }
      } else {
        DropMembers(items[1..], id);
      }
    }
  }

  lemma {:induction false} SameKey(items: seq<Item>, x: Item, y: Item)
    requires Ascending(items) && x in items && y in items && x.key == y.key
    ensures x == y
  {
    if x != items[0] && y != items[0] {
      SameKey(items[1..], x, y);
    }
  }

  /** prev is the request of greatest key below k, or there is none below k. */
  ghost predicate PrevBelow(sort: seq<Item>, k: nat, prev: Option<nat>) {
    if prev.None? then forall y :: y in sort ==> y.key >= k
    else
      exists x :: x in sort && x.id == prev.value && x.key < k && forall y :: y in sort && y.key < k ==> y.key <= x.key
  }

  lemma {:induction false} FormerBelow(items: seq<Item>, id: nat)
    requires Distinct(items) && Ascending(items) && id in Ids(items)
    ensures PrevBelow(items, KeyOf(items, id), Former(items, id))
  {
    assert forall y :: y in items <==> y == items[0] || y in items[1..];
    if items[0].id != id {
      assert items[1] == items[1..][0];
      KeyMember(items[1..], id);
      if items[1].id == id {
        assert forall y :: y in items[1..] <==> y == items[1] || y in items[1..][1..];
      } else {
        FormerBelow(items[1..], id);
        FirstBelow(items[1..], id);
      }
    } else {
      FormerAbsent(items[1..], id);
      if |items| > 1 {
        assert items[1] == items[1..][0] && items[1] in items[1..];
        IdOf(items[1..], items[1]);
      }
    }
  }

  lemma {:induction false} FormerAbsent(items: seq<Item>, id: nat)
    requires id !in Ids(items)
    ensures Former(items, id).None?
  {
    if |items| >= 2 {
      assert items[1] == items[1..][0];
      FormerAbsent(items[1..], id);
    }
  }

  lemma {:induction false} FirstBelow(items: seq<Item>, id: nat)
    requires Ascending(items) && id in Ids(items) && items[0].id != id
    ensures items[0].key < KeyOf(items, id)
  {
    KeyMember(items[1..], id);
  }
}
