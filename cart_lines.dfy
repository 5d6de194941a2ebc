/**
 * The cart's lines and the pure list computations behind its three commands:
 * the `find` that locates a line, the `filter` that drops every line with an id,
 * and the lists that `addToCart`, `increment` and `decrement` build from them.
 *
 * Beside the list view, `Quantities` gives the cart as the store's callers see
 * it: a map from id to the quantity of the line that `find` returns. The
 * lemmas at the end say what each command does to that map and that each
 * command keeps the cart's two invariants (unique ids, quantity at least 1).
 */
module CartLines {
  import opened Wrappers

  /** One cart line. Title, image and price are carried along and never read. */
  datatype Product = Product(id: string, title: string, imageUrl: string, price: real, quantity: int)

  /** What `addToCart` is given: a product without a quantity. */
  datatype Item = Item(id: string, title: string, imageUrl: string, price: real)

  /** The line `addToCart` appends for an item not yet in the cart. */
  function NewLine(item: Item): (r: Product)
    ensures r.id == item.id && r.title == item.title && r.imageUrl == item.imageUrl && r.price == item.price
    ensures r.quantity == 1
  {
    Product(item.id, item.title, item.imageUrl, item.price, 1)
  }

  /** Invariant I2: no two lines share an id. */
  predicate UniqueIds(s: seq<Product>) {
    forall i, j :: 0 <= i < j < |s| ==> s[i].id != s[j].id
  }

  /** Invariant I1: every line has a quantity of at least 1. */
  predicate PositiveQuantities(s: seq<Product>) {
    forall i :: 0 <= i < |s| ==> s[i].quantity >= 1
  }

  predicate Valid(s: seq<Product>) {
    UniqueIds(s) && PositiveQuantities(s)
  }

  /** `s.find(p => p.id === id)`, as the index of the first matching line. */
  function Find(s: seq<Product>, id: string): (r: Option<nat>)
    ensures r.None? ==> forall j :: 0 <= j < |s| ==> s[j].id != id
    ensures r.Some? ==> r.value < |s| && s[r.value].id == id
    ensures r.Some? ==> forall j :: 0 <= j < r.value ==> s[j].id != id
  {
    if |s| == 0 then None
    else if s[0].id == id then Some(0)
    else match Find(s[1..], id)
      case None => None
      case Some(k) => Some(k + 1)
  }

  /** Some line of `s` carries `id`. */
  predicate Contains(s: seq<Product>, id: string) {
    Find(s, id).Some?
  }

  /** `s.filter(p => p.id !== id)`: every line with that id is dropped, the rest keep their order. */
  function Without(s: seq<Product>, id: string): (r: seq<Product>)
    ensures !Contains(r, id)
    ensures !Contains(s, id) ==> r == s
  {
    if |s| == 0 then []
    else if s[0].id == id then Without(s[1..], id)
    else [s[0]] + Without(s[1..], id)
  }

  /**
   * The list `addToCart(item)` leaves behind. For an id already present the
   * first matching line's quantity goes up by one where it stands; otherwise
   * a new line with quantity 1 is appended.
   */
  function Added(s: seq<Product>, item: Item): (r: seq<Product>)
    ensures Contains(r, item.id)
    ensures Contains(s, item.id) ==> |r| == |s|
    ensures !Contains(s, item.id) ==> |r| == |s| + 1 && r[..|s|] == s && r[|s|] == NewLine(item)
  {
    match Find(s, item.id)
    case Some(i) =>
      var r := s[i := s[i].(quantity := s[i].quantity + 1)];
      assert r[i].id == item.id;
      r
    case None =>
      var r := s + [NewLine(item)];
      assert r[|s|].id == item.id;
      r
  }

  /**
   * The list `increment(id)` leaves behind: the lines with other ids, then the
   * first matching line with its quantity one higher. Absent id: unchanged.
   */
  function Incremented(s: seq<Product>, id: string): (r: seq<Product>)
    ensures !Contains(s, id) ==> r == s
    ensures Contains(s, id) ==> Without(s, id) <= r
  {
    match Find(s, id)
    case None => s
    case Some(i) =>
      Without(s, id) + [s[i].(quantity := s[i].quantity + 1)]
  }

  /**
   * The list `decrement(id)` leaves behind. A first matching line with
   * quantity 1 goes, with every other line of that id; otherwise it moves to
   * the end with its quantity one lower. Absent id: unchanged.
   */
  function Decremented(s: seq<Product>, id: string): (r: seq<Product>)
    ensures !Contains(s, id) ==> r == s
    ensures Contains(s, id) ==> Without(s, id) <= r
  {
    match Find(s, id)
    case None => s
    case Some(i) =>
      if s[i].quantity == 1 then Without(s, id)
      else Without(s, id) + [s[i].(quantity := s[i].quantity - 1)]
  }

  /**
   * The cart as a map from id to quantity, where an id's quantity is that of
   * the line `find` returns for it.
   */
  function Quantities(s: seq<Product>): map<string, int> {
    if |s| == 0 then map[]
    else Quantities(s[1..])[s[0].id := s[0].quantity]
  }

  /** The ids of the map are the ids of the lines, and each maps to the quantity of its first line. */
  lemma {:induction false} QuantitiesOfFirstMatch(s: seq<Product>, id: string)
    ensures id in Quantities(s) <==> Contains(s, id)
    ensures Contains(s, id) ==> Quantities(s)[id] == s[Find(s, id).value].quantity
  {
    if |s| > 0 {
      QuantitiesOfFirstMatch(s[1..], id);
    }
  }

  // ---------------------------------------------------------------------
  // Facts about Quantities under the list operations
  // ---------------------------------------------------------------------

  /** Appending a line sets its id's quantity only when the id was not there yet. */
  lemma {:induction false} QuantitiesAppend(s: seq<Product>, x: Product)
    ensures Quantities(s + [x]) ==
      if Contains(s, x.id) then Quantities(s) else Quantities(s)[x.id := x.quantity]
  {
    if |s| == 0 {
      assert s + [x] == [x];
    } else {
      assert (s + [x])[1..] == s[1..] + [x];
      QuantitiesAppend(s[1..], x);
    }
  }

  /** Dropping every line with an id removes exactly that key. */
  lemma {:induction false} QuantitiesWithout(s: seq<Product>, id: string)
    ensures Quantities(Without(s, id)) == Quantities(s) - {id}
  {
    if |s| > 0 {
      var tail := s[1..];
      QuantitiesWithout(tail, id);
      QuantitiesWithoutHead(s, id);
      if s[0].id != id {
        assert (Quantities(tail) - {id})[s[0].id := s[0].quantity]
            == Quantities(tail)[s[0].id := s[0].quantity] - {id};
      }
    }
  }

  /** One step of the filter, seen through the quantity map. */
  lemma QuantitiesWithoutHead(s: seq<Product>, id: string)
    requires |s| > 0
    ensures Quantities(Without(s, id)) ==
      if s[0].id == id then Quantities(Without(s[1..], id))
      else Quantities(Without(s[1..], id))[s[0].id := s[0].quantity]
  {
    if s[0].id != id {
      QuantitiesCons(s[0], Without(s[1..], id));
    }
  }

  /** Putting a line in front sets its id's quantity to the line's. */
  lemma QuantitiesCons(x: Product, s: seq<Product>)
    ensures Quantities([x] + s) == Quantities(s)[x.id := x.quantity]
  {
    assert ([x] + s)[1..] == s;
  }

  /** Changing the quantity of the first line of an id changes that key's value only. */
  lemma {:induction false} QuantitiesSetFirst(s: seq<Product>, i: nat, q: int)
    requires i < |s| && Find(s, s[i].id) == Some(i)
    ensures Quantities(s[i := s[i].(quantity := q)]) == Quantities(s)[s[i].id := q]
  {
    var t := s[i := s[i].(quantity := q)];
    if i == 0 {
      assert t[1..] == s[1..];
    } else {
      assert t[1..] == s[1..][i - 1 := s[i].(quantity := q)];
      assert s[1..][i - 1] == s[i];
      QuantitiesSetFirst(s[1..], i - 1, q);
    }
  }

  /** Filtering out an id and appending one line with it sets that id's quantity to the line's. */
  lemma QuantitiesMoveToEnd(s: seq<Product>, line: Product)
    ensures Quantities(Without(s, line.id) + [line]) == Quantities(s)[line.id := line.quantity]
  {
    QuantitiesWithout(s, line.id);
    QuantitiesAppend(Without(s, line.id), line);
  }

  // ---------------------------------------------------------------------
  // What each command does to the cart, read as a map from id to quantity
  // ---------------------------------------------------------------------

  /** The quantity an id has in the cart, 0 when it has no line. */
  function QuantityOf(s: seq<Product>, id: string): int {
    var m := Quantities(s);
    if id in m then m[id] else 0
  }

  /** addToCart raises the item's quantity by one (from 0 for a new id) and touches no other id. */
  lemma AddedQuantities(s: seq<Product>, item: Item)
    ensures Quantities(Added(s, item)) == Quantities(s)[item.id := QuantityOf(s, item.id) + 1]
  {
    QuantitiesOfFirstMatch(s, item.id);
    match Find(s, item.id)
    case Some(i) => QuantitiesSetFirst(s, i, s[i].quantity + 1);
    case None => QuantitiesAppend(s, NewLine(item));
  }

  /** increment raises a present id's quantity by one and touches no other id. */
  lemma IncrementedQuantities(s: seq<Product>, id: string)
    ensures Quantities(Incremented(s, id)) ==
      if Contains(s, id) then Quantities(s)[id := QuantityOf(s, id) + 1] else Quantities(s)
  {
    match Find(s, id)
    case None =>
    case Some(i) =>
      var line := s[i].(quantity := s[i].quantity + 1);
      calc {
        Quantities(Incremented(s, id));
        { IncrementedAt(s, id, i); }
        Quantities(Without(s, id) + [line]);
        { QuantitiesMoveToEnd(s, line); }
        Quantities(s)[id := line.quantity];
        { QuantitiesOfFirstMatch(s, id); }
        Quantities(s)[id := QuantityOf(s, id) + 1];
      }
  }

  /**
   * decrement removes a present id whose quantity is 1, otherwise lowers it
   * by one, and touches no other id.
   */
  lemma DecrementedQuantities(s: seq<Product>, id: string)
    ensures Quantities(Decremented(s, id)) ==
      if !Contains(s, id) then Quantities(s)
      else if QuantityOf(s, id) == 1 then Quantities(s) - {id}
      else Quantities(s)[id := QuantityOf(s, id) - 1]
  {
    match Find(s, id)
    case None =>
    case Some(i) =>
      QuantitiesOfFirstMatch(s, id);
      if s[i].quantity == 1 {
        calc {
          Quantities(Decremented(s, id));
          Quantities(Without(s, id));
          { QuantitiesWithout(s, id); }
          Quantities(s) - {id};
        }
      } else {
        var line := s[i].(quantity := s[i].quantity - 1);
        calc {
          Quantities(Decremented(s, id));
          Quantities(Without(s, id) + [line]);
          { QuantitiesMoveToEnd(s, line); }
          Quantities(s)[id := line.quantity];
          Quantities(s)[id := QuantityOf(s, id) - 1];
        }
      }
  }

  /**
   * For an id already present, the in-place bump of addToCart's existing-id
   * branch gives the same cart as increment on the map view. With unique ids
   * the two lists also hold the same lines, in a different order; with a
   * repeated id they do not, since increment's filter drops the later copies.
   */
  lemma AddedExistingIsIncrement(s: seq<Product>, item: Item)
    requires Contains(s, item.id)
    ensures Quantities(Added(s, item)) == Quantities(Incremented(s, item.id))
    ensures UniqueIds(s) ==> multiset(Added(s, item)) == multiset(Incremented(s, item.id))
  {
    AddedQuantities(s, item);
    IncrementedQuantities(s, item.id);
    if UniqueIds(s) {
      AddedExistingSameLines(s, item, Find(s, item.id).value);
    }
  }

  /** With unique ids, the bumped line stays in place under addToCart and moves to the end under increment. */
  lemma AddedExistingSameLines(s: seq<Product>, item: Item, i: nat)
    requires UniqueIds(s) && Find(s, item.id) == Some(i)
    ensures multiset(Added(s, item)) == multiset(Incremented(s, item.id))
  {
    var line := s[i].(quantity := s[i].quantity + 1);
    var before, after := s[..i], s[i + 1..];
    calc {
      multiset(Added(s, item));
      { AddedAt(s, item, i); }
      multiset(s[i := line]);
      { UpdateSplit(s, i, line); }
      multiset(before + [line] + after);
      multiset(before + after + [line]);
      { IncrementedUnique(s, item.id, i); }
      multiset(Incremented(s, item.id));
    }
  }

  /** The list addToCart builds once `find` has found line `i`. */
  lemma AddedAt(s: seq<Product>, item: Item, i: nat)
    requires Find(s, item.id) == Some(i)
    ensures Added(s, item) == s[i := s[i].(quantity := s[i].quantity + 1)]
  {
  }

  /**
   * addToCart on an id already present changes the first matching line in
   * place: the length stays, every other line stays as it was, and that
   * line differs only in its quantity, which is one higher.
   */
  lemma AddedExistingInPlace(s: seq<Product>, item: Item)
    requires Contains(s, item.id)
    ensures |Added(s, item)| == |s|
    ensures forall j :: 0 <= j < |s| && j != Find(s, item.id).value ==> Added(s, item)[j] == s[j]
    ensures Added(s, item)[Find(s, item.id).value] ==
      s[Find(s, item.id).value].(quantity := s[Find(s, item.id).value].quantity + 1)
  {
    AddedAt(s, item, Find(s, item.id).value);
  }

  /** Replacing line `i` keeps the lines before and after it. */
  lemma UpdateSplit(s: seq<Product>, i: nat, x: Product)
    requires i < |s|
    ensures s[i := x] == s[..i] + [x] + s[i + 1..]
  {
  }

  /** A decrement that leaves the id in the cart leaves it with a quantity of at least 1. */
  lemma DecrementedRemovesAtOne(s: seq<Product>, id: string)
    requires Contains(s, id)
    ensures QuantityOf(s, id) == 1 ==> !Contains(Decremented(s, id), id)
    ensures PositiveQuantities(s) && QuantityOf(s, id) != 1 ==>
      Contains(Decremented(s, id), id) && QuantityOf(Decremented(s, id), id) == QuantityOf(s, id) - 1 >= 1
  {
    DecrementedQuantities(s, id);
    QuantitiesOfFirstMatch(s, id);
    QuantitiesOfFirstMatch(Decremented(s, id), id);
    if PositiveQuantities(s) {
      assert s[Find(s, id).value].quantity >= 1;
    }
  }

  // ---------------------------------------------------------------------
  // Line order and length when ids are unique
  // ---------------------------------------------------------------------

  /** The filter distributes over concatenation. */
  lemma {:induction false} WithoutConcat(a: seq<Product>, b: seq<Product>, id: string)
    ensures Without(a + b, id) == Without(a, id) + Without(b, id)
  {
    if |a| == 0 {
      assert a + b == b;
    } else {
      assert (a + b)[1..] == a[1..] + b;
      WithoutConcat(a[1..], b, id);
    }
  }

  /**
   * When the first line with an id is also the last, the filter cuts out
   * exactly that line and keeps the others in their order.
   */
  lemma WithoutSingle(s: seq<Product>, id: string, i: nat)
    requires Find(s, id) == Some(i)
    requires !Contains(s[i + 1..], id)
    ensures Without(s, id) == s[..i] + s[i + 1..]
  {
    var before, after := s[..i], s[i + 1..];
    FoundPrefixAbsent(s, id, i);
    assert Without([s[i]], id) == [];
    calc {
      Without(s, id);
      { SplitAt(s, i); }
      Without(before + [s[i]] + after, id);
      { WithoutConcat(before + [s[i]], after, id); }
      Without(before + [s[i]], id) + Without(after, id);
      { WithoutConcat(before, [s[i]], id); }
      before + after;
    }
  }

  /** A list is the lines before `i`, line `i` and the lines after it. */
  lemma SplitAt(s: seq<Product>, i: nat)
    requires i < |s|
    ensures s == s[..i] + [s[i]] + s[i + 1..]
  {
  }

  /** No line before the one `find` returns carries the id. */
  lemma FoundPrefixAbsent(s: seq<Product>, id: string, i: nat)
    requires Find(s, id) == Some(i)
    ensures !Contains(s[..i], id)
  {
    var before := s[..i];
    forall k | 0 <= k < |before| ensures before[k].id != id {
      assert before[k] == s[k];
    }
  }

  /** With unique ids, the filter removes exactly the one matching line, in place. */
  lemma WithoutUnique(s: seq<Product>, id: string, i: nat)
    requires UniqueIds(s) && Find(s, id) == Some(i)
    ensures Without(s, id) == s[..i] + s[i + 1..]
    ensures |Without(s, id)| == |s| - 1
  {
    var after := s[i + 1..];
    forall k | 0 <= k < |after| ensures after[k].id != id {
      assert after[k] == s[i + 1 + k];
    }
    WithoutSingle(s, id, i);
  }

  /**
   * The list increment builds once `find` has found line `i`. Stated on its own
   * so that the lemmas below unfold `Incremented` in a small proof context.
   */
  lemma IncrementedAt(s: seq<Product>, id: string, i: nat)
    requires Find(s, id) == Some(i)
    ensures Incremented(s, id) == Without(s, id) + [s[i].(quantity := s[i].quantity + 1)]
  {
  }

  /**
   * increment on a present id of a cart with unique ids: the other lines in
   * their original order, then the matching line with quantity + 1; same length.
   */
  lemma IncrementedUnique(s: seq<Product>, id: string, i: nat)
    requires UniqueIds(s) && Find(s, id) == Some(i)
    ensures Incremented(s, id) == s[..i] + s[i + 1..] + [s[i].(quantity := s[i].quantity + 1)]
    ensures |Incremented(s, id)| == |s|
  {
    IncrementedAt(s, id, i);
    WithoutUnique(s, id, i);
  }

  /**
   * decrement on a present id of a cart with unique ids: at quantity 1 the
   * line is cut out and the length drops by one; otherwise the other lines in
   * their original order, then the line with quantity - 1; same length.
   */
  lemma DecrementedUnique(s: seq<Product>, id: string, i: nat)
    requires UniqueIds(s) && Find(s, id) == Some(i)
    ensures s[i].quantity == 1 ==>
      Decremented(s, id) == s[..i] + s[i + 1..] && |Decremented(s, id)| == |s| - 1
    ensures s[i].quantity != 1 ==>
      Decremented(s, id) == s[..i] + s[i + 1..] + [s[i].(quantity := s[i].quantity - 1)] &&
      |Decremented(s, id)| == |s|
  {
    WithoutUnique(s, id, i);
  }

  // ---------------------------------------------------------------------
  // The invariants I1 and I2 are kept by every command
  // ---------------------------------------------------------------------

  lemma AddedValid(s: seq<Product>, item: Item)
    requires Valid(s)
    ensures Valid(Added(s, item))
  {
    var r := Added(s, item);
    if !Contains(s, item.id) {
      forall i, j | 0 <= i < j < |r| ensures r[i].id != r[j].id {
        if j == |s| { assert r[i] == s[i]; }
        else { assert r[i] == s[i] && r[j] == s[j]; }
      }
    }
  }

  /** The filter keeps exactly the lines whose id differs. */
  lemma {:induction false} WithoutMembers(s: seq<Product>, id: string, p: Product)
    ensures p in Without(s, id) <==> p in s && p.id != id
  {
    if |s| > 0 {
      WithoutMembers(s[1..], id, p);
      assert s == [s[0]] + s[1..];
    }
  }

  /** The filter keeps a cart valid: it only drops lines and keeps the order of the rest. */
  lemma {:induction false} WithoutValid(s: seq<Product>, id: string)
    requires Valid(s)
    ensures Valid(Without(s, id))
  {
    if |s| > 0 {
      var tail := s[1..];
      assert Valid(tail) by {
        forall i, j | 0 <= i < j < |tail| ensures tail[i].id != tail[j].id {
          assert tail[i] == s[i + 1] && tail[j] == s[j + 1];
        }
      }
      WithoutValid(tail, id);
      if s[0].id != id {
        var rest := Without(tail, id);
        forall k | 0 <= k < |rest| ensures rest[k].id != s[0].id {
          WithoutMembers(tail, id, rest[k]);
          var m :| 0 <= m < |tail| && tail[m] == rest[k];
          assert s[m + 1] == rest[k];
        }
        PrependFreshIdValid(s[0], rest);
      }
    }
  }

  /** Putting a line with a new id and a quantity of at least 1 in front keeps a cart valid. */
  lemma PrependFreshIdValid(x: Product, s: seq<Product>)
    requires Valid(s) && x.quantity >= 1
    requires forall k :: 0 <= k < |s| ==> s[k].id != x.id
    ensures Valid([x] + s)
  {
    var r := [x] + s;
    forall i, j | 0 <= i < j < |r| ensures r[i].id != r[j].id {
      assert r[j] == s[j - 1];
      if i > 0 { assert r[i] == s[i - 1]; }
    }
  }

  lemma IncrementedValid(s: seq<Product>, id: string)
    requires Valid(s)
    ensures Valid(Incremented(s, id))
  {
    if Contains(s, id) {
      var i := Find(s, id).value;
      WithoutValid(s, id);
      AppendFreshIdValid(Without(s, id), s[i].(quantity := s[i].quantity + 1));
    }
  }

  lemma DecrementedValid(s: seq<Product>, id: string)
    requires Valid(s)
    ensures Valid(Decremented(s, id))
  {
    if Contains(s, id) {
      var i := Find(s, id).value;
      WithoutValid(s, id);
      if s[i].quantity != 1 {
        AppendFreshIdValid(Without(s, id), s[i].(quantity := s[i].quantity - 1));
      }
    }
  }

  /** Appending a line whose id is new and whose quantity is at least 1 keeps a cart valid. */
  lemma AppendFreshIdValid(s: seq<Product>, x: Product)
    requires Valid(s) && !Contains(s, x.id) && x.quantity >= 1
    ensures Valid(s + [x])
  {
    var r := s + [x];
    forall i, j | 0 <= i < j < |r| ensures r[i].id != r[j].id {
      assert r[i] == s[i];
      if j < |s| { assert r[j] == s[j]; }
    }
  }
}
