/**
 * The expense records of the expense card and the pure list operations its
 * handlers are built from: the running sum of line totals, lookup of a record
 * by id (`find`), removal by id (`filter`) and revision by id (`map`), plus
 * the integer parse the edit path applies to its draft numbers.
 */
module ExpenseRecords {

  datatype Option<T> = None | Some(value: T)

  /** Record identifiers; the card draws them from a UUID generator. */
  type Id = string

  /** One line item. `price` can be fractional on the add path; `quantity` is always whole. */
  datatype Expense = Expense(id: Id, name: string, price: real, quantity: int)

  /** A numeric form field: left empty, or holding the number it parses to. */
  datatype Field = Blank | Entered(value: real)

  /**
   * `price` times a whole `quantity`, built up one unit at a time so that the
   * verifier reasons about it linearly; `TimesIsProduct` shows it is the product.
   */
  function Times(price: real, quantity: int): real
    decreases if quantity < 0 then -quantity else quantity
  {
    if quantity == 0 then 0.0
    else if 0 < quantity then Times(price, quantity - 1) + price
    else Times(price, quantity + 1) - price
  }

  lemma {:induction false} TimesIsProduct(price: real, quantity: int)
    ensures Times(price, quantity) == price * quantity as real
    decreases if quantity < 0 then -quantity else quantity
  {
    if 0 < quantity {
      TimesIsProduct(price, quantity - 1);
    } else if quantity < 0 {
      TimesIsProduct(price, quantity + 1);
    }
  }

  /** What one record contributes to the total: price times quantity. */
  function LineTotal(e: Expense): real
  {
    Times(e.price, e.quantity)
  }

  /** The sum of the line totals of `s`. */
  function Sum(s: seq<Expense>): real
  {
    if s == [] then 0.0 else LineTotal(s[0]) + Sum(s[1..])
  }

  predicate HasId(s: seq<Expense>, id: Id)
  {
    exists i :: 0 <= i < |s| && s[i].id == id
  }

  predicate UniqueIds(s: seq<Expense>)
  {
    forall i, j :: 0 <= i < j < |s| ==> s[i].id != s[j].id
  }

  /** The position of the first record carrying `id`. */
  function IndexOf(s: seq<Expense>, id: Id): (k: nat)
    requires HasId(s, id)
    ensures k < |s| && s[k].id == id
    ensures forall j :: 0 <= j < k ==> s[j].id != id
  {
    if s[0].id == id then 0
    else
      assert HasId(s[1..], id) by {
        var i :| 0 <= i < |s| && s[i].id == id;
        assert s[1..][i - 1].id == id;
      }
      1 + IndexOf(s[1..], id)
  }

  /** JavaScript's `find` by id: the first record carrying `id`, if any. */
  function Find(s: seq<Expense>, id: Id): (r: Option<Expense>)
    ensures r.Some? <==> HasId(s, id)
    ensures r.Some? ==> r.value == s[IndexOf(s, id)]
  {
    if s == [] then None
    else if s[0].id == id then Some(s[0])
    else
      var r := Find(s[1..], id);
      assert HasId(s[1..], id) ==> HasId(s, id) by {
        if HasId(s[1..], id) {
          var i :| 0 <= i < |s[1..]| && s[1..][i].id == id;
          assert s[i + 1].id == id;
        }
      }
      assert HasId(s, id) ==> HasId(s[1..], id) by {
        if HasId(s, id) {
          var i :| 0 <= i < |s| && s[i].id == id;
          assert s[1..][i - 1].id == id;
        }
      }
      r
  }

  /** JavaScript's `filter` keeping the records whose id differs from `id`. */
  function Remove(s: seq<Expense>, id: Id): (r: seq<Expense>)
    ensures |r| <= |s|
    ensures forall i :: 0 <= i < |r| ==> r[i].id != id
  {
    if s == [] then []
    else if s[0].id == id then Remove(s[1..], id)
    else [s[0]] + Remove(s[1..], id)
  }

  /** The filter keeps exactly the records of the list whose id differs from `id`. */
  lemma {:induction false} RemoveMembers(s: seq<Expense>, id: Id)
    ensures forall e :: e in Remove(s, id) <==> e in s && e.id != id
  {
    if s != [] {
      RemoveMembers(s[1..], id);
      assert s == [s[0]] + s[1..];
    }
  }

  /** A record with name, price and quantity replaced and its id kept. */
  function Revised(e: Expense, name: string, price: real, quantity: int): Expense
  {
    e.(name := name, price := price, quantity := quantity)
  }

  /** JavaScript's `map` that revises every record carrying `id` and keeps the others. */
  function Update(s: seq<Expense>, id: Id, name: string, price: real, quantity: int): (r: seq<Expense>)
    ensures |r| == |s|
    ensures forall i :: 0 <= i < |s| ==>
      r[i] == if s[i].id == id then Revised(s[i], name, price, quantity) else s[i]
  {
    if s == [] then []
    else
      var head := if s[0].id == id then Revised(s[0], name, price, quantity) else s[0];
      [head] + Update(s[1..], id, name, price, quantity)
  }

  /** JavaScript's `parseInt` on a number: the integer part, truncated toward zero. */
  function Trunc(x: real): (r: int)
    ensures 0.0 <= x ==> 0 <= r && r as real <= x < r as real + 1.0
    ensures x < 0.0 ==> r <= 0 && r as real - 1.0 < x <= r as real
  {
    if 0.0 <= x then x.Floor else -((-x).Floor)
  }

  /** Truncating a number that is already whole gives it back. */
  lemma TruncOfInteger(n: int)
    ensures Trunc(n as real) == n
  {
    if n < 0 {
      assert (-(n as real)).Floor == -n;
    }
  }

  /** A list with unique ids has a tail with unique ids that does not hold its head's id. */
  lemma UniqueTail(s: seq<Expense>)
    requires UniqueIds(s) && s != []
    ensures UniqueIds(s[1..]) && !HasId(s[1..], s[0].id)
  {
    forall i, j | 0 <= i < j < |s[1..]| ensures s[1..][i].id != s[1..][j].id {
      assert s[1..][i] == s[i + 1] && s[1..][j] == s[j + 1];
    }
    forall i | 0 <= i < |s[1..]| ensures s[1..][i].id != s[0].id {
      assert s[1..][i] == s[i + 1];
    }
  }

  /** A record appended at the end adds exactly its line total. */
  lemma {:induction false} SumAppend(s: seq<Expense>, e: Expense)
    ensures Sum(s + [e]) == Sum(s) + LineTotal(e)
  {
    if s == [] {
      assert [] + [e] == [e];
      assert [e][1..] == [];
    } else {
      assert (s + [e])[1..] == s[1..] + [e];
      SumAppend(s[1..], e);
    }
  }

  /** With unique ids, the filter lowers the sum by exactly the line total of the record it drops. */
  lemma {:induction false} SumRemove(s: seq<Expense>, id: Id)
    requires UniqueIds(s) && HasId(s, id)
    ensures Sum(Remove(s, id)) == Sum(s) - LineTotal(s[IndexOf(s, id)])
  {
    UniqueTail(s);
    if s[0].id == id {
      RemoveAbsent(s[1..], id);
    } else {
      var t := Remove(s[1..], id);
      assert HasId(s[1..], id) by {
        var k := IndexOf(s, id);
        assert s[1..][k - 1] == s[k];
      }
      SumRemove(s[1..], id);
      assert ([s[0]] + t)[1..] == t;
    }
  }

  /** With unique ids, the map changes the sum by exactly the new line total minus the old one. */
  lemma {:induction false} SumUpdate(s: seq<Expense>, id: Id, name: string, price: real, quantity: int)
    requires UniqueIds(s) && HasId(s, id)
    ensures var k := IndexOf(s, id);
      Sum(Update(s, id, name, price, quantity)) == Sum(s) - LineTotal(s[k]) + Times(price, quantity)
  {
    UniqueTail(s);
    var r := Update(s, id, name, price, quantity);
    var t := Update(s[1..], id, name, price, quantity);
    assert r[1..] == t;
    if s[0].id == id {
      UpdateAbsent(s[1..], id, name, price, quantity);
    } else {
      assert HasId(s[1..], id) by {
        var k := IndexOf(s, id);
        assert s[1..][k - 1] == s[k];
      }
      SumUpdate(s[1..], id, name, price, quantity);
    }
  }

  /** Revising an id no record carries leaves the list as it is. */
  lemma UpdateAbsent(s: seq<Expense>, id: Id, name: string, price: real, quantity: int)
    requires !HasId(s, id)
    ensures Update(s, id, name, price, quantity) == s
  {
    var r := Update(s, id, name, price, quantity);
    forall i | 0 <= i < |s| ensures r[i] == s[i] {
      assert s[i].id != id;
    }
  }

  /** With unique ids, any record carrying `id` is the one `find` returns. */
  lemma IndexOfUnique(s: seq<Expense>, id: Id, k: nat)
    requires UniqueIds(s) && k < |s| && s[k].id == id
    ensures HasId(s, id) && IndexOf(s, id) == k
  {
  }

  /** With unique ids, removing `id` deletes exactly its record and keeps the others in order. */
  lemma {:induction false} RemoveUnique(s: seq<Expense>, id: Id)
    requires UniqueIds(s) && HasId(s, id)
    ensures var k := IndexOf(s, id); Remove(s, id) == s[..k] + s[k + 1..]
  {
    if s[0].id == id {
      assert !HasId(s[1..], id) by {
        forall i | 0 <= i < |s[1..]| ensures s[1..][i].id != id {
          assert s[1..][i] == s[i + 1];
        }
      }
      RemoveAbsent(s[1..], id);
    } else {
      var k := IndexOf(s, id);
      assert s[1..][k - 1].id == id;
      assert UniqueIds(s[1..]) by {
        forall i, j | 0 <= i < j < |s[1..]| ensures s[1..][i].id != s[1..][j].id {
          assert s[1..][i] == s[i + 1] && s[1..][j] == s[j + 1];
        }
      }
      RemoveUnique(s[1..], id);
      IndexOfUnique(s[1..], id, k - 1);
      assert s[1..][..k - 1] + s[1..][k..] == s[1..k] + s[k + 1..];
      assert [s[0]] + s[1..k] == s[..k];
    }
  }

  /** Removing an id no record carries leaves the list as it is. */
  lemma {:induction false} RemoveAbsent(s: seq<Expense>, id: Id)
    requires !HasId(s, id)
    ensures Remove(s, id) == s
  {
    if s != [] {
      assert !HasId(s[1..], id) by {
        forall i | 0 <= i < |s[1..]| ensures s[1..][i].id != id {
          assert s[1..][i] == s[i + 1];
        }
      }
      RemoveAbsent(s[1..], id);
      assert [s[0]] + s[1..] == s;
    }
  }

  /** The ids of the records a revision leaves behind are those of the original list, position by position. */
  lemma UpdateKeepsIds(s: seq<Expense>, id: Id, name: string, price: real, quantity: int)
    requires UniqueIds(s)
    ensures UniqueIds(Update(s, id, name, price, quantity))
    ensures forall i :: 0 <= i < |s| ==> Update(s, id, name, price, quantity)[i].id == s[i].id
  {
  }

  /** Filtering any id out of a list with unique ids leaves a list with unique ids. */
  lemma RemoveKeepsUnique(s: seq<Expense>, id: Id)
    requires UniqueIds(s)
    ensures UniqueIds(Remove(s, id))
  {
    if !HasId(s, id) {
      RemoveAbsent(s, id);
    } else {
      RemoveUnique(s, id);
      var k := IndexOf(s, id);
      var r := s[..k] + s[k + 1..];
      forall i, j | 0 <= i < j < |r| ensures r[i].id != r[j].id {
        var i' := if i < k then i else i + 1;
        var j' := if j < k then j else j + 1;
        assert r[i] == s[i'] && r[j] == s[j'];
      }
    }
  }

  /** Appending a record whose id is new keeps the ids unique. */
  lemma AppendKeepsUnique(s: seq<Expense>, e: Expense)
    requires UniqueIds(s) && !HasId(s, e.id)
    ensures UniqueIds(s + [e])
  {
    var r := s + [e];
    forall i, j | 0 <= i < j < |r| ensures r[i].id != r[j].id {
      if j == |s| {
        assert r[i] == s[i];
      } else {
        assert r[i] == s[i] && r[j] == s[j];
      }
    }
  }

  /** Revising a record with its own fields, as a save straight after beginning an edit does, changes nothing. */
  lemma RevisingWithOwnFields(s: seq<Expense>, id: Id)
    requires UniqueIds(s) && HasId(s, id)
    ensures var e := s[IndexOf(s, id)]; Update(s, id, e.name, e.price, e.quantity) == s
  {
    var e := s[IndexOf(s, id)];
    var r := Update(s, id, e.name, e.price, e.quantity);
    forall i | 0 <= i < |s| ensures r[i] == s[i] {
      if s[i].id == id {
        IndexOfUnique(s, id, i);
      }
    }
  }
}
