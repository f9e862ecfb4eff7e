/**
 * The state of the expense card component and its handlers. Each handler is
 * one atomic transition: it reads the state before it, recomputes the record
 * list with the pure operations of ExpenseRecords, adjusts the cached total
 * incrementally and writes both through to the two-key store.
 */
module ExpenseCard {
  import opened ExpenseRecords

  class Ledger {
    /** The records in display order. */
    var expenses: seq<Expense>
    /** The cached running total, updated incrementally by each handler. */
    var totalPrice: real
    /** The id of the record whose edit form is open, if any. */
    var editingId: Option<Id>
    /** The edit form's draft fields. */
    var editedExpense: string
    var editedPrice: real
    var editedQuantity: real
    /** The store's `expenses` and `totalPrice` keys; `None` when the key is absent. */
    var storedExpenses: Option<seq<Expense>>
    var storedTotal: Option<real>

    /** The central invariant: ids are unique and the cached total is the true sum. */
    predicate Consistent()
      reads this
    {
      UniqueIds(expenses) && totalPrice == Sum(expenses)
    }

    /** The store holds exactly what is in memory. */
    predicate Mirrored()
      reads this
    {
      storedExpenses == Some(expenses) && storedTotal == Some(totalPrice)
    }

    /** The draft fields, as one value, for "nothing else changes" clauses. */
    function Draft(): (string, real, real)
      reads this
    {
      (editedExpense, editedPrice, editedQuantity)
    }

    /**
     * Mounting the card: the stored list, or the empty list when the key is
     * absent, and the stored total, or zero. Nothing checks that the two agree.
     */
    constructor Load(stored: Option<seq<Expense>>, storedTot: Option<real>)
      ensures expenses == (if stored.Some? then stored.value else [])
      ensures totalPrice == (if storedTot.Some? then storedTot.value else 0.0)
      ensures editingId == None
      ensures storedExpenses == stored && storedTotal == storedTot
      ensures stored.Some? && storedTot.Some? ==> Mirrored()
      ensures stored.Some? && storedTot.Some? ==>
        (Consistent() <==> UniqueIds(stored.value) && storedTot.value == Sum(stored.value))
      ensures stored == None && storedTot == None ==> expenses == [] && Consistent()
    {
      expenses := if stored.Some? then stored.value else [];
      totalPrice := if storedTot.Some? then storedTot.value else 0.0;
      editingId := None;
      editedExpense, editedPrice, editedQuantity := "", 0.0, 0.0;
      storedExpenses, storedTotal := stored, storedTot;
    }

    /**
     * The Add button. With any field empty nothing changes (the card only
     * alerts); otherwise a record with the caller's fresh id is appended, the
     * total rises by its line total and both keys are written.
     */
    method Add(id: Id, name: string, price: Field, quantity: Field) returns (added: bool)
      modifies this
      ensures added <==> name != "" && price.Entered? && quantity.Entered?
      ensures !added ==> unchanged(this)
      ensures added ==>
        var e := Expense(id, name, price.value, Trunc(quantity.value));
        && expenses == old(expenses) + [e]
        && totalPrice == old(totalPrice) + LineTotal(e)
      ensures added ==> Mirrored()
      ensures editingId == old(editingId) && Draft() == old(Draft())
      ensures old(Consistent()) && !HasId(old(expenses), id) ==> Consistent()
    {
      if name == "" || price == Blank || quantity == Blank {
        added := false;
      } else {
        var newItemPrice := Times(price.value, Trunc(quantity.value));
        var e := Expense(id, name, price.value, Trunc(quantity.value));
        if UniqueIds(expenses) && !HasId(expenses, id) {
          AppendKeepsUnique(expenses, e);
        }
        SumAppend(expenses, e);
        expenses := expenses + [e];
        storedExpenses := Some(expenses);
        totalPrice := totalPrice + newItemPrice;
        storedTotal := Some(totalPrice);
        added := true;
      }
    }

    /**
     * The Delete button of a listed record: the total drops by the line total
     * of the first record with that id and every record with that id goes.
     */
    method Delete(id: Id)
      requires HasId(expenses, id)
      modifies this
      ensures var k := IndexOf(old(expenses), id);
        && expenses == Remove(old(expenses), id)
        && totalPrice == old(totalPrice) - LineTotal(old(expenses)[k])
        && (old(UniqueIds(expenses)) ==> expenses == old(expenses)[..k] + old(expenses)[k + 1..])
      ensures Mirrored()
      ensures editingId == old(editingId) && Draft() == old(Draft())
      ensures old(Consistent()) ==> Consistent()
    {
      var deleted := Find(expenses, id).value;
      var newTotal := totalPrice - LineTotal(deleted);
      if UniqueIds(expenses) {
        RemoveUnique(expenses, id);
        RemoveKeepsUnique(expenses, id);
        SumRemove(expenses, id);
      }
      expenses := Remove(expenses, id);
      storedExpenses := Some(expenses);
      totalPrice := newTotal;
      storedTotal := Some(totalPrice);
    }

    /** The Edit button of a listed record: opens its form with its fields as the draft. */
    method BeginEdit(id: Id)
      requires HasId(expenses, id)
      modifies this
      ensures editingId == Some(id)
      ensures var e := old(expenses)[IndexOf(old(expenses), id)];
        Draft() == (e.name, e.price, e.quantity as real)
      ensures expenses == old(expenses) && totalPrice == old(totalPrice)
      ensures storedExpenses == old(storedExpenses) && storedTotal == old(storedTotal)
    {
      editingId := Some(id);
      var e := Find(expenses, id).value;
      editedExpense := e.name;
      editedPrice := e.price;
      editedQuantity := e.quantity as real;
    }

    /**
     * The Update button, as the card has it: the record being edited takes
     * the draft name and the draft price and quantity each cut to an integer;
     * the total moves by the new line total minus the original one.
     */
    method CommitEdit()
      requires editingId.Some? && HasId(expenses, editingId.value)
      modifies this
      ensures var id := old(editingId).value;
        var k := IndexOf(old(expenses), id);
        var price := Trunc(old(editedPrice)) as real;
        var quantity := Trunc(old(editedQuantity));
        && expenses == Update(old(expenses), id, old(editedExpense), price, quantity)
        && totalPrice == old(totalPrice) + (Times(price, quantity) - LineTotal(old(expenses)[k]))
      ensures editingId == None && Draft() == old(Draft())
      ensures Mirrored()
      ensures old(Consistent()) ==> Consistent()
    {
      Save(Trunc(editedPrice) as real);
    }

    /**
     * The Update button with the price parsed as a decimal, as on the add
     * path: the draft price is kept and only the quantity is cut to an integer.
     */
    method CommitEditDecimal()
      requires editingId.Some? && HasId(expenses, editingId.value)
      modifies this
      ensures var id := old(editingId).value;
        var k := IndexOf(old(expenses), id);
        var quantity := Trunc(old(editedQuantity));
        && expenses == Update(old(expenses), id, old(editedExpense), old(editedPrice), quantity)
        && totalPrice == old(totalPrice) + (Times(old(editedPrice), quantity) - LineTotal(old(expenses)[k]))
      ensures editingId == None && Draft() == old(Draft())
      ensures Mirrored()
      ensures old(Consistent()) ==> Consistent()
    {
      Save(editedPrice);
    }

    /** The common part of the two commits, given the price the draft parses to. */
    method Save(price: real)
      requires editingId.Some? && HasId(expenses, editingId.value)
      modifies this
      ensures var id := old(editingId).value;
        var k := IndexOf(old(expenses), id);
        var quantity := Trunc(old(editedQuantity));
        && expenses == Update(old(expenses), id, old(editedExpense), price, quantity)
        && totalPrice == old(totalPrice) + (Times(price, quantity) - LineTotal(old(expenses)[k]))
      ensures editingId == None && Draft() == old(Draft())
      ensures Mirrored()
      ensures old(Consistent()) ==> Consistent()
    {
      var id := editingId.value;
      var quantity := Trunc(editedQuantity);
      var updated := Update(expenses, id, editedExpense, price, quantity);
      var original := Find(expenses, id).value;
      var priceDifference := Times(price, quantity) - LineTotal(original);
      var newTotal := totalPrice + priceDifference;
      if UniqueIds(expenses) && totalPrice == Sum(expenses) {
        SaveKeepsConsistency(expenses, totalPrice, id, editedExpense, price, quantity);
      }
      expenses := updated;
      totalPrice := newTotal;
      storedTotal := Some(totalPrice);
      storedExpenses := Some(expenses);
      editingId := None;
    }

    /** The Cancel button of the edit form: leaves edit mode and nothing else. */
    method CancelEdit()
      modifies this
      ensures editingId == None
      ensures expenses == old(expenses) && totalPrice == old(totalPrice) && Draft() == old(Draft())
      ensures storedExpenses == old(storedExpenses) && storedTotal == old(storedTotal)
    {
      editingId := None;
    }

    /**
     * The Clear All button, as the card has it: the list empties and both
     * keys are removed, but the in-memory total keeps its value, so the ledger
     * stays consistent only if that total was already zero.
     */
    method Clear()
      modifies this
      ensures expenses == [] && totalPrice == old(totalPrice)
      ensures storedExpenses == None && storedTotal == None
      ensures editingId == old(editingId) && Draft() == old(Draft())
      ensures Consistent() <==> totalPrice == 0.0
    {
      expenses := [];
      storedExpenses := None;
      storedTotal := None;
    }

    /** The Clear All button with the total reset as well, which keeps the ledger consistent. */
    method ClearAll()
      modifies this
      ensures expenses == [] && totalPrice == 0.0
      ensures storedExpenses == None && storedTotal == None
      ensures editingId == old(editingId) && Draft() == old(Draft())
      ensures Consistent()
    {
      Clear();
      totalPrice := 0.0;
    }
  }

  /** What a commit proves about the new list and total, given the state before it. */
  lemma SaveKeepsConsistency(s: seq<Expense>, total: real, id: Id, name: string, price: real, quantity: int)
    requires HasId(s, id) && UniqueIds(s) && total == Sum(s)
    ensures var r := Update(s, id, name, price, quantity);
      UniqueIds(r) && total + (Times(price, quantity) - LineTotal(s[IndexOf(s, id)])) == Sum(r)
  {
    UpdateKeepsIds(s, id, name, price, quantity);
    SumUpdate(s, id, name, price, quantity);
  }

  /** Remounting the card after a handler has written both keys restores what was in memory. */
  method Reload(l: Ledger) returns (m: Ledger)
    requires l.Mirrored()
    ensures m.expenses == l.expenses && m.totalPrice == l.totalPrice
    ensures m.Mirrored() && (m.Consistent() <==> l.Consistent())
  {
    m := new Ledger.Load(l.storedExpenses, l.storedTotal);
  }

  /** Adding two coffees at 3.50 to an empty card gives one record and a total of 7; deleting it brings the total back to 0. */
  method CoffeeScenario() returns (l: Ledger)
    ensures l.expenses == [] && l.totalPrice == 0.0 && l.Consistent() && l.Mirrored()
  {
    l := new Ledger.Load(None, None);
    var added := l.Add("c1", "Coffee", Entered(3.5), Entered(2.0));
    assert added;
    assert l.expenses == [Expense("c1", "Coffee", 3.5, 2)] && l.totalPrice == 7.0;
    l.Delete("c1");
  }

  /** Clearing a card with a non-zero total and adding a record leaves a cached and stored total that is not the sum. */
  method StaleTotalAfterClear() returns (l: Ledger)
    ensures l.expenses == [Expense("c2", "Tea", 1.0, 1)]
    ensures l.totalPrice == 8.0 && l.storedTotal == Some(8.0) && !l.Consistent()
  {
    l := new Ledger.Load(None, None);
    var added := l.Add("c1", "Coffee", Entered(3.5), Entered(2.0));
    TimesIsProduct(3.5, 2);
    assert l.totalPrice == 7.0;
    l.Clear();
    added := l.Add("c2", "Tea", Entered(1.0), Entered(1.0));
    TimesIsProduct(1.0, 1);
    assert l.expenses[1..] == [];
    assert Sum(l.expenses) == 1.0;
  }

  /** Opening and saving an edit without touching the draft cuts a price of 3.50 to 3 and the total from 7 to 6. */
  method TruncatingEditScenario() returns (l: Ledger)
    ensures l.expenses == [Expense("c1", "Coffee", 3.0, 2)] && l.totalPrice == 6.0
  {
    l := new Ledger.Load(None, None);
    var added := l.Add("c1", "Coffee", Entered(3.5), Entered(2.0));
    assert HasId(l.expenses, "c1") by { assert l.expenses[0].id == "c1"; }
    l.BeginEdit("c1");
    TruncOfInteger(2);
    l.CommitEdit();
  }

  /** With the decimal commit, opening and saving an edit without touching the draft changes neither the records nor the total. */
  method UntouchedEdit(l: Ledger, id: Id)
    requires UniqueIds(l.expenses) && HasId(l.expenses, id)
    modifies l
    ensures l.expenses == old(l.expenses) && l.totalPrice == old(l.totalPrice)
    ensures l.editingId == None && l.Mirrored()
  {
    l.BeginEdit(id);
    var e := l.expenses[IndexOf(l.expenses, id)];
    TruncOfInteger(e.quantity);
    l.CommitEditDecimal();
    RevisingWithOwnFields(old(l.expenses), id);
  }
}
