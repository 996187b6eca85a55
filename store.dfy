/**
 * The ledger state: the list of transactions the page keeps, newest first,
 * with the add, delete, clear and load operations that change it.
 */
module Store {
  import opened LedgerTypes
  import opened Validation

  // ---------------------------------------------------------------------------
  // Delete by id

  /** The ledger without the entries whose id is `id`, the rest in their order (the delete filter). */
  function Without(ts: seq<Transaction>, id: string): (r: seq<Transaction>)
    ensures |r| <= |ts|
  {
    if ts == [] then []
    else (if ts[0].id != id then [ts[0]] else []) + Without(ts[1..], id)
  }

  /** The filter keeps exactly the entries with another id. */
  lemma {:induction false} WithoutMembers(ts: seq<Transaction>, id: string)
    ensures forall t :: t in Without(ts, id) <==> t in ts && t.id != id
  {
    if ts != [] {
      WithoutMembers(ts[1..], id);
      assert ts == [ts[0]] + ts[1..];
    }
  }

  /** Deleting an id no entry has leaves the ledger as it was. */
  lemma {:induction false} WithoutAbsent(ts: seq<Transaction>, id: string)
    requires forall i :: 0 <= i < |ts| ==> ts[i].id != id
    ensures Without(ts, id) == ts
  {
    if ts != [] {
      WithoutAbsent(ts[1..], id);
      assert ts == [ts[0]] + ts[1..];
    }
  }

  /** The filter works piece by piece, so the surviving entries keep their relative order. */
  lemma {:induction false} WithoutConcat(a: seq<Transaction>, b: seq<Transaction>, id: string)
    ensures Without(a + b, id) == Without(a, id) + Without(b, id)
  {
    if a == [] {
      assert a + b == b;
    } else {
      var head := if a[0].id != id then [a[0]] else [];
      assert (a + b)[0] == a[0];
      assert (a + b)[1..] == a[1..] + b;
      assert Without(a + b, id) == head + Without(a[1..] + b, id);
      WithoutConcat(a[1..], b, id);
      assert Without(a, id) == head + Without(a[1..], id);
    }
  }

  /**
   * Deleting an id that entry `k` alone holds (as in a ledger with unique
   * ids) removes that entry and nothing else: the entries before and after it
   * close up.
   */
  lemma {:induction false} WithoutUniquePresent(ts: seq<Transaction>, k: nat, id: string)
    requires k < |ts| && ts[k].id == id
    requires forall i :: 0 <= i < |ts| && i != k ==> ts[i].id != id
    ensures Without(ts, id) == ts[..k] + ts[k + 1..]
    ensures |Without(ts, id)| == |ts| - 1
  {
    var rest := ts[1..];
    if k == 0 {
      forall i | 0 <= i < |rest| ensures rest[i].id != id {
        assert rest[i] == ts[i + 1];
      }
      WithoutAbsent(rest, id);
      assert Without(ts, id) == [] + Without(rest, id);
    } else {
      forall i | 0 <= i < |rest| && i != k - 1 ensures rest[i].id != id {
        assert rest[i] == ts[i + 1];
      }
      WithoutUniquePresent(rest, k - 1, id);
      assert Without(ts, id) == [ts[0]] + Without(rest, id);
      assert [ts[0]] + (rest[..k - 1] + rest[k..]) == ts[..k] + ts[k + 1..];
    }
  }

  /** Deleting keeps the ids of a ledger unique. */
  lemma {:induction false} WithoutKeepsUnique(ts: seq<Transaction>, id: string)
    requires UniqueIds(ts)
    ensures UniqueIds(Without(ts, id))
  {
    if ts != [] {
      var rest := ts[1..];
      assert UniqueIds(rest) by {
        forall i, j | 0 <= i < j < |rest| ensures rest[i].id != rest[j].id {
          assert rest[i] == ts[i + 1] && rest[j] == ts[j + 1];
        }
      }
      WithoutKeepsUnique(rest, id);
      var kept := Without(rest, id);
      if ts[0].id != id {
        WithoutMembers(rest, id);
        var r := [ts[0]] + kept;
        forall j | 0 < j < |r| ensures r[0].id != r[j].id {
          assert kept[j - 1] in rest;
          var m :| 0 <= m < |rest| && rest[m] == kept[j - 1];
          assert ts[m + 1] == r[j];
        }
      }
    }
  }

  /** Deleting keeps a well-formed ledger well formed. */
  lemma WithoutPreservesWellFormed(ts: seq<Transaction>, id: string)
    requires WellFormed(ts)
    ensures WellFormed(Without(ts, id))
  {
    var r := Without(ts, id);
    WithoutKeepsUnique(ts, id);
    WithoutMembers(ts, id);
    forall i | 0 <= i < |r| ensures r[i].amount > 0.0 && r[i].name != "" && r[i].category != "" {
      assert r[i] in ts;
      var m :| 0 <= m < |ts| && ts[m] == r[i];
    }
  }

  // ---------------------------------------------------------------------------
  // Add

  /** The record built from a validated form: the given id, kind and creation time with the entry's fields. */
  function NewTransaction(id: string, kind: Kind, e: Entry, date: string): Transaction
  {
    Transaction(id, kind, e.name, e.amount, e.category, date)
  }

  /**
   * An accepted form added with an id no entry has keeps a well-formed ledger
   * well formed.
   */
  lemma AddPreservesWellFormed(
    ts: seq<Transaction>, id: string, kind: Kind,
    nameInput: string, amountInput: string, parsed: Option<real>, category: string,
    e: Entry, date: string)
    requires WellFormed(ts)
    requires forall i :: 0 <= i < |ts| ==> ts[i].id != id
    requires Validate(nameInput, amountInput, parsed, category) == Ok(e)
    ensures WellFormed([NewTransaction(id, kind, e, date)] + ts)
  {
  }

  /** Deleting the id of an entry just added with a fresh id gives back the ledger from before the add. */
  lemma DeleteUndoesAdd(t: Transaction, ts: seq<Transaction>)
    requires forall i :: 0 <= i < |ts| ==> ts[i].id != t.id
    ensures Without([t] + ts, t.id) == ts
  {
    assert ([t] + ts)[1..] == ts;
    WithoutAbsent(ts, t.id);
  }

  // ---------------------------------------------------------------------------
  // Load

  /**
   * The ledger read back at start-up from the stored text `raw` (None when
   * nothing is stored). `parse` reads the text and yields None where reading
   * fails. A missing or empty text and a failed read both give the empty ledger.
   */
  function Hydrate(raw: Option<string>, parse: string -> Option<seq<Transaction>>): (r: seq<Transaction>)
    ensures r != [] ==> raw.Some? && raw.value != "" && parse(raw.value) == Some(r)
    ensures raw.None? || raw.value == "" || parse(raw.value).None? ==> r == []
    ensures raw.Some? && raw.value != "" && parse(raw.value).Some? ==> r == parse(raw.value).value
  {
    if raw.None? || raw.value == "" then []
    else
      match parse(raw.value)
      case None => []
      case Some(ts) => ts
  }

  /**
   * A ledger saved as a text that reads back as the same ledger (and is never
   * the empty text, as a serialised list is not) is what the next start-up loads.
   */
  lemma SaveThenLoad(ts: seq<Transaction>, serialize: seq<Transaction> -> string, parse: string -> Option<seq<Transaction>>)
    requires serialize(ts) != ""
    requires parse(serialize(ts)) == Some(ts)
    ensures Hydrate(Some(serialize(ts)), parse) == ts
  {
  }

  // ---------------------------------------------------------------------------
  // The ledger

  /** The page's ledger: its transactions, newest first. */
  class Ledger {
    var transactions: seq<Transaction>

    /** The page starts with no transactions. */
    constructor()
      ensures transactions == []
    {
      transactions := [];
    }

    /** Replaces the transactions with those read from the stored text. */
    method Load(raw: Option<string>, parse: string -> Option<seq<Transaction>>)
      modifies this
      ensures transactions == Hydrate(raw, parse)
    {
      if raw.None? || raw.value == "" {
        transactions := [];
      } else {
        var read := parse(raw.value);
        if read.None? {
          transactions := [];
        } else {
          transactions := read.value;
        }
      }
    }

    /**
     * The add form's submit. The inputs are validated first; a rejected form
     * reports the first failed check and leaves the ledger as it was. An
     * accepted one becomes a record with the given kind, id and creation time,
     * placed in front of all existing entries.
     */
    method AddTransaction(
      kind: Kind, nameInput: string, amountInput: string, parsed: Option<real>, category: string,
      id: string, date: string)
      returns (r: Result<Transaction, ValidationError>)
      modifies this
      ensures r.Err? <==> Validate(nameInput, amountInput, parsed, category).Err?
      ensures r.Err? ==> r.error == Validate(nameInput, amountInput, parsed, category).error
      ensures r.Err? ==> transactions == old(transactions)
      ensures r.Ok? ==>
        && r.value == NewTransaction(id, kind, Validate(nameInput, amountInput, parsed, category).value, date)
        && r.value.amount > 0.0
        && transactions == [r.value] + old(transactions)
        && |transactions| == |old(transactions)| + 1
        && transactions[0] == r.value && transactions[1..] == old(transactions)
    {
      var checked := Validate(nameInput, amountInput, parsed, category);
      if checked.Err? {
        return Err(checked.error);
      }
      var t := NewTransaction(id, kind, checked.value, date);
      transactions := [t] + transactions;
      r := Ok(t);
    }

    /** Removes every entry with the given id; the others stay in their order. */
    method DeleteTransaction(id: string)
      modifies this
      ensures transactions == Without(old(transactions), id)
      ensures forall i :: 0 <= i < |transactions| ==> transactions[i].id != id
    {
      WithoutMembers(transactions, id);
      transactions := Without(transactions, id);
      assert forall i :: 0 <= i < |transactions| ==> transactions[i] in transactions;
    }

    /** Empties the ledger. */
    method ClearAll()
      modifies this
      ensures transactions == []
    {
      transactions := [];
    }
  }
}
