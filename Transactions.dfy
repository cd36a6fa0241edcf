/** A single ledger entry and its best-effort attribute patch. */
module Transactions {
  import opened Dates

  /** A value passed to `update`, tagged with its dynamic type. */
  datatype Value = Number(number: real) | Code(code: int) | Text(text: string) | Stamp(stamp: DateTime)

  /** One keyword argument of `update`: an attribute name and the value to store. */
  datatype Attribute = Attribute(key: string, value: Value)

  /** The four data fields of a transaction, as a value. */
  datatype Snapshot = Snapshot(amount: real, date: DateTime, category: int, description: string)

  /** The names `hasattr` finds among a transaction's data fields. */
  predicate IsField(key: string)
  {
    key == "amount" || key == "date" || key == "category" || key == "description"
  }

  /** A value for a known field has that field's type; other keys may carry anything. */
  predicate WellTyped(a: Attribute)
  {
    && (a.key == "amount" ==> a.value.Number?)
    && (a.key == "date" ==> a.value.Stamp?)
    && (a.key == "category" ==> a.value.Code?)
    && (a.key == "description" ==> a.value.Text?)
  }

  predicate AllWellTyped(attributes: seq<Attribute>)
  {
    forall i :: 0 <= i < |attributes| ==> WellTyped(attributes[i])
  }

  /** What `getattr` returns for a data field. */
  function FieldValue(s: Snapshot, key: string): Value
    requires IsField(key)
  {
    if key == "amount" then Number(s.amount)
    else if key == "date" then Stamp(s.date)
    else if key == "category" then Code(s.category)
    else Text(s.description)
  }

  /** One step of `update`: `setattr` when the key names a field, nothing otherwise. */
  function SetAttribute(s: Snapshot, a: Attribute): (r: Snapshot)
    requires WellTyped(a)
    ensures IsField(a.key) ==> FieldValue(r, a.key) == a.value
    ensures forall k :: IsField(k) && k != a.key ==> FieldValue(r, k) == FieldValue(s, k)
    ensures !IsField(a.key) ==> r == s
  {
    if a.key == "amount" then s.(amount := a.value.number)
    else if a.key == "date" then s.(date := a.value.stamp)
    else if a.key == "category" then s.(category := a.value.code)
    else if a.key == "description" then s.(description := a.value.text)
    else s
  }

  /** The fields after applying every attribute in order. */
  function Patched(s: Snapshot, attributes: seq<Attribute>): Snapshot
    requires AllWellTyped(attributes)
  {
    if attributes == [] then s
    else SetAttribute(Patched(s, attributes[..|attributes| - 1]), attributes[|attributes| - 1])
  }

  /** Keys that name no field are dropped without error. */
  lemma {:induction false} PatchedIgnoresUnknownKeys(s: Snapshot, attributes: seq<Attribute>)
    requires AllWellTyped(attributes)
    requires forall i :: 0 <= i < |attributes| ==> !IsField(attributes[i].key)
    ensures Patched(s, attributes) == s
  {
    if attributes != [] {
      PatchedIgnoresUnknownKeys(s, attributes[..|attributes| - 1]);
    }
  }

  /** A field that no attribute names keeps its value. */
  lemma {:induction false} PatchedKeepsUnnamedField(s: Snapshot, attributes: seq<Attribute>, key: string)
    requires AllWellTyped(attributes) && IsField(key)
    requires forall i :: 0 <= i < |attributes| ==> attributes[i].key != key
    ensures FieldValue(Patched(s, attributes), key) == FieldValue(s, key)
  {
    if attributes != [] {
      PatchedKeepsUnnamedField(s, attributes[..|attributes| - 1], key);
    }
  }

  /** A named field ends with the value of the last attribute that names it (the only
      one, for the distinct keys of a keyword-argument dictionary). */
  lemma {:induction false} PatchedTakesLastValue(s: Snapshot, attributes: seq<Attribute>, key: string, j: nat)
    requires AllWellTyped(attributes) && IsField(key)
    requires j < |attributes| && attributes[j].key == key
    requires forall i :: j < i < |attributes| ==> attributes[i].key != key
    ensures FieldValue(Patched(s, attributes), key) == attributes[j].value
  {
    if j < |attributes| - 1 {
      PatchedTakesLastValue(s, attributes[..|attributes| - 1], key, j);
    }
  }

  class Transaction {
    var amount: real
    var date: DateTime
    var category: int
    var description: string

    /** A new entry stamped with the current time `now`. */
    constructor (now: DateTime, amount: real, category: int, description: string := "")
      ensures this.amount == amount && this.date == now
      ensures this.category == category && this.description == description
    {
      this.amount := amount;
      this.date := now;
      this.category := category;
      this.description := description;
    }

    function Fields(): Snapshot
      reads this
    {
      Snapshot(amount, date, category, description)
    }

    /** Overwrites each field named by an attribute, in order, and ignores the rest. */
    method Update(attributes: seq<Attribute>)
      requires AllWellTyped(attributes)
      modifies this
      ensures Fields() == Patched(old(Fields()), attributes)
    {
      for i := 0 to |attributes|
        invariant Fields() == Patched(old(Fields()), attributes[..i])
      {
        var a := attributes[i];
        if a.key == "amount" {
          amount := a.value.number;
        } else if a.key == "date" {
          date := a.value.stamp;
        } else if a.key == "category" {
          category := a.value.code;
        } else if a.key == "description" {
          description := a.value.text;
        }
        assert attributes[..i + 1][..i] == attributes[..i];
      }
      assert attributes[..|attributes|] == attributes;
    }
  }
}
