/**
 * Request parameters: the library's `Parameters` is an ordered list of (key, value) entries that
 * request builders fill with `append`, one entry at a time, often only under a condition.
 *
 * A builder's result is described here by a table of `Slot`s: every entry the builder may append,
 * in the order it appends them, each with the condition under which it does. The general lemmas
 * below then give, for every such table at once, that the entries keep the table's key order and
 * that each key is present exactly when its condition holds, with its value.
 */
module ParameterLists {
  import opened Wrappers

  /** The kinds of value `append` accepts: text, a boolean, a number, or a list of strings. */
  datatype Value = Text(text: string) | Flag(flag: bool) | Number(number: int) | Items(items: seq<string>)

  datatype Entry = Entry(key: string, value: Value)

  function Keys(entries: seq<Entry>): (keys: seq<string>)
    ensures |keys| == |entries|
    ensures forall i | 0 <= i < |entries| :: keys[i] == entries[i].key
  {
    seq(|entries|, i requires 0 <= i < |entries| => entries[i].key)
  }

  /** The value of the first entry under `key`, if any. */
  function Lookup(entries: seq<Entry>, key: string): (v: Option<Value>)
    ensures v.None? <==> key !in Keys(entries)
    ensures v.Some? ==> Entry(key, v.value) in entries
    decreases |entries|
  {
    if |entries| == 0 then None
    else if entries[0].key == key then Some(entries[0].value)
    else
      assert Keys(entries) == [entries[0].key] + Keys(entries[1..]);
      Lookup(entries[1..], key)
  }

  /** `keys` can be obtained from `order` by leaving some out: the same keys, in the same order. */
  predicate SubsequenceOf(keys: seq<string>, order: seq<string>)
    decreases |order|
  {
    |keys| == 0
    || (|order| > 0
        && ((keys[|keys| - 1] == order[|order| - 1]
             && SubsequenceOf(keys[..|keys| - 1], order[..|order| - 1]))
            || SubsequenceOf(keys, order[..|order| - 1])))
  }

  predicate Distinct(keys: seq<string>) {
    forall i, j | 0 <= i < j < |keys| :: keys[i] != keys[j]
  }

  /** An entry a builder appends, guarded by the condition under which it does. */
  datatype Slot = Slot(present: bool, entry: Entry)

  /** The single entry a slot contributes, or nothing. */
  function Contribution(slot: Slot): seq<Entry> {
    if slot.present then [slot.entry] else []
  }

  /** The entries a builder appends, slot by slot. */
  function Present(slots: seq<Slot>): seq<Entry>
    decreases |slots|
  {
    if |slots| == 0 then [] else Present(slots[..|slots| - 1]) + Contribution(slots[|slots| - 1])
  }

  function SlotKeys(slots: seq<Slot>): (keys: seq<string>)
    ensures |keys| == |slots|
    ensures forall i | 0 <= i < |slots| :: keys[i] == slots[i].entry.key
  {
    seq(|slots|, i requires 0 <= i < |slots| => slots[i].entry.key)
  }

  /** Appending one more slot appends its contribution: the step a builder's method takes. */
  lemma {:induction false} PresentStep(slots: seq<Slot>, k: nat)
    requires k < |slots|
    ensures Present(slots[..k + 1]) == Present(slots[..k]) + Contribution(slots[k])
  {
    assert slots[..k + 1][..k] == slots[..k];
  }

  /** The entries of a table split at any point are the entries of both halves. */
  lemma {:induction false} PresentConcat(a: seq<Slot>, b: seq<Slot>)
    ensures Present(a + b) == Present(a) + Present(b)
    decreases |b|
  {
    if |b| > 0 {
      var last := b[|b| - 1];
      assert (a + b)[..|a + b| - 1] == a + b[..|b| - 1];
      PresentConcat(a, b[..|b| - 1]);
    } else {
      assert a + b == a;
    }
  }

  /** A builder never reorders: its keys are the table's keys with the absent ones left out. */
  lemma {:induction false} PresentInOrder(slots: seq<Slot>)
    ensures SubsequenceOf(Keys(Present(slots)), SlotKeys(slots))
    decreases |slots|
  {
    if |slots| > 0 {
      var init := slots[..|slots| - 1];
      PresentInOrder(init);
      assert SlotKeys(slots)[..|slots| - 1] == SlotKeys(init);
      var keys := Keys(Present(slots));
      if slots[|slots| - 1].present {
        assert keys[..|keys| - 1] == Keys(Present(init));
      } else {
        assert keys == Keys(Present(init));
      }
    }
  }

  lemma {:induction false} LookupConcat(a: seq<Entry>, b: seq<Entry>, key: string)
    ensures Lookup(a + b, key) == if Lookup(a, key).Some? then Lookup(a, key) else Lookup(b, key)
    decreases |a|
  {
    if |a| > 0 {
      assert (a + b)[1..] == a[1..] + b;
      LookupConcat(a[1..], b, key);
    } else {
      assert a + b == b;
    }
  }

  /**
   * With distinct keys in the table, looking a key up in what the builder appended finds the
   * slot's value exactly when the slot's condition holds.
   */
  lemma {:induction false} PresentLookup(slots: seq<Slot>, i: nat)
    requires i < |slots| && Distinct(SlotKeys(slots))
    ensures Lookup(Present(slots), slots[i].entry.key)
         == if slots[i].present then Some(slots[i].entry.value) else None
    decreases |slots|
  {
    var key := slots[i].entry.key;
    var n := |slots| - 1;
    var init := slots[..n];
    LookupConcat(Present(init), Contribution(slots[n]), key);
    if i < n {
      assert SlotKeys(init) == SlotKeys(slots)[..n];
      assert init[i] == slots[i];
      PresentLookup(init, i);
      assert slots[n].entry.key != key;
    } else {
      AbsentFromPrefix(slots, n);
    }
  }

  /** No slot before position `n` carries the key of slot `n`, so nothing appended earlier has it. */
  lemma {:induction false} AbsentFromPrefix(slots: seq<Slot>, n: nat)
    requires n < |slots| && Distinct(SlotKeys(slots))
    ensures Lookup(Present(slots[..n]), slots[n].entry.key).None?
  {
    var key := slots[n].entry.key;
    KeysFromSlots(slots[..n]);
    assert forall j | 0 <= j < n :: slots[..n][j].entry.key != key;
  }

  /** Every key the builder appended is the key of one of its slots. */
  lemma {:induction false} KeysFromSlots(slots: seq<Slot>)
    ensures forall k | k in Keys(Present(slots)) :: k in SlotKeys(slots)
    decreases |slots|
  {
    if |slots| > 0 {
      var init := slots[..|slots| - 1];
      KeysFromSlots(init);
      assert Keys(Present(slots)) == Keys(Present(init)) + Keys(Contribution(slots[|slots| - 1]));
      forall k | k in SlotKeys(init) ensures k in SlotKeys(slots) {
        var j :| 0 <= j < |init| && SlotKeys(init)[j] == k;
        assert SlotKeys(slots)[j] == k;
      }
    }
  }

  /**
   * The library's `Parameters`: a mutable list that `append` extends at the end. `append`
   * returns the object itself, so calls can be chained.
   */
  class Parameters {
    var entries: seq<Entry>

    constructor()
      ensures entries == []
    {
      entries := [];
    }

    method Append(key: string, value: Value) returns (self: Parameters)
      modifies this
      ensures self == this
      ensures entries == old(entries) + [Entry(key, value)]
    {
      entries := entries + [Entry(key, value)];
      self := this;
    }

    /** The guarded `if (condition) append(key, value)` the builders write inline. */
    method AppendWhen(condition: bool, key: string, value: Value)
      modifies this
      ensures entries == old(entries) + Contribution(Slot(condition, Entry(key, value)))
    {
      if condition {
        var _ := Append(key, value);
      }
    }
  }
}
