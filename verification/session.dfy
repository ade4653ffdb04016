/**
 * The list of scanned codes kept by app.js (`barcodes`): an ordered list of
 * `{ value, timestamp }` records that the decode callback extends, the
 * remove buttons and "clear all" shrink, and the count label and the CSV
 * export read. The timestamp is the text `toLocaleString()` produced at
 * detection and the answer to the confirmation dialog is a parameter; both
 * are opaque to the model.
 */
module ScanSession {
  import opened Text
  import opened Options

  /** One scanned code. */
  datatype Entry = Entry(value: string, timestamp: string)

  /** `barcodes.some(code => code.value === value)`, scanning from the front. */
  function Contains(list: seq<Entry>, value: string): (found: bool)
    ensures found <==> exists i | 0 <= i < |list| :: list[i].value == value
    decreases |list|
  {
    if |list| == 0 then false
    else if list[0].value == value then true
    else
      var found := Contains(list[1..], value);
      assert found ==> exists i | 0 <= i < |list| :: list[i].value == value by {
        if found {
          var j :| 0 <= j < |list| - 1 && list[1..][j].value == value;
          assert list[j + 1].value == value;
        }
      }
      found
  }

  /** No value occurs in two entries. */
  predicate ValuesUnique(list: seq<Entry>) {
    forall i, j | 0 <= i < j < |list| :: list[i].value != list[j].value
  }

  /** The array part of `addBarcodeToList`: `barcodes.push({ value, timestamp })`. */
  function AddBarcode(list: seq<Entry>, value: string, timestamp: string): seq<Entry> {
    list + [Entry(value, timestamp)]
  }

  /**
   * The decode callback: a value already in the list changes nothing; a new
   * one is appended at the end with the timestamp taken at detection.
   */
  function OnDecode(list: seq<Entry>, value: string, timestamp: string): (result: seq<Entry>)
    ensures Contains(result, value)
    ensures Contains(list, value) ==> result == list
    ensures !Contains(list, value) ==>
              |result| == |list| + 1 && result[..|list|] == list && result[|list|] == Entry(value, timestamp)
    ensures ValuesUnique(list) ==> ValuesUnique(result)
  {
    if Contains(list, value) then list
    else
      var result := AddBarcode(list, value, timestamp);
      assert forall i | 0 <= i < |list| :: result[i] == list[i] && list[i].value != value;
      assert result[|list|].value == value;
      result
  }

  /**
   * `removeBarcodeFromList`: `barcodes.filter(code => code.value !== value)`,
   * keeping the other entries in their order.
   */
  function RemoveBarcode(list: seq<Entry>, value: string): (result: seq<Entry>)
    ensures !Contains(result, value)
    ensures forall e | e in result :: e in list
    decreases |list|
  {
    if |list| == 0 then []
    else
      var rest := RemoveBarcode(list[1..], value);
      assert forall e | e in rest :: e in list;
      if list[0].value != value then [list[0]] + rest else rest
  }

  /** An entry survives the removal exactly when its value differs from the removed one. */
  lemma {:induction false} RemoveKeepsOthers(list: seq<Entry>, value: string, e: Entry)
    ensures e in RemoveBarcode(list, value) <==> e in list && e.value != value
    decreases |list|
  {
    if |list| > 0 {
      RemoveKeepsOthers(list[1..], value, e);
      assert e in list <==> e == list[0] || e in list[1..] by {
        assert list == [list[0]] + list[1..];
      }
    }
  }

  /** Removal never introduces a duplicate. */
  lemma {:induction false} RemoveKeepsValuesUnique(list: seq<Entry>, value: string)
    requires ValuesUnique(list)
    ensures ValuesUnique(RemoveBarcode(list, value))
    decreases |list|
  {
    if |list| > 0 {
      var rest := RemoveBarcode(list[1..], value);
      assert ValuesUnique(list[1..]) by {
        forall i, j | 0 <= i < j < |list| - 1
          ensures list[1..][i].value != list[1..][j].value
        {
          assert list[1..][i] == list[i + 1] && list[1..][j] == list[j + 1];
        }
      }
      RemoveKeepsValuesUnique(list[1..], value);
      forall k | 0 <= k < |rest|
        ensures rest[k].value != list[0].value
      {
        assert rest[k] in list[1..];
        var m :| 0 <= m < |list| - 1 && list[1..][m] == rest[k];
        assert list[m + 1] == rest[k];
      }
    }
  }

  /** Filtering distributes over concatenation, which is what "keeps the order" means. */
  lemma {:induction false} RemoveDistributes(a: seq<Entry>, b: seq<Entry>, value: string)
    ensures RemoveBarcode(a + b, value) == RemoveBarcode(a, value) + RemoveBarcode(b, value)
    decreases |a|
  {
    if |a| > 0 {
      RemoveDistributes(a[1..], b, value);
      assert (a + b)[1..] == a[1..] + b;
    } else {
      assert a + b == b;
    }
  }

  /** Removing an absent value leaves the list as it is. */
  lemma {:induction false} RemoveAbsent(list: seq<Entry>, value: string)
    requires !Contains(list, value)
    ensures RemoveBarcode(list, value) == list
    decreases |list|
  {
    if |list| > 0 {
      assert !Contains(list[1..], value) by {
        forall i | 0 <= i < |list| - 1
          ensures list[1..][i].value != value
        {
          assert list[1..][i] == list[i + 1];
        }
      }
      RemoveAbsent(list[1..], value);
      assert list == [list[0]] + list[1..];
    }
  }

  /**
   * In a list without duplicate values, removing the value of entry `i`
   * deletes exactly that entry.
   */
  lemma RemoveDeletesTheOneEntry(list: seq<Entry>, value: string, i: nat)
    requires ValuesUnique(list) && i < |list| && list[i].value == value
    ensures RemoveBarcode(list, value) == list[..i] + list[i + 1..]
  {
    var before, after := list[..i], list[i + 1..];
    assert list == before + [list[i]] + after;
    RemoveDistributes(before + [list[i]], after, value);
    RemoveDistributes(before, [list[i]], value);
    OnlyEntryWithItsValue(list, i);
    RemoveAbsent(before, value);
    RemoveAbsent(after, value);
    assert RemoveBarcode([list[i]], value) == [] by {
      assert [list[i]][1..] == [];
    }
  }

  /** In a list without duplicate values, no entry but `i` holds the value of entry `i`. */
  lemma OnlyEntryWithItsValue(list: seq<Entry>, i: nat)
    requires ValuesUnique(list) && i < |list|
    ensures !Contains(list[..i], list[i].value) && !Contains(list[i + 1..], list[i].value)
  {
    var before, after := list[..i], list[i + 1..];
    forall j | 0 <= j < |before|
      ensures before[j].value != list[i].value
    {
      assert before[j] == list[j];
    }
    forall j | 0 <= j < |after|
      ensures after[j].value != list[i].value
    {
      assert after[j] == list[i + 1 + j];
    }
  }

  /** After a value is removed, detecting it again appends it anew. */
  lemma RedetectAfterRemove(list: seq<Entry>, value: string, timestamp: string)
    ensures OnDecode(RemoveBarcode(list, value), value, timestamp) ==
              RemoveBarcode(list, value) + [Entry(value, timestamp)]
  {
  }

  /** `clearAllBarcodes`: the list is emptied only when the user confirms. */
  function ClearAll(list: seq<Entry>, confirmed: bool): (result: seq<Entry>)
    ensures confirmed ==> result == []
    ensures !confirmed ==> result == list
  {
    if confirmed then [] else list
  }

  /** What the user can do to the list. */
  datatype Action =
    | Decoded(value: string, timestamp: string)
    | RemoveClicked(value: string)
    | ClearClicked(confirmed: bool)

  function Step(list: seq<Entry>, action: Action): seq<Entry> {
    match action
    case Decoded(value, timestamp) => OnDecode(list, value, timestamp)
    case RemoveClicked(value) => RemoveBarcode(list, value)
    case ClearClicked(confirmed) => ClearAll(list, confirmed)
  }

  /** The list after a sequence of actions, first action first. */
  function Run(list: seq<Entry>, actions: seq<Action>): seq<Entry>
    decreases |actions|
  {
    if |actions| == 0 then list else Run(Step(list, actions[0]), actions[1..])
  }

  /**
   * A confirmed clear leaves nothing behind: the label counts "0 códigos",
   * the next detection starts a list of its own entry alone, and what a
   * confirmed clear followed by any actions gives does not depend on the
   * list before it. A declined clear is no step at all.
   */
  lemma ClearConsequences(list: seq<Entry>, value: string, timestamp: string, actions: seq<Action>)
    ensures CountLabel(Step(list, ClearClicked(true))) == "Total: 0 códigos"
    ensures Run(list, [ClearClicked(true), Decoded(value, timestamp)]) == [Entry(value, timestamp)]
    ensures Run(list, [ClearClicked(true)] + actions) == Run([], actions)
    ensures Run(list, [ClearClicked(false)] + actions) == Run(list, actions)
  {
    assert ([ClearClicked(true)] + actions)[1..] == actions;
    assert ([ClearClicked(false)] + actions)[1..] == actions;
    assert [ClearClicked(true), Decoded(value, timestamp)][1..] == [Decoded(value, timestamp)];
    assert !Contains([], value);
    assert OnDecode([], value, timestamp) == [Entry(value, timestamp)];
    assert [Decoded(value, timestamp)][1..] == [];
    assert Run([], [Decoded(value, timestamp)]) == Run([Entry(value, timestamp)], []);
    assert NatToString(0) == "0";
  }

  /** No sequence of detections, removals and clears ever lists a value twice. */
  lemma {:induction false} RunKeepsValuesUnique(list: seq<Entry>, actions: seq<Action>)
    requires ValuesUnique(list)
    ensures ValuesUnique(Run(list, actions))
    decreases |actions|
  {
    if |actions| > 0 {
      if actions[0].RemoveClicked? {
        RemoveKeepsValuesUnique(list, actions[0].value);
      }
      RunKeepsValuesUnique(Step(list, actions[0]), actions[1..]);
    }
  }

  /** A session starts with the empty list, so its list never holds a value twice. */
  lemma SessionValuesUnique(actions: seq<Action>)
    ensures ValuesUnique(Run([], actions))
  {
    RunKeepsValuesUnique([], actions);
  }

  /**
   * `updateTotalCount`: "Total: n código" for a list of n entries, with a
   * trailing "s" unless n is 1.
   */
  function CountLabel(list: seq<Entry>): string {
    "Total: " + NatToString(|list|) + " código" + (if |list| != 1 then "s" else "")
  }

  /**
   * The label reads back as the number of entries: after "Total: " come the
   * decimal digits of that number, then " código", then "s" exactly when
   * the number is not 1.
   */
  lemma CountLabelStatesCount(list: seq<Entry>)
    ensures var text := CountLabel(list);
            var n := |list|;
            var suffix := if n != 1 then 8 else 7;
            |text| > 7 + suffix &&
            text[..7] == "Total: " &&
            text[|text| - suffix..|text| - suffix + 7] == " código" &&
            IsDigits(text[7..|text| - suffix]) &&
            DecimalValue(text[7..|text| - suffix]) == n &&
            (text[|text| - 1] == 's' <==> n != 1)
  {
    var text := CountLabel(list);
    var n := |list|;
    var digits := NatToString(n);
    var tail := " código" + (if n != 1 then "s" else "");
    var suffix := if n != 1 then 8 else 7;
    assert |"Total: "| == 7 && |tail| == suffix;
    assert text == "Total: " + digits + tail;
    assert text == "Total: " + (digits + tail);
    assert text[7..] == digits + tail;
    assert text[7..|text| - suffix] == digits;
    assert text[|text| - suffix..] == tail;
    assert text[|text| - suffix..|text| - suffix + 7] == tail[..7] == " código";
    assert text[|text| - 1] == tail[suffix - 1];
    DecimalRoundTrip(n);
  }
}
