/**
 The room list message of include/tavernmx/messaging.h: a JSON object, which keeps its entries
 sorted by key, filled with the decimal numbers 0, 1, 2, ... as keys.
 */
module RoomLists {
  import opened Collections
  import opened Messages

  datatype Entry = Entry(key: string, value: string)

  /** The order of keys: by character, a prefix before what extends it. */
  predicate Before(a: string, b: string) {
    b != "" && (a == "" || a[0] < b[0] || (a[0] == b[0] && Before(a[1..], b[1..])))
  }

  lemma {:induction false} BeforeIsStrict(a: string, b: string, c: string)
    ensures !Before(a, a)
    ensures Before(a, b) ==> !Before(b, a)
    ensures a != b ==> Before(a, b) || Before(b, a)
    ensures Before(a, b) && Before(b, c) ==> Before(a, c)
  {
    if a != "" {
      BeforeIsStrict(a[1..], if b == "" then "" else b[1..], if c == "" then "" else c[1..]);
      if b != "" && a[0] == b[0] {
        assert a == [a[0]] + a[1..] && b == [b[0]] + b[1..];
      }
    }
  }

  /** `entries[key] = value` */
  function Set(entries: seq<Entry>, key: string, value: string): seq<Entry> {
    if entries == [] || Before(key, entries[0].key) then [Entry(key, value)] + entries
    else if entries[0].key == key then [Entry(key, value)] + entries[1..]
    else [entries[0]] + Set(entries[1..], key, value)
  }

  function Decimal(n: nat): string {
    (if n < 10 then "" else Decimal(n / 10)) + [Digit(n % 10)]
  }

  function Digit(n: nat): char
    requires n < 10
  {
    ('0' as int + n) as char
  }

  lemma {:induction false} DecimalsDiffer(m: nat, n: nat)
    requires m != n
    ensures Decimal(m) != Decimal(n)
  {
    if Decimal(m) == Decimal(n) {
      assert Decimal(m)[|Decimal(m)| - 1] == Digit(m % 10);
      assert Decimal(n)[|Decimal(n)| - 1] == Digit(n % 10);
      assert Decimal(m)[..|Decimal(m)| - 1] == if m < 10 then "" else Decimal(m / 10);
      assert Decimal(n)[..|Decimal(n)| - 1] == if n < 10 then "" else Decimal(n / 10);
      if m >= 10 && n >= 10 {
        DecimalsDiffer(m / 10, n / 10);
      }
    }
  }

  /** The entries after the first `|names|` rounds of the loop. */
  function Listed(names: seq<string>): seq<Entry> {
    if names == [] then []
    else Set(Listed(names[..|names| - 1]), Decimal(|names| - 1), names[|names| - 1])
  }

  function ValuesOf(entries: seq<Entry>): (values: seq<string>)
    ensures |values| == |entries|
    ensures forall i :: 0 <= i < |entries| ==> values[i] == entries[i].value
  {
    seq(|entries|, i requires 0 <= i < |entries| => entries[i].value)
  }

  /** The message the server sends: the names in the order an iteration over the object meets them. */
  function ListOf(names: seq<string>): Message {
    RoomList(ValuesOf(Listed(names)))
  }

  method CreateRoomList(names: seq<string>) returns (m: Message)
    ensures m == ListOf(names)
  {
    var entries: seq<Entry> := [];
    for i := 0 to |names|
      invariant entries == Listed(names[..i])
    {
      assert names[..i + 1][..i] == names[..i];
      entries := Set(entries, Decimal(i), names[i]);
    }
    assert names[..|names|] == names;
    m := RoomList(ValuesOf(entries));
  }

  ghost predicate Sorted(entries: seq<Entry>) {
    forall i, j :: 0 <= i < j < |entries| ==> Before(entries[i].key, entries[j].key)
  }

  predicate HasKey(entries: seq<Entry>, key: string) {
    exists i :: 0 <= i < |entries| && entries[i].key == key
  }

  lemma StaysFirst(first: Entry, rest: seq<Entry>, after: seq<Entry>, added: Entry)
    requires Sorted([first] + rest) && Sorted(after) && Before(first.key, added.key)
    requires Elements(after) == Elements(rest) + {added}
    ensures Sorted([first] + after)
    ensures Elements([first] + after) == {first} + Elements(rest) + {added}
  {
    var all := [first] + rest;
    assert all[0] == first;
    forall j | 0 <= j < |after|
      ensures Before(first.key, after[j].key)
    {
      assert after[j] in Elements(rest) + {added};
      if after[j] != added {
        var k :| 0 <= k < |rest| && rest[k] == after[j];
        assert Before(all[0].key, all[k + 1].key);
      }
    }
    assert Elements([first] + after) == {first} + Elements(after);
  }

  /** Setting a new key inserts one entry, and keeps the rest and the order. */
  lemma {:induction false} SetInserts(entries: seq<Entry>, key: string, value: string)
    requires Sorted(entries) && !HasKey(entries, key)
    ensures Sorted(Set(entries, key, value))
    ensures |Set(entries, key, value)| == |entries| + 1
    ensures Elements(Set(entries, key, value)) == Elements(entries) + {Entry(key, value)}
  {
    if entries == [] {
    } else if Before(key, entries[0].key) {
      forall j | 0 <= j < |entries|
        ensures Before(key, entries[j].key)
      {
        BeforeIsStrict(key, entries[0].key, entries[j].key);
      }
    } else {
      var rest := entries[1..];
      assert entries == [entries[0]] + rest;
      assert forall i :: 0 <= i < |rest| ==> rest[i] == entries[i + 1];
      SetInserts(rest, key, value);
      BeforeIsStrict(key, entries[0].key, "");
      StaysFirst(entries[0], rest, Set(rest, key, value), Entry(key, value));
      assert Elements(entries) == {entries[0]} + Elements(rest);
    }
  }

  lemma {:induction false} ListedEntries(names: seq<string>)
    ensures Sorted(Listed(names)) && |Listed(names)| == |names|
    ensures Elements(Listed(names)) ==
            set i | 0 <= i < |names| :: Entry(Decimal(i), names[i])
  {
    if names != [] {
      var n := |names| - 1;
      var earlier := Listed(names[..n]);
      ListedEntries(names[..n]);
      assert !HasKey(earlier, Decimal(n)) by {
        forall i | 0 <= i < |earlier|
          ensures earlier[i].key != Decimal(n)
        {
          assert earlier[i] in Elements(earlier);
          var k :| 0 <= k < n && earlier[i] == Entry(Decimal(k), names[..n][k]);
          DecimalsDiffer(k, n);
        }
      }
      SetInserts(earlier, Decimal(n), names[n]);
    }
  }

  /** The list carries exactly the names, each once. */
  lemma ListCarriesNames(names: seq<string>)
    ensures Elements(ListOf(names).names) == Elements(names)
    ensures |ListOf(names).names| == |names|
  {
    ListedEntries(names);
    var entries := Listed(names);
    forall i | 0 <= i < |names|
      ensures names[i] in ListOf(names).names
    {
      assert Entry(Decimal(i), names[i]) in Elements(entries);
      var k :| 0 <= k < |entries| && entries[k] == Entry(Decimal(i), names[i]);
      assert ListOf(names).names[k] == names[i];
    }
    forall k | 0 <= k < |entries|
      ensures ListOf(names).names[k] in names
    {
      assert entries[k] in Elements(entries);
    }
  }

  lemma OneDigit(i: nat, n: nat)
    requires i < n < 10
    ensures Decimal(i) != Decimal(n) && !Before(Decimal(n), Decimal(i))
  {
    assert Decimal(i) == [Digit(i)] && Decimal(n) == [Digit(n)];
  }

  /** With ten names or fewer every key is one digit, and the entries come in the order of the names. */
  lemma {:induction false} ShortListInOrder(names: seq<string>)
    requires |names| <= 10
    ensures |Listed(names)| == |names|
    ensures forall i :: 0 <= i < |names| ==> Listed(names)[i] == Entry(Decimal(i), names[i])
  {
    if names != [] {
      var n := |names| - 1;
      var earlier := names[..n];
      ShortListInOrder(earlier);
      hide Decimal, Before, Set;
      forall i | 0 <= i < n
        ensures Decimal(i) != Decimal(n) && !Before(Decimal(n), Decimal(i))
      {
        OneDigit(i, n);
      }
      SetsAtEnd(Listed(earlier), Decimal(n), names[n]);
    }
  }

  lemma {:induction false} SetsAtEnd(entries: seq<Entry>, key: string, value: string)
    requires forall i :: 0 <= i < |entries| ==> entries[i].key != key && !Before(key, entries[i].key)
    ensures Set(entries, key, value) == entries + [Entry(key, value)]
  {
    if entries != [] {
      SetsAtEnd(entries[1..], key, value);
    }
  }

  /** With more, the eleventh name's key "10" comes before the third's "2". */
  lemma LongListOutOfOrder(names: seq<string>)
    requires |names| > 10 && Distinct(names)
    ensures ListOf(names).names != names
  {
    ListedEntries(names);
    var entries := Listed(names);
    assert Entry(Decimal(10), names[10]) in Elements(entries);
    assert Entry(Decimal(2), names[2]) in Elements(entries);
    var i :| 0 <= i < |entries| && entries[i] == Entry(Decimal(10), names[10]);
    var j :| 0 <= j < |entries| && entries[j] == Entry(Decimal(2), names[2]);
    assert Decimal(1) == "1" && Decimal(10) == "1" + "0" && Decimal(2) == "2";
    assert Before(Decimal(10), Decimal(2));
    BeforeIsStrict(Decimal(10), Decimal(2), "");
    assert i < j;
    assert ListOf(names).names[i] == names[10] && ListOf(names).names[j] == names[2];
  }

  /** A client meets the rooms in the server's order exactly when there are at most ten. */
  lemma OrderKept(names: seq<string>)
    requires Distinct(names)
    ensures ListOf(names).names == names <==> |names| <= 10
  {
    if |names| <= 10 {
      ShortListInOrder(names);
      assert ListOf(names).names == names;
    } else {
      LongListOutOfOrder(names);
    }
  }
}
