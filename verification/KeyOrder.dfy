/** Equality of JSON values up to key order, and canonical text as its decision procedure (bt-core, types.rs). */
module KeyOrder {
  import opened CanonicalJson

  function Keys(entries: seq<Entry>): set<string> {
    set e | e in entries :: e.key
  }

  function Lookup(entries: seq<Entry>, key: string): (value: Json)
    requires key in Keys(entries)
    ensures Entry(key, value) in entries
  {
    if entries[0].key == key then entries[0].value else Lookup(entries[1..], key)
  }

  predicate Distinct(entries: seq<Entry>) {
    forall i, j :: 0 <= i < j < |entries| ==> entries[i].key != entries[j].key
  }

  /** No object has a repeated key, at any depth. */
  predicate UniqueKeys(v: Json)
    decreases v
  {
    match v
    case Arr(items) => forall i :: 0 <= i < |items| ==> UniqueKeys(items[i])
    case Obj(entries) => Distinct(entries) && forall i :: 0 <= i < |entries| ==> UniqueKeys(entries[i].value)
    case _ => true
  }

  /** Equal up to key order at every depth. */
  predicate Same(a: Json, b: Json)
    decreases a
  {
    match (a, b)
    case (Arr(xs), Arr(ys)) => |xs| == |ys| && forall i :: 0 <= i < |xs| ==> Same(xs[i], ys[i])
    case (Obj(xs), Obj(ys)) =>
      |xs| == |ys| && forall i :: 0 <= i < |xs| ==> xs[i].key in Keys(ys) && Same(xs[i].value, Lookup(ys, xs[i].key))
    case (_, _) => a == b
  }

  /** Keys are compared at their first difference, and a key comes before its extensions. */
  lemma {:induction false} LessAtFirstDifference(common: string, x: char, y: char, s: string, t: string)
    requires x != y
    ensures Less(common + ([x] + s), common + ([y] + t)) <==> x < y
    ensures Less(common, common + ([x] + s))
  {
    var a, b := common + ([x] + s), common + ([y] + t);
    if common == "" {
      assert a == [x] + s && b == [y] + t;
    } else {
      assert a[1..] == common[1..] + ([x] + s) && b[1..] == common[1..] + ([y] + t);
      LessAtFirstDifference(common[1..], x, y, s, t);
    }
  }

  function SampleList(): Json { Arr([Null, Bool(true), Number("1")]) }

  function SampleString(): Json { Str("x\U{1f}") }

  lemma SampleListText()
    ensures Text(SampleList()) == "[null,true,1]" && Canon(SampleList()) == SampleList()
  {
    var items := [Null, Bool(true), Number("1")];
    assert items[1..] == [Bool(true), Number("1")] && items[1..][1..] == [Number("1")] && items[1..][1..][1..] == [];
    assert MoreItems(items[1..][1..]) == "," + "1" + "";
    assert MoreItems(items[1..]) == "," + "true" + ",1";
    assert CanonItems(items) == items;
  }

  lemma SampleStringText()
    ensures Text(SampleString()) == "\"x\\u001f\"" && Canon(SampleString()) == SampleString()
  {
    var text := "x\U{1f}";
    assert text[1..] == "\U{1f}" && text[1..][1..] == "";
    assert Escape(text[1..]) == "\\u001f" + "";
  }

  lemma SampleOrder(first: Entry, second: Entry)
    requires first.key == "b" && second.key == "a"
    requires Canon(first.value) == first.value && Canon(second.value) == second.value
    ensures Canon(Obj([first, second])) == Obj([second, first])
  {
    var canon := CanonEntries([first, second]);
    assert canon == [first, second];
    assert canon[..1] == [first] && canon[..1][..0] == [];
    assert SortEntries(canon[..1]) == [first];
    assert Less("a", "b");
  }

  lemma SampleEntries(first: Entry, second: Entry)
    ensures Text(Obj([second, first])) == "{" + EntryText(second) + "," + EntryText(first) + "}"
  {
    hide EntryText;
    var entries := [second, first];
    assert entries[1..] == [first] && entries[1..][1..] == [];
    assert MoreEntries([first]) == "," + EntryText(first) + "";
  }

  /** One object printed: keys in order, strings escaped, no spaces. */
  lemma CanonicalSample()
    ensures Canonical(Obj([Entry("b", SampleList()), Entry("a", SampleString())]))
         == "{" + ("\"a\"" + ":" + "\"x\\u001f\"") + "," + ("\"b\"" + ":" + "[null,true,1]") + "}"
  {
    var first, second := Entry("b", SampleList()), Entry("a", SampleString());
    SampleListText();
    SampleStringText();
    SampleKey("a");
    SampleKey("b");
    hide *;
    SampleOrder(first, second);
    SampleEntries(first, second);
    SampleEntry(first);
    SampleEntry(second);
    SampleCanonical(Obj([first, second]));
  }

  lemma SampleEntry(entry: Entry)
    ensures EntryText(entry) == Quote(entry.key) + ":" + Text(entry.value)
  {
  }

  lemma SampleCanonical(v: Json)
    ensures Canonical(v) == Text(Canon(v))
  {
  }

  lemma SampleKey(key: string)
    requires key == "a" || key == "b"
    ensures Quote(key) == if key == "a" then "\"a\"" else "\"b\""
  {
    assert key[1..] == "" && Escape(key) == key;
  }

  // ---- Key order is total ----

  lemma {:induction false} LessTotal(a: string, b: string)
    ensures Less(a, b) || Less(b, a) || a == b
    ensures !(Less(a, b) && Less(b, a)) && !Less(a, a)
  {
    if a != "" && b != "" && a[0] == b[0] {
      LessTotal(a[1..], b[1..]);
      assert a == [a[0]] + a[1..] && b == [b[0]] + b[1..];
    } else if a != "" {
      LessIrreflexive(a);
    }
  }

  lemma {:induction false} LessIrreflexive(a: string)
    ensures !Less(a, a)
  {
    if a != "" { LessIrreflexive(a[1..]); }
  }

  lemma {:induction false} LessTransitive(a: string, b: string, c: string)
    requires Less(a, b) && Less(b, c)
    ensures Less(a, c)
  {
    if a != "" && a[0] == b[0] && b[0] == c[0] { LessTransitive(a[1..], b[1..], c[1..]); }
  }

  // ---- Sorting ----

  predicate Sorted(entries: seq<Entry>) {
    forall i, j :: 0 <= i < j < |entries| ==> Less(entries[i].key, entries[j].key)
  }

  lemma HeadLess(head: Entry, rest: seq<Entry>)
    requires Sorted(rest) && forall e :: e in rest ==> Less(head.key, e.key)
    ensures Sorted([head] + rest)
  {
  }

  lemma {:induction false} InsertKeeps(sorted: seq<Entry>, entry: Entry)
    requires Sorted(sorted) && entry.key !in Keys(sorted)
    ensures Sorted(InsertEntry(sorted, entry))
    ensures multiset(InsertEntry(sorted, entry)) == multiset(sorted) + multiset{entry}
  {
    if sorted != [] {
      hide Less;
      var head, rest := sorted[0], sorted[1..];
      assert sorted == [head] + rest;
      LessTotal(entry.key, head.key);
      if Less(entry.key, head.key) {
        forall e | e in sorted ensures Less(entry.key, e.key) {
          if e != head { LessTransitive(entry.key, head.key, e.key); }
        }
        HeadLess(entry, sorted);
      } else {
        assert head in sorted;
        InsertKeeps(rest, entry);
        var inserted := InsertEntry(rest, entry);
        forall e | e in inserted ensures Less(head.key, e.key) {
          assert e in multiset(inserted);
          assert e == entry || e in rest;
        }
        HeadLess(head, inserted);
      }
    }
  }

  lemma SameMembers(a: seq<Entry>, b: seq<Entry>)
    requires multiset(a) == multiset(b)
    ensures Keys(a) == Keys(b) && |a| == |b|
    ensures forall e :: e in a <==> e in b
  {
    assert forall e :: e in a <==> e in multiset(a);
    assert forall e :: e in b <==> e in multiset(b);
    assert |multiset(a)| == |multiset(b)|;
  }

  lemma {:induction false} SortKeeps(entries: seq<Entry>)
    requires Distinct(entries)
    ensures Sorted(SortEntries(entries)) && multiset(SortEntries(entries)) == multiset(entries)
  {
    if entries != [] {
      var init, last := entries[..|entries| - 1], entries[|entries| - 1];
      assert entries == init + [last];
      SortKeeps(init);
      SameMembers(SortEntries(init), init);
      InsertKeeps(SortEntries(init), last);
    }
  }

  /** Sorted sequences with the same members are equal. */
  lemma {:induction false} SortedUnique(a: seq<Entry>, b: seq<Entry>)
    requires Sorted(a) && Sorted(b) && |a| == |b| && forall e :: e in a <==> e in b
    ensures a == b
  {
    hide Less;
    if a != [] {
      assert a[0] in b;
      assert b[0] in a;
      var i :| 0 <= i < |b| && b[i] == a[0];
      var j :| 0 <= j < |a| && a[j] == b[0];
      LessTotal(a[0].key, b[0].key);
      assert i == 0 && j == 0;
      TailOf(a);
      TailOf(b);
      SortedUnique(a[1..], b[1..]);
      assert a == [a[0]] + a[1..] && b == [b[0]] + b[1..];
    }
  }

  lemma TailOf(a: seq<Entry>)
    requires a != [] && Sorted(a)
    ensures forall e :: e in a[1..] <==> e in a && e != a[0]
  {
    hide Less;
    LessTotal(a[0].key, a[0].key);
    forall e | e in a[1..] ensures e != a[0] {
      var k :| 0 < k < |a| && a[k] == e;
      assert Less(a[0].key, a[k].key);
    }
    assert a == [a[0]] + a[1..];
  }

  // ---- Canonical values ----

  lemma {:induction false} CanonKeys(entries: seq<Entry>)
    requires Distinct(entries)
    ensures Distinct(CanonEntries(entries)) && Keys(CanonEntries(entries)) == Keys(entries)
    ensures Sorted(SortEntries(CanonEntries(entries)))
    ensures forall e :: e in SortEntries(CanonEntries(entries)) <==> e in CanonEntries(entries)
    ensures |SortEntries(CanonEntries(entries))| == |entries|
  {
    hide Canon, SortEntries, Sorted;
    var canon := CanonEntries(entries);
    forall k | k in Keys(entries) ensures k in Keys(canon) {
      var e :| e in entries && e.key == k;
      var i :| 0 <= i < |entries| && entries[i] == e;
      assert canon[i] in canon;
    }
    SortKeeps(canon);
    SameMembers(SortEntries(canon), canon);
  }

  lemma LookupDistinct(entries: seq<Entry>, e: Entry)
    requires Distinct(entries) && e in entries
    ensures e.key in Keys(entries) && Lookup(entries, e.key) == e.value
  {
    var i :| 0 <= i < |entries| && entries[i] == e;
    var other := Entry(e.key, Lookup(entries, e.key));
    var j :| 0 <= j < |entries| && entries[j] == other;
  }

  /** Canonical values are equal exactly when the values are the same up to key order. */
  lemma {:induction false} CanonDecides(a: Json, b: Json)
    requires UniqueKeys(a) && UniqueKeys(b)
    ensures Canon(a) == Canon(b) <==> Same(a, b)
    decreases a
  {
    match (a, b) {
      case (Arr(xs), Arr(ys)) =>
        if |xs| == |ys| {
          forall i | 0 <= i < |xs| ensures Canon(xs[i]) == Canon(ys[i]) <==> Same(xs[i], ys[i]) {
            CanonDecides(xs[i], ys[i]);
          }
          ItemsDecide(xs, ys);
        }
      case (Obj(xs), Obj(ys)) =>
        forall i, j | 0 <= i < |xs| && 0 <= j < |ys|
          ensures Canon(xs[i].value) == Canon(ys[j].value) <==> Same(xs[i].value, ys[j].value) {
          CanonDecides(xs[i].value, ys[j].value);
        }
        ObjectsDecide(xs, ys);
      case (_, _) =>
    }
  }

  lemma ItemsDecide(xs: seq<Json>, ys: seq<Json>)
    requires |xs| == |ys|
    requires forall i :: 0 <= i < |xs| ==> (Canon(xs[i]) == Canon(ys[i]) <==> Same(xs[i], ys[i]))
    ensures CanonItems(xs) == CanonItems(ys) <==> forall i :: 0 <= i < |xs| ==> Same(xs[i], ys[i])
  {
    hide Canon, Same;
    var a, b := CanonItems(xs), CanonItems(ys);
    if forall i :: 0 <= i < |xs| ==> Same(xs[i], ys[i]) {
      assert forall i :: 0 <= i < |a| ==> a[i] == b[i];
    }
    if a == b {
      forall i | 0 <= i < |xs| ensures Same(xs[i], ys[i]) { assert a[i] == b[i]; }
    }
  }

  lemma {:induction false} ObjectsDecide(xs: seq<Entry>, ys: seq<Entry>)
    requires Distinct(xs) && Distinct(ys)
    requires forall i, j :: 0 <= i < |xs| && 0 <= j < |ys| ==>
      (Canon(xs[i].value) == Canon(ys[j].value) <==> Same(xs[i].value, ys[j].value))
    ensures SortEntries(CanonEntries(xs)) == SortEntries(CanonEntries(ys)) <==> Same(Obj(xs), Obj(ys))
  {
    var a, b := CanonEntries(xs), CanonEntries(ys);
    hide Canon, SortEntries, Sorted;
    CanonKeys(xs);
    CanonKeys(ys);
    if Same(Obj(xs), Obj(ys)) {
      hide Same;
      MatchedMembers(xs, ys);
      SortedUnique(SortEntries(a), SortEntries(b));
    }
    if SortEntries(a) == SortEntries(b) {
      forall i | 0 <= i < |xs| ensures xs[i].key in Keys(ys) && Same(xs[i].value, Lookup(ys, xs[i].key)) {
        assert a[i] in a;
        assert a[i] in b;
        var j :| 0 <= j < |b| && b[j] == a[i];
        LookupDistinct(ys, ys[j]);
      }
    }
  }

  lemma MatchAt(xs: seq<Entry>, ys: seq<Entry>, i: nat)
    requires Same(Obj(xs), Obj(ys)) && i < |xs|
    requires forall j :: 0 <= j < |ys| ==>
      (Canon(xs[i].value) == Canon(ys[j].value) <==> Same(xs[i].value, ys[j].value))
    ensures xs[i].key in Keys(ys) && CanonEntries(xs)[i] in CanonEntries(ys)
  {
    hide Canon;
    var at := Entry(xs[i].key, Lookup(ys, xs[i].key));
    var j :| 0 <= j < |ys| && ys[j] == at;
    assert CanonEntries(ys)[j] == CanonEntries(xs)[i];
  }

  lemma MatchedMembers(xs: seq<Entry>, ys: seq<Entry>)
    requires Distinct(xs) && Distinct(ys) && Same(Obj(xs), Obj(ys))
    requires forall i, j :: 0 <= i < |xs| && 0 <= j < |ys| ==>
      (Canon(xs[i].value) == Canon(ys[j].value) <==> Same(xs[i].value, ys[j].value))
    ensures forall e :: e in CanonEntries(xs) <==> e in CanonEntries(ys)
  {
    var a, b := CanonEntries(xs), CanonEntries(ys);
    assert |xs| == |ys|;
    hide Canon, Same;
    forall i | 0 <= i < |xs| ensures a[i] in b && xs[i].key in Keys(ys) { MatchAt(xs, ys, i); }
    SameSize(xs, ys);
    forall j | 0 <= j < |ys| ensures b[j] in a { CoveredBack(xs, ys, j); }
  }

  lemma IndexOfKey(xs: seq<Entry>, ys: seq<Entry>, j: nat) returns (i: nat)
    requires Keys(xs) == Keys(ys) && j < |ys|
    ensures i < |xs| && xs[i].key == ys[j].key
  {
    assert ys[j] in ys;
    assert ys[j].key in Keys(xs);
    var x :| x in xs && x.key == ys[j].key;
    i :| 0 <= i < |xs| && xs[i] == x;
  }

  lemma CanonKeeps(xs: seq<Entry>, i: nat)
    requires i < |xs|
    ensures |CanonEntries(xs)| == |xs| && CanonEntries(xs)[i].key == xs[i].key
  {
    hide Canon;
  }

  lemma CoveredBack(xs: seq<Entry>, ys: seq<Entry>, j: nat)
    requires Distinct(ys) && Keys(xs) == Keys(ys) && j < |ys|
    requires forall i :: 0 <= i < |xs| ==> CanonEntries(xs)[i] in CanonEntries(ys)
    ensures CanonEntries(ys)[j] in CanonEntries(xs)
  {
    var a, b := CanonEntries(xs), CanonEntries(ys);
    var i := IndexOfKey(xs, ys, j);
    CanonKeeps(xs, i);
    hide Canon, CanonEntries, Keys;
    assert a[i] in b;
    var k :| 0 <= k < |b| && b[k] == a[i];
    CanonKeeps(ys, k);
    assert k == j;
    assert a[i] in a;
  }

  lemma {:induction false} KeyCount(entries: seq<Entry>)
    requires Distinct(entries)
    ensures |Keys(entries)| == |entries|
  {
    if entries != [] {
      var init, last := entries[..|entries| - 1], entries[|entries| - 1];
      assert entries == init + [last];
      KeyCount(init);
      assert Keys(entries) == Keys(init) + {last.key};
      assert last.key !in Keys(init);
    }
  }

  lemma SameSize(xs: seq<Entry>, ys: seq<Entry>)
    requires Distinct(xs) && Distinct(ys) && |xs| == |ys| && Keys(xs) <= Keys(ys)
    ensures Keys(xs) == Keys(ys)
  {
    KeyCount(xs);
    KeyCount(ys);
    SubsetOfSize(Keys(xs), Keys(ys));
  }

  lemma SubsetOfSize(a: set<string>, b: set<string>)
    requires a <= b && |a| == |b|
    ensures a == b
  {
    assert |b - a| == |b| - |a|;
    assert b == a + (b - a);
  }

  lemma {:induction false} CanonWellFormed(v: Json)
    requires WellFormed(v) && UniqueKeys(v)
    ensures WellFormed(Canon(v))
    decreases v
  {
    match v {
      case Arr(items) =>
        forall i | 0 <= i < |items| ensures WellFormed(Canon(items[i])) { CanonWellFormed(items[i]); }
      case Obj(entries) =>
        forall i | 0 <= i < |entries| ensures WellFormed(Canon(entries[i].value)) { CanonWellFormed(entries[i].value); }
        SortedValuesWellFormed(entries);
        WellFormedSorted(entries, SortEntries(CanonEntries(entries)));
      case _ =>
    }
  }

  lemma SortedValuesWellFormed(entries: seq<Entry>)
    requires Distinct(entries) && forall i :: 0 <= i < |entries| ==> WellFormed(Canon(entries[i].value))
    ensures var sorted := SortEntries(CanonEntries(entries));
      forall i :: 0 <= i < |sorted| ==> WellFormed(sorted[i].value)
  {
    hide Canon, WellFormed, SortEntries, Keys, Distinct, Sorted;
    CanonKeys(entries);
    var canon := CanonEntries(entries);
    var sorted := SortEntries(canon);
    forall i | 0 <= i < |sorted| ensures WellFormed(sorted[i].value) {
      assert sorted[i] in canon;
      var j :| 0 <= j < |canon| && canon[j] == sorted[i];
    }
  }

  lemma WellFormedSorted(entries: seq<Entry>, sorted: seq<Entry>)
    requires sorted == SortEntries(CanonEntries(entries))
      && forall i :: 0 <= i < |sorted| ==> WellFormed(sorted[i].value)
    ensures WellFormed(Canon(Obj(entries)))
  {
  }

  /** `canonical_json` is unambiguous: two values print the same text iff they are equal up to key order. */
  lemma CanonicalIsUnambiguous(a: Json, b: Json)
    requires UniqueKeys(a) && UniqueKeys(b) && WellFormed(a) && WellFormed(b)
    ensures Canonical(a) == Canonical(b) <==> Same(a, b)
  {
    hide Canon, Text, Same, UniqueKeys, WellFormed;
    CanonDecides(a, b);
    CanonWellFormed(a);
    CanonWellFormed(b);
    if Canonical(a) == Canonical(b) {
      assert Text(Canon(a)) + "" == Text(Canon(b)) + "";
      TextPrefixFree(Canon(a), Canon(b), "", "");
    }
  }
}
