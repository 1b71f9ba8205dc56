/** JSON values, their canonical text, and why that text is unambiguous (bt-core, types.rs). */
module CanonicalJson {
  import opened Wrappers

  /** A number is represented by its printed text. */
  datatype Json =
    | Null
    | Bool(value: bool)
    | Number(digits: string)
    | Str(text: string)
    | Arr(items: seq<Json>)
    | Obj(entries: seq<Entry>)

  datatype Entry = Entry(key: string, value: Json)

  // ---- Strings (section 7 of RFC 8259) ----

  function HexDigit(n: nat): char
    requires n < 16
  {
    if n < 10 then ('0' as int + n) as char else ('a' as int + (n - 10)) as char
  }

  function EscapeChar(c: char): string {
    if c == '\"' then "\\\""
    else if c == '\\' then "\\\\"
    else if c as int == 8 then "\\b"
    else if c as int == 12 then "\\f"
    else if c == '\n' then "\\n"
    else if c == '\r' then "\\r"
    else if c == '\t' then "\\t"
    else if c as int < 32 then ['\\', 'u', '0', '0', HexDigit(c as int / 16), HexDigit(c as int % 16)]
    else [c]
  }

  function Escape(s: string): string {
    if s == "" then "" else EscapeChar(s[0]) + Escape(s[1..])
  }

  function Quote(s: string): string {
    "\"" + Escape(s) + "\""
  }

  // ---- Printing in a given order ----

  function Text(v: Json): string
    decreases v, 1
  {
    match v
    case Null => "null"
    case Bool(b) => if b then "true" else "false"
    case Number(digits) => digits
    case Str(s) => Quote(s)
    case Arr(items) => "[" + ItemsText(items) + "]"
    case Obj(entries) => "{" + EntriesText(entries) + "}"
  }

  function ItemsText(items: seq<Json>): string
    decreases items, 0
  {
    if items == [] then "" else Text(items[0]) + MoreItems(items[1..])
  }

  function MoreItems(items: seq<Json>): string
    decreases items, 0
  {
    if items == [] then "" else "," + Text(items[0]) + MoreItems(items[1..])
  }

  function EntryText(entry: Entry): string
    decreases entry, 2
  {
    Quote(entry.key) + ":" + Text(entry.value)
  }

  function EntriesText(entries: seq<Entry>): string
    decreases entries, 0
  {
    if entries == [] then "" else EntryText(entries[0]) + MoreEntries(entries[1..])
  }

  function MoreEntries(entries: seq<Entry>): string
    decreases entries, 0
  {
    if entries == [] then "" else "," + EntryText(entries[0]) + MoreEntries(entries[1..])
  }

  // ---- Canonical order ----

  predicate Less(a: string, b: string) {
    b != "" && (a == "" || a[0] < b[0] || (a[0] == b[0] && Less(a[1..], b[1..])))
  }

  function InsertEntry(sorted: seq<Entry>, entry: Entry): seq<Entry> {
    if sorted == [] || Less(entry.key, sorted[0].key) then [entry] + sorted
    else [sorted[0]] + InsertEntry(sorted[1..], entry)
  }

  function SortEntries(entries: seq<Entry>): seq<Entry> {
    if entries == [] then []
    else InsertEntry(SortEntries(entries[..|entries| - 1]), entries[|entries| - 1])
  }

  /** The value with the entries of every object in key order. */
  function Canon(v: Json): Json
    decreases v, 1
  {
    match v
    case Arr(items) => Arr(CanonItems(items))
    case Obj(entries) => Obj(SortEntries(CanonEntries(entries)))
    case _ => v
  }

  function CanonItems(items: seq<Json>): (canon: seq<Json>)
    ensures |canon| == |items|
    ensures forall i :: 0 <= i < |items| ==> canon[i] == Canon(items[i])
    decreases items, 0
  {
    if items == [] then [] else [Canon(items[0])] + CanonItems(items[1..])
  }

  function CanonEntries(entries: seq<Entry>): (canon: seq<Entry>)
    ensures |canon| == |entries|
    ensures forall i :: 0 <= i < |entries| ==> canon[i] == Entry(entries[i].key, Canon(entries[i].value))
    decreases entries, 0
  {
    if entries == [] then [] else [Entry(entries[0].key, Canon(entries[0].value))] + CanonEntries(entries[1..])
  }

  /** `canonical_json`: sort the entries at every depth, then print. */
  function Canonical(v: Json): string {
    Text(Canon(v))
  }

  // ---- Escaped strings are prefix-free ----

  lemma HexInjective(m: nat, n: nat)
    requires m < 16 && n < 16 && HexDigit(m) == HexDigit(n)
    ensures m == n
  {
  }

  /** The character after the backslash, for the characters that are escaped by a letter. */
  function EscapeLetter(c: char): Option<char> {
    if c == '\"' then Some('\"') else if c == '\\' then Some('\\') else if c as int == 8 then Some('b')
    else if c as int == 12 then Some('f') else if c == '\n' then Some('n') else if c == '\r' then Some('r')
    else if c == '\t' then Some('t') else None
  }

  lemma EscapeForm(c: char)
    ensures EscapeChar(c) == if EscapeLetter(c).Some? then ['\\', EscapeLetter(c).value]
                             else if c as int < 32 then
                                   ['\\', 'u', '0', '0', HexDigit(c as int / 16), HexDigit(c as int % 16)]
                             else [c]
    ensures EscapeChar(c) != "" && EscapeChar(c)[0] != '\"'
  {
  }

  lemma EscapeCharInjective(c: char, d: char, u: string, v: string)
    requires EscapeChar(c) + u == EscapeChar(d) + v
    ensures c == d && u == v
  {
    EscapeForm(c);
    EscapeForm(d);
    hide EscapeChar, HexDigit;
    var left, right := EscapeChar(c) + u, EscapeChar(d) + v;
    assert left[0] == right[0];
    if left[0] == '\\' {
      assert left[1] == right[1];
      if EscapeLetter(c) == None && EscapeLetter(d) == None {
        assert left[4] == right[4] && left[5] == right[5];
        HexInjective(c as int / 16, d as int / 16);
        HexInjective(c as int % 16, d as int % 16);
        assert left[6..] == u && right[6..] == v;
      } else {
        assert left[2..] == u && right[2..] == v;
      }
    } else {
      assert left[1..] == u && right[1..] == v;
    }
  }

  lemma EscapeStart(a: string, s: string)
    ensures var text := Escape(a) + "\"" + s; text[0] == '\"' <==> a == ""
  {
    hide EscapeChar;
    if a != "" { EscapeForm(a[0]); }
  }

  lemma {:induction false} EscapePrefixFree(a: string, b: string, s: string, t: string)
    requires Escape(a) + "\"" + s == Escape(b) + "\"" + t
    ensures a == b && s == t
  {
    hide EscapeChar;
    EscapeStart(a, s);
    EscapeStart(b, t);
    if a == "" {
      SamePrefix("" + "\"", s, t);
    } else {
      Regroup(EscapeChar(a[0]), Escape(a[1..]), "\"", s);
      Regroup(EscapeChar(b[0]), Escape(b[1..]), "\"", t);
      EscapeCharInjective(a[0], b[0], Escape(a[1..]) + "\"" + s, Escape(b[1..]) + "\"" + t);
      EscapePrefixFree(a[1..], b[1..], s, t);
    }
  }

  lemma SamePrefix(p: string, s: string, t: string)
    requires p + s == p + t
    ensures s == t
  {
    assert (p + s)[|p|..] == s && (p + t)[|p|..] == t;
  }

  lemma Regroup(a: string, b: string, c: string, d: string)
    ensures a + b + c + d == a + (b + c + d)
  {
  }

  lemma QuotePrefixFree(a: string, b: string, s: string, t: string)
    requires Quote(a) + s == Quote(b) + t
    ensures a == b && s == t
  {
    hide Escape;
    var left, right := Escape(a) + "\"" + s, Escape(b) + "\"" + t;
    assert Quote(a) + s == "\"" + left && Quote(b) + t == "\"" + right;
    assert ("\"" + left)[1..] == left && ("\"" + right)[1..] == right;
    EscapePrefixFree(a, b, s, t);
  }

  // ---- Printed values are prefix-free up to a delimiter ----

  predicate NumberChar(c: char) {
    '0' <= c <= '9' || c == '-' || c == '+' || c == '.' || c == 'e' || c == 'E'
  }

  /** Numbers print as number text that starts with a digit or a minus sign. */
  predicate WellFormed(v: Json)
    decreases v
  {
    match v
    case Number(digits) =>
      digits != "" && ('0' <= digits[0] <= '9' || digits[0] == '-')
      && forall c :: c in digits ==> NumberChar(c)
    case Arr(items) => forall i :: 0 <= i < |items| ==> WellFormed(items[i])
    case Obj(entries) => forall i :: 0 <= i < |entries| ==> WellFormed(entries[i].value)
    case _ => true
  }

  /** What may follow a value: nothing, a comma or a closing bracket. */
  predicate Delimited(rest: string) {
    rest == "" || rest[0] == ',' || rest[0] == ']' || rest[0] == '}'
  }

  lemma NumberNotShorter(a: string, b: string, s: string, t: string)
    requires a + s == b + t && Delimited(s) && forall c :: c in b ==> NumberChar(c)
    ensures |a| >= |b|
  {
    assert |a + s| == |b + t|;
    assert |a| < |b| ==> (b + t)[|a|] == b[|a|] && NumberChar(b[|a|]);
    assert s != "" ==> (a + s)[|a|] == s[0];
  }

  lemma NumberPrefixFree(a: string, b: string, s: string, t: string)
    requires a + s == b + t && Delimited(s) && Delimited(t)
    requires (forall c :: c in a ==> NumberChar(c)) && (forall c :: c in b ==> NumberChar(c))
    ensures a == b && s == t
  {
    NumberNotShorter(a, b, s, t);
    NumberNotShorter(b, a, t, s);
    assert a == (a + s)[..|a|] && b == (b + t)[..|b|];
    assert s == (a + s)[|a|..] && t == (b + t)[|b|..];
  }

  /** The first character tells the kinds of value apart. */
  function Kind(c: char): nat {
    if c == 'n' then 0 else if c == 't' then 1 else if c == 'f' then 2 else if '0' <= c <= '9' || c == '-' then 3
    else if c == '\"' then 4 else if c == '[' then 5 else if c == '{' then 6 else 7
  }

  function KindOf(v: Json): nat {
    match v case Null => 0 case Bool(b) => if b then 1 else 2
            case Number(_) => 3 case Str(_) => 4 case Arr(_) => 5 case Obj(_) => 6
  }

  lemma TextStart(v: Json)
    requires WellFormed(v)
    ensures Text(v) != "" && Kind(Text(v)[0]) == KindOf(v)
  {
    hide ItemsText, EntriesText, Escape;
  }

  lemma DropFirst(a: string, s: string, b: string, t: string, head: string)
    requires (head + a) + s == (head + b) + t
    ensures a + s == b + t
  {
    assert (head + a) + s == head + (a + s) && (head + b) + t == head + (b + t);
    assert (head + (a + s))[|head|..] == a + s && (head + (b + t))[|head|..] == b + t;
  }

  lemma {:induction false} TextPrefixFree(a: Json, b: Json, s: string, t: string)
    requires WellFormed(a) && WellFormed(b) && Delimited(s) && Delimited(t)
    requires Text(a) + s == Text(b) + t
    ensures a == b && s == t
    decreases a, 2
  {
    TextStart(a);
    TextStart(b);
    assert Text(a)[0] == (Text(a) + s)[0] == (Text(b) + t)[0] == Text(b)[0];
    match a {
      case Number(x) => NumberPrefixFree(x, b.digits, s, t);
      case Str(x) => QuotePrefixFree(x, b.text, s, t);
      case Arr(items) =>
        hide Text, WellFormed;
        ArrayPrefixFree(items, b.items, s, t);
      case Obj(entries) =>
        hide Text, WellFormed;
        ObjectPrefixFree(entries, b.entries, s, t);
      case _ => SamePrefix(Text(a), s, t);
    }
  }

  lemma ItemsStart(xs: seq<Json>, s: string)
    requires WellFormed(Arr(xs))
    ensures var text := ItemsText(xs) + "]" + s; text[0] == ']' <==> xs == []
  {
    hide Text, MoreItems;
    if xs != [] { TextStart(xs[0]); }
  }

  lemma {:induction false} ArrayPrefixFree(xs: seq<Json>, ys: seq<Json>, s: string, t: string)
    requires WellFormed(Arr(xs)) && WellFormed(Arr(ys)) && Text(Arr(xs)) + s == Text(Arr(ys)) + t
    ensures xs == ys && s == t
    decreases xs, 1
  {
    Regroup("[", ItemsText(xs), "]", s);
    Regroup("[", ItemsText(ys), "]", t);
    SamePrefix("[", ItemsText(xs) + "]" + s, ItemsText(ys) + "]" + t);
    hide Text;
    ItemsStart(xs, s);
    ItemsStart(ys, t);
    if xs == [] {
      SamePrefix("" + "]", s, t);
    } else {
      Regroup(Text(xs[0]), MoreItems(xs[1..]), "]", s);
      Regroup(Text(ys[0]), MoreItems(ys[1..]), "]", t);
      hide MoreItems;
      MoreItemsStart(xs[1..], s);
      MoreItemsStart(ys[1..], t);
      TextPrefixFree(xs[0], ys[0], MoreItems(xs[1..]) + "]" + s, MoreItems(ys[1..]) + "]" + t);
      MoreItemsPrefixFree(xs[1..], ys[1..], s, t);
      assert xs == [xs[0]] + xs[1..] && ys == [ys[0]] + ys[1..];
    }
  }

  lemma MoreItemsStart(xs: seq<Json>, s: string)
    ensures Delimited(MoreItems(xs) + "]" + s)
    ensures (MoreItems(xs) + "]" + s)[0] == if xs == [] then ']' else ','
  {
    hide Text;
  }

  lemma {:induction false} MoreItemsPrefixFree(xs: seq<Json>, ys: seq<Json>, s: string, t: string)
    requires WellFormed(Arr(xs)) && WellFormed(Arr(ys)) && MoreItems(xs) + "]" + s == MoreItems(ys) + "]" + t
    ensures xs == ys && s == t
    decreases xs, 1
  {
    hide Text;
    MoreItemsStart(xs, s);
    MoreItemsStart(ys, t);
    if xs == [] {
      SamePrefix("" + "]", s, t);
    } else {
      var restX, restY := MoreItems(xs[1..]) + "]" + s, MoreItems(ys[1..]) + "]" + t;
      Regroup("," + Text(xs[0]), MoreItems(xs[1..]), "]", s);
      Regroup("," + Text(ys[0]), MoreItems(ys[1..]), "]", t);
      hide MoreItems;
      DropFirst(Text(xs[0]), restX, Text(ys[0]), restY, ",");
      MoreItemsStart(xs[1..], s);
      MoreItemsStart(ys[1..], t);
      TextPrefixFree(xs[0], ys[0], restX, restY);
      MoreItemsPrefixFree(xs[1..], ys[1..], s, t);
      assert xs == [xs[0]] + xs[1..] && ys == [ys[0]] + ys[1..];
    }
  }

  lemma {:induction false} EntryPrefixFree(x: Entry, y: Entry, s: string, t: string)
    requires WellFormed(x.value) && WellFormed(y.value) && Delimited(s) && Delimited(t)
    requires EntryText(x) + s == EntryText(y) + t
    ensures x == y && s == t
    decreases x, 3
  {
    hide Text, Quote, WellFormed;
    Regroup(Quote(x.key), ":", Text(x.value), s);
    Regroup(Quote(y.key), ":", Text(y.value), t);
    QuotePrefixFree(x.key, y.key, ":" + Text(x.value) + s, ":" + Text(y.value) + t);
    DropFirst(Text(x.value), s, Text(y.value), t, ":");
    TextPrefixFree(x.value, y.value, s, t);
  }

  lemma EntriesStart(xs: seq<Entry>, s: string)
    ensures var text := EntriesText(xs) + "}" + s; text[0] == '}' <==> xs == []
  {
    hide EntryText, MoreEntries;
    if xs != [] { EntryStart(xs[0]); }
  }

  lemma EntryStart(e: Entry)
    ensures EntryText(e) != "" && EntryText(e)[0] == '\"'
  {
    hide Text, Escape;
  }

  lemma {:induction false} ObjectPrefixFree(xs: seq<Entry>, ys: seq<Entry>, s: string, t: string)
    requires WellFormed(Obj(xs)) && WellFormed(Obj(ys)) && Text(Obj(xs)) + s == Text(Obj(ys)) + t
    ensures xs == ys && s == t
    decreases xs, 1
  {
    Regroup("{", EntriesText(xs), "}", s);
    Regroup("{", EntriesText(ys), "}", t);
    SamePrefix("{", EntriesText(xs) + "}" + s, EntriesText(ys) + "}" + t);
    hide Text, EntryText;
    EntriesStart(xs, s);
    EntriesStart(ys, t);
    if xs == [] {
      SamePrefix("" + "}", s, t);
    } else {
      Regroup(EntryText(xs[0]), MoreEntries(xs[1..]), "}", s);
      Regroup(EntryText(ys[0]), MoreEntries(ys[1..]), "}", t);
      hide MoreEntries;
      MoreEntriesStart(xs[1..], s);
      MoreEntriesStart(ys[1..], t);
      EntryPrefixFree(xs[0], ys[0], MoreEntries(xs[1..]) + "}" + s, MoreEntries(ys[1..]) + "}" + t);
      MoreEntriesPrefixFree(xs[1..], ys[1..], s, t);
      assert xs == [xs[0]] + xs[1..] && ys == [ys[0]] + ys[1..];
    }
  }

  lemma MoreEntriesStart(xs: seq<Entry>, s: string)
    ensures Delimited(MoreEntries(xs) + "}" + s)
    ensures (MoreEntries(xs) + "}" + s)[0] == if xs == [] then '}' else ','
  {
    hide EntryText;
  }

  lemma {:induction false} MoreEntriesPrefixFree(xs: seq<Entry>, ys: seq<Entry>, s: string, t: string)
    requires WellFormed(Obj(xs)) && WellFormed(Obj(ys)) && MoreEntries(xs) + "}" + s == MoreEntries(ys) + "}" + t
    ensures xs == ys && s == t
    decreases xs, 1
  {
    hide Text, EntryText;
    MoreEntriesStart(xs, s);
    MoreEntriesStart(ys, t);
    if xs == [] {
      SamePrefix("" + "}", s, t);
    } else {
      var restX, restY := MoreEntries(xs[1..]) + "}" + s, MoreEntries(ys[1..]) + "}" + t;
      Regroup("," + EntryText(xs[0]), MoreEntries(xs[1..]), "}", s);
      Regroup("," + EntryText(ys[0]), MoreEntries(ys[1..]), "}", t);
      hide MoreEntries;
      DropFirst(EntryText(xs[0]), restX, EntryText(ys[0]), restY, ",");
      MoreEntriesStart(xs[1..], s);
      MoreEntriesStart(ys[1..], t);
      EntryPrefixFree(xs[0], ys[0], restX, restY);
      MoreEntriesPrefixFree(xs[1..], ys[1..], s, t);
      assert xs == [xs[0]] + xs[1..] && ys == [ys[0]] + ys[1..];
    }
  }
}
