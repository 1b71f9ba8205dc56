/** Approval fingerprints and the `call_id` the agent injects (bt-core types.rs, bt-agent lib.rs, bt-mcp lib.rs). */
module Fingerprint {
  import opened CanonicalJson
  import opened KeyOrder
  import opened Fnv

  const CALL_ID := "call_id"

  function WithoutKey(entries: seq<Entry>, key: string): seq<Entry> {
    if entries == [] then []
    else if entries[0].key == key then WithoutKey(entries[1..], key)
    else [entries[0]] + WithoutKey(entries[1..], key)
  }

  /** Drops `call_id` from every object, at every depth. */
  function Normalize(v: Json): Json
    decreases v, 1
  {
    match v
    case Obj(entries) => Obj(NormalizeEntries(entries))
    case Arr(items) => Arr(NormalizeItems(items))
    case _ => v
  }

  function NormalizeItems(items: seq<Json>): (normal: seq<Json>)
    ensures |normal| == |items| && forall i :: 0 <= i < |items| ==> normal[i] == Normalize(items[i])
    decreases items, 0
  {
    if items == [] then [] else [Normalize(items[0])] + NormalizeItems(items[1..])
  }

  function NormalizeEntries(entries: seq<Entry>): seq<Entry>
    decreases entries, 0
  {
    if entries == [] then []
    else if entries[0].key == CALL_ID then NormalizeEntries(entries[1..])
    else [Entry(entries[0].key, Normalize(entries[0].value))] + NormalizeEntries(entries[1..])
  }

  /** The text that is hashed. */
  function HashedText(arguments: Json): string {
    Canonical(Normalize(arguments))
  }

  /** UTF-8. */
  function Utf8Char(c: char): (bytes: seq<Byte>) {
    var n := c as int;
    if n < 0x80 then [n]
    else if n < 0x800 then [0xC0 + n / 0x40, 0x80 + n % 0x40]
    else if n < 0x1_0000 then [0xE0 + n / 0x1000, 0x80 + n / 0x40 % 0x40, 0x80 + n % 0x40]
    else [0xF0 + n / 0x4_0000, 0x80 + n / 0x1000 % 0x40, 0x80 + n / 0x40 % 0x40, 0x80 + n % 0x40]
  }

  function Utf8(s: string): seq<Byte> {
    if s == "" then [] else Utf8Char(s[0]) + Utf8(s[1..])
  }

  /** UTF-8 is read back unambiguously (section 3 of RFC 3629): equal bytes come from equal texts. */
  lemma {:induction false} Utf8IsInjective(a: string, b: string)
    requires Utf8(a) == Utf8(b)
    ensures a == b
  {
    if a != "" && b != "" {
      var x, y := Utf8Char(a[0]), Utf8Char(b[0]);
      var s, t := Utf8(a[1..]), Utf8(b[1..]);
      assert x + s == y + t;
      Utf8CharReads(a[0], b[0], s, t);
      Utf8IsInjective(a[1..], b[1..]);
      assert a == [a[0]] + a[1..] && b == [b[0]] + b[1..];
    }
  }

  /** The number of bytes a leading byte announces, and the code point they carry. */
  function Announced(lead: Byte): nat {
    if lead < 0x80 then 1 else if lead < 0xE0 then 2 else if lead < 0xF0 then 3 else 4
  }

  function CodePoint(bytes: seq<Byte>): int
    requires 1 <= |bytes| <= 4
  {
    match |bytes|
    case 1 => bytes[0]
    case 2 => (bytes[0] as int - 0xC0) * 0x40 + (bytes[1] as int - 0x80)
    case 3 => ((bytes[0] as int - 0xE0) * 0x40 + (bytes[1] as int - 0x80)) * 0x40 + (bytes[2] as int - 0x80)
    case _ =>
      (((bytes[0] as int - 0xF0) * 0x40 + (bytes[1] as int - 0x80)) * 0x40 + (bytes[2] as int - 0x80)) * 0x40
      + (bytes[3] as int - 0x80)
  }

  lemma Utf8CharDecodes(c: char)
    ensures var bytes := Utf8Char(c);
      1 <= |bytes| <= 4 && |bytes| == Announced(bytes[0]) && CodePoint(bytes) == c as int
  {
    var n := c as int;
    Split(n);
    Split(n / 0x40);
    Split(n / 0x40 / 0x40);
    assert n / 0x1000 == n / 0x40 / 0x40 && n / 0x4_0000 == n / 0x40 / 0x40 / 0x40;
    assert n < 0x11_0000;
  }

  lemma Split(n: nat)
    ensures n == (n / 0x40) * 0x40 + n % 0x40
  {
  }

  lemma Utf8CharReads(a: char, b: char, s: seq<Byte>, t: seq<Byte>)
    requires Utf8Char(a) + s == Utf8Char(b) + t
    ensures a == b && s == t
  {
    Utf8CharDecodes(a);
    Utf8CharDecodes(b);
    hide Utf8Char, Announced, CodePoint;
    var x, y := Utf8Char(a), Utf8Char(b);
    assert x[0] == (x + s)[0] && (y + t)[0] == y[0];
    assert x == (x + s)[..|x|] && y == (y + t)[..|y|];
    assert s == (x + s)[|x|..] && t == (y + t)[|y|..];
  }

  /** The samples of section 7 of RFC 3629 and one of each length. */
  lemma Utf8Samples()
    ensures Utf8("A") == [0x41] && Utf8("\U{A2}") == [0xC2, 0xA2]
    ensures Utf8("\U{20AC}") == [0xE2, 0x82, 0xAC] && Utf8("\U{233B4}") == [0xF0, 0xA3, 0x8E, 0xB4]
  {
    assert Utf8("") == [];
    assert "A"[1..] == "" && "\U{A2}"[1..] == "" && "\U{20AC}"[1..] == "" && "\U{233B4}"[1..] == "";
  }

  function Hex(n: nat, digits: nat): (text: string)
    ensures |text| == digits
  {
    if digits == 0 then "" else Hex(n / 16, digits - 1) + [HexDigit(n % 16)]
  }

  lemma HexSample()
    ensures Hex(0x1af, 4) == "01af"
  {
    assert Hex(0, 0) == "" && Hex(0, 1) == "0" && Hex(0x1, 2) == "01" && Hex(0x1a, 3) == "01a";
  }

  function HashText(text: string): string {
    "fnv1a64:" + Hex(Hash(Utf8(text)), 16)
  }

  function Fingerprint(tool: string, arguments: Json): string {
    tool + ":" + HashText(HashedText(arguments))
  }

  // ---- The hashed text identifies the arguments up to key order and call ids ----

  lemma {:induction false} NormalizeEntriesFacts(entries: seq<Entry>)
    ensures forall e :: e in NormalizeEntries(entries) ==>
      exists i :: 0 <= i < |entries| && entries[i].key == e.key != CALL_ID && Normalize(entries[i].value) == e.value
    ensures Distinct(entries) ==> Distinct(NormalizeEntries(entries))
  {
    if entries != [] {
      hide Normalize;
      var rest := entries[1..];
      NormalizeEntriesFacts(rest);
      assert forall i :: 0 <= i < |rest| ==> entries[i + 1] == rest[i];
      if Distinct(entries) && entries[0].key != CALL_ID {
        forall e | e in NormalizeEntries(rest) ensures e.key != entries[0].key {
          var i :| 0 <= i < |rest| && rest[i].key == e.key;
          assert entries[i + 1].key != entries[0].key;
        }
      }
    }
  }

  lemma {:induction false} NormalizeKeepsForm(v: Json)
    requires UniqueKeys(v) && WellFormed(v)
    ensures UniqueKeys(Normalize(v)) && WellFormed(Normalize(v))
    decreases v
  {
    match v {
      case Arr(items) =>
        forall i | 0 <= i < |items| ensures UniqueKeys(Normalize(items[i])) && WellFormed(Normalize(items[i])) {
          NormalizeKeepsForm(items[i]);
        }
      case Obj(entries) =>
        forall i | 0 <= i < |entries|
          ensures UniqueKeys(Normalize(entries[i].value)) && WellFormed(Normalize(entries[i].value))
        {
          NormalizeKeepsForm(entries[i].value);
        }
        NormalizeEntriesFacts(entries);
        var normal := NormalizeEntries(entries);
        forall i | 0 <= i < |normal| ensures UniqueKeys(normal[i].value) && WellFormed(normal[i].value) {
          assert normal[i] in normal;
        }
      case _ =>
    }
  }

  /** Two requests hash the same text exactly when their arguments agree, up to key order, after dropping `call_id`. */
  lemma HashedTextDecides(a: Json, b: Json)
    requires UniqueKeys(a) && UniqueKeys(b) && WellFormed(a) && WellFormed(b)
    ensures HashedText(a) == HashedText(b) <==> Same(Normalize(a), Normalize(b))
  {
    hide Normalize, Same, Canonical, UniqueKeys, WellFormed;
    NormalizeKeepsForm(a);
    NormalizeKeepsForm(b);
    CanonicalIsUnambiguous(Normalize(a), Normalize(b));
  }

  lemma {:induction false} HexInjective16(m: nat, n: nat, digits: nat)
    requires m < Pow2(4 * digits) && n < Pow2(4 * digits) && Hex(m, digits) == Hex(n, digits)
    ensures m == n
  {
    if digits > 0 {
      assert Pow2(4 * digits) == 16 * Pow2(4 * (digits - 1)) by { Sixteen(4 * (digits - 1)); }
      var x, y := Hex(m / 16, digits - 1), Hex(n / 16, digits - 1);
      assert (x + [HexDigit(m % 16)])[..digits - 1] == x && (y + [HexDigit(n % 16)])[..digits - 1] == y;
      assert (x + [HexDigit(m % 16)])[digits - 1] == (y + [HexDigit(n % 16)])[digits - 1];
      HexInjective(m % 16, n % 16);
      HexInjective16(m / 16, n / 16, digits - 1);
    }
  }

  lemma Sixteen(n: nat)
    ensures Pow2(n + 4) == 16 * Pow2(n)
  {
    assert Pow2(n + 4) == 2 * Pow2(n + 3) && Pow2(n + 3) == 2 * Pow2(n + 2) && Pow2(n + 2) == 2 * Pow2(n + 1);
  }

  /** The fixed-width hash makes the tool name readable off a fingerprint. */
  lemma FingerprintParts(tool: string, other: string, a: Json, b: Json)
    ensures Fingerprint(tool, a) == Fingerprint(other, b)
      <==> tool == other && Hash(Utf8(HashedText(a))) == Hash(Utf8(HashedText(b)))
  {
    hide HashedText, Hash, Utf8, Hex, Pow2;
    var x, y := Hash(Utf8(HashedText(a))), Hash(Utf8(HashedText(b)));
    if Fingerprint(tool, a) == Fingerprint(other, b) {
      SameTail(tool, other, HashText(HashedText(a)), HashText(HashedText(b)));
      assert ("fnv1a64:" + Hex(x, 16))[8..] == Hex(x, 16) && ("fnv1a64:" + Hex(y, 16))[8..] == Hex(y, 16);
      HashBound(Utf8(HashedText(a)));
      HashBound(Utf8(HashedText(b)));
      ModulusIsPow2();
      HexInjective16(x, y, 16);
    }
  }

  lemma HashBound(bytes: seq<Byte>)
    ensures Hash(bytes) < MODULUS
  {
    HashFromConcat(OFFSET_BASIS, bytes, []);
  }

  lemma SameTail(a: string, b: string, s: string, t: string)
    requires |s| == |t| && a + ":" + s == b + ":" + t
    ensures a == b && s == t
  {
    var left, right := a + ":" + s, b + ":" + t;
    assert left[..|left| - |s| - 1] == a && right[..|right| - |t| - 1] == b;
    assert left[|left| - |s|..] == s && right[|right| - |t|..] == t;
  }

  // ---- The injected call id ----

  /** Map insertion: replace the value of a present key, else add the entry. */
  function Insert(entries: seq<Entry>, key: string, value: Json): seq<Entry> {
    if entries == [] then [Entry(key, value)]
    else if entries[0].key == key then [Entry(key, value)] + entries[1..]
    else [entries[0]] + Insert(entries[1..], key, value)
  }

  /** `normalize_tool_arguments`: the model may not choose its own call id. */
  function NormalizeToolArguments(arguments: Json): Json {
    match arguments case Obj(entries) => Obj(WithoutKey(entries, CALL_ID)) case _ => arguments
  }

  /** What the tool is executed with. */
  function ExecutionArguments(id: string, arguments: Json): Json {
    match arguments
    case Obj(entries) => Obj(Insert(entries, CALL_ID, Str(id)))
    case _ => Obj([Entry(CALL_ID, Str(id)), Entry("input", arguments)])
  }

  /** `split_call_id`: an MCP tool takes the call id back out. */
  function SplitCallId(arguments: Json, fallbackName: string): (string, Json) {
    match arguments
    case Obj(entries) =>
      var id := if CALL_ID in Keys(entries) && Lookup(entries, CALL_ID).Str? then Lookup(entries, CALL_ID).text
                else fallbackName + "_call";
      (id, Obj(WithoutKey(entries, CALL_ID)))
    case _ => (fallbackName + "_call", arguments)
  }

  /**
   * A tool is executed with the agent's call id: in the object it was given, or
   * in a new one around anything else.
   */
  lemma ExecutedWithId(id: string, arguments: Json)
    ensures var executed := ExecutionArguments(id, arguments);
      && executed.Obj? && CALL_ID in Keys(executed.entries) && (
           arguments.Obj? ||
           executed.entries == [Entry("call_id", Str(id)), Entry("input", arguments)])
      && (arguments.Obj? && Distinct(arguments.entries) ==> Lookup(executed.entries, CALL_ID) == Str(id))
  {
    match arguments
    case Obj(entries) => KeyInserted(entries, Str(id));
    case _ =>
      var entry := Entry(CALL_ID, Str(id));
      assert entry in [entry, Entry("input", arguments)];
  }

  lemma {:induction false} KeyInserted(entries: seq<Entry>, value: Json)
    ensures CALL_ID in Keys(Insert(entries, CALL_ID, value))
    ensures Distinct(entries) ==> Lookup(Insert(entries, CALL_ID, value), CALL_ID) == value
  {
    var entry := Entry(CALL_ID, value);
    var inserted := Insert(entries, CALL_ID, value);
    InsertedIn(entries, value);
    if Distinct(entries) { InsertedIsDropped(entries, value); }
  }

  lemma {:induction false} InsertedIn(entries: seq<Entry>, value: Json)
    ensures Entry(CALL_ID, value) in Insert(entries, CALL_ID, value)
  {
    var entry := Entry(CALL_ID, value);
    if entries == [] {
    } else if entries[0].key == CALL_ID {
      assert Insert(entries, CALL_ID, value)[0] == entry;
    } else {
      InsertedIn(entries[1..], value);
    }
  }

  /** An MCP tool given no string under `call_id` makes up an id from its name, and drops the key all the same. */
  lemma SplitFallsBack(arguments: Json, name: string)
    requires !arguments.Obj? || CALL_ID !in Keys(arguments.entries) || !Lookup(arguments.entries, CALL_ID).Str?
    ensures SplitCallId(arguments, name).0 == name + "_call"
    ensures !arguments.Obj? ==> SplitCallId(arguments, name).1 == arguments
    ensures arguments.Obj? ==>
      SplitCallId(arguments, name).1.Obj? && CALL_ID !in Keys(SplitCallId(arguments, name).1.entries)
  {
    if arguments.Obj? { KeyDropped(arguments.entries); }
  }

  lemma {:induction false} KeyDropped(entries: seq<Entry>)
    ensures forall e :: e in WithoutKey(entries, CALL_ID) ==> e.key != CALL_ID
  {
    if entries != [] { KeyDropped(entries[1..]); }
  }

  lemma {:induction false} InsertedIsDropped(entries: seq<Entry>, value: Json)
    requires Distinct(entries)
    ensures NormalizeEntries(Insert(entries, CALL_ID, value)) == NormalizeEntries(entries)
    ensures WithoutKey(Insert(entries, CALL_ID, value), CALL_ID) == WithoutKey(entries, CALL_ID)
    ensures CALL_ID in Keys(Insert(entries, CALL_ID, value))
      && Lookup(Insert(entries, CALL_ID, value), CALL_ID) == value
  {
    hide Normalize;
    var inserted := Insert(entries, CALL_ID, value);
    if entries == [] {
      assert inserted[1..] == [];
      assert inserted[0] in inserted;
    } else {
      if entries[0].key == CALL_ID {
        assert inserted[1..] == entries[1..];
        assert inserted[0] in inserted;
      } else {
        InsertedIsDropped(entries[1..], value);
        assert inserted[1..] == Insert(entries[1..], CALL_ID, value);
        assert inserted == [entries[0]] + inserted[1..];
      }
    }
  }

  lemma {:induction false} DroppedTwice(entries: seq<Entry>)
    ensures NormalizeEntries(WithoutKey(entries, CALL_ID)) == NormalizeEntries(entries)
    ensures WithoutKey(WithoutKey(entries, CALL_ID), CALL_ID) == WithoutKey(entries, CALL_ID)
    ensures forall e :: e in WithoutKey(entries, CALL_ID) ==> e in entries
  {
    hide Normalize;
    if entries != [] {
      DroppedTwice(entries[1..]);
      var kept := WithoutKey(entries, CALL_ID);
      if entries[0].key != CALL_ID { assert kept[1..] == WithoutKey(entries[1..], CALL_ID); }
    }
  }

  lemma {:induction false} WithoutKeyDistinct(entries: seq<Entry>, key: string)
    requires Distinct(entries)
    ensures Distinct(WithoutKey(entries, key)) && forall e :: e in WithoutKey(entries, key) ==> e in entries
  {
    if entries != [] {
      WithoutKeyDistinct(entries[1..], key);
      forall e | e in entries[1..] ensures e.key != entries[0].key {
        var k :| 0 < k < |entries| && entries[k] == e;
      }
    }
  }

  /**
   * Neither removing the model's `call_id` nor injecting the agent's changes
   * what is hashed, exactly for arguments that are an object: anything else is
   * wrapped into one.
   */
  lemma {:induction false} InjectedIdKeepsFingerprint(id: string, arguments: Json)
    requires UniqueKeys(arguments)
    ensures Normalize(NormalizeToolArguments(arguments)) == Normalize(arguments)
    ensures Same(Normalize(ExecutionArguments(id, arguments)), Normalize(arguments)) <==> arguments.Obj?
    ensures arguments.Obj? ==> HashedText(ExecutionArguments(id, arguments)) == HashedText(arguments)
  {
    match arguments {
      case Obj(entries) =>
        hide NormalizeEntries, Insert, WithoutKey;
        InsertedIsDropped(entries, Str(id));
        DroppedTwice(entries);
        SameItself(Normalize(arguments), arguments);
      case _ =>
    }
  }

  lemma SameItself(v: Json, source: Json)
    requires v == Normalize(source) && UniqueKeys(source)
    ensures Same(v, v)
  {
    NormalizeUnique(source);
    CanonDecides(v, v);
  }

  lemma {:induction false} NormalizeUnique(v: Json)
    requires UniqueKeys(v)
    ensures UniqueKeys(Normalize(v))
    decreases v
  {
    match v {
      case Arr(items) =>
        forall i | 0 <= i < |items| ensures UniqueKeys(Normalize(items[i])) { NormalizeUnique(items[i]); }
      case Obj(entries) =>
        forall i | 0 <= i < |entries| ensures UniqueKeys(Normalize(entries[i].value)) {
          NormalizeUnique(entries[i].value);
        }
        NormalizeEntriesFacts(entries);
        var normal := NormalizeEntries(entries);
        forall i | 0 <= i < |normal| ensures UniqueKeys(normal[i].value) { assert normal[i] in normal; }
      case _ =>
    }
  }

  /** An MCP tool recovers exactly the id and the arguments the agent started from, iff those are an object. */
  lemma SplitUndoesInjection(id: string, arguments: Json, fallbackName: string)
    requires UniqueKeys(arguments)
    ensures var parsed := NormalizeToolArguments(arguments);
      SplitCallId(ExecutionArguments(id, parsed), fallbackName) == (id, parsed) <==> arguments.Obj?
  {
    match arguments {
      case Obj(entries) =>
        WithoutKeyDistinct(entries, CALL_ID);
        hide Insert, WithoutKey, Lookup;
        InsertedIsDropped(WithoutKey(entries, CALL_ID), Str(id));
        DroppedTwice(entries);
      case _ =>
    }
  }
}
