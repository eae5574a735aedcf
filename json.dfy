/** JavaScript values as the exporter handles them: what `response.json()` yields,
    plus `undefined`, which is what reading an absent property gives. An object keeps
    its keys in insertion order, because `for…in` visits them in that order and the
    report is drawn in that order. */
module Json {

  datatype Value =
    | Undefined
    | Null
    | Bool(b: bool)
    | Num(n: int)
    | Str(s: string)
    | Arr(items: seq<Value>)
    | Obj(entries: seq<(string, Value)>)

  /** The own properties of an object, in insertion order. */
  type Entries = seq<(string, Value)>

  /** The result of a step that may throw a TypeError: reading a property of `null`
      or `undefined`, or calling `forEach`/`filter`/`map` on a value that is not an array. */
  datatype Outcome<+T> = Ok(value: T) | Throws {
    predicate IsFailure() { Throws? }
    function PropagateFailure<U>(): Outcome<U> requires Throws? { Throws }
    function Extract(): T requires Ok? { value }
  }

  predicate Nullish(v: Value) { v.Undefined? || v.Null? }

  /** Whether some element of a list is `null` or `undefined`: calling a callback that
      reads a property of every element then throws. */
  predicate HasNullish(items: seq<Value>) {
    exists i :: 0 <= i < |items| && Nullish(items[i])
  }

  /** The position of the first `null` or `undefined` element, or the length of the
      list when there is none: how far a callback that reads a property of every
      element gets before it throws. */
  function FirstNullish(items: seq<Value>): (n: nat)
    ensures n <= |items|
    ensures forall k :: 0 <= k < n ==> !Nullish(items[k])
    ensures n < |items| ==> Nullish(items[n])
    ensures n == |items| <==> !HasNullish(items)
    decreases |items|
  {
    if items == [] then 0
    else if Nullish(items[0]) then 0
    else 1 + FirstNullish(items[1..])
  }

  /** JavaScript truthiness. */
  predicate Truthy(v: Value) {
    match v
    case Undefined => false
    case Null => false
    case Bool(b) => b
    case Num(n) => n != 0
    case Str(s) => s != ""
    case Arr(_) => true
    case Obj(_) => true
  }

  /** `a || b` */
  function Or(a: Value, b: Value): Value {
    if Truthy(a) then a else b
  }

  /** `v?.k`: the own property `k` of an object, and `undefined` for any other value.
      (For the keys the exporter reads, arrays, strings, numbers and booleans have no
      such property either.) */
  function Prop(v: Value, k: string): Value {
    if v.Obj? then Get(v.entries, k) else Undefined
  }

  // ---------------------------------------------------------------------------
  // Objects as ordered key/value lists

  function Keys(o: Entries): (ks: seq<string>)
    ensures |ks| == |o|
    ensures forall i :: 0 <= i < |o| ==> ks[i] == o[i].0
  {
    seq(|o|, i requires 0 <= i < |o| => o[i].0)
  }

  /** A JavaScript object never holds the same key twice. */
  predicate UniqueKeys(o: Entries) {
    forall i, j :: 0 <= i < j < |o| ==> o[i].0 != o[j].0
  }

  /** `o[k]`: the value stored under `k`, or `undefined` when `k` is absent. */
  function Get(o: Entries, k: string): Value {
    if o == [] then Undefined
    else if o[0].0 == k then o[0].1
    else Get(o[1..], k)
  }

  lemma {:induction false} GetAbsent(o: Entries, k: string)
    ensures k !in Keys(o) ==> Get(o, k) == Undefined
  {
    if o != [] {
      assert o[0].0 == Keys(o)[0];
      assert Keys(o[1..]) == Keys(o)[1..];
      GetAbsent(o[1..], k);
    }
  }

  lemma {:induction false} GetAt(o: Entries, i: nat)
    requires UniqueKeys(o) && i < |o|
    ensures Get(o, o[i].0) == o[i].1
  {
    if i > 0 {
      GetAt(o[1..], i - 1);
    }
  }

  /** Adding an entry at the end changes nothing for the keys already present. */
  lemma {:induction false} GetAppend(o: Entries, k: string, v: Value, k': string)
    ensures Get(o + [(k, v)], k') == if k' in Keys(o) then Get(o, k') else if k' == k then v else Undefined
  {
    if o == [] {
    } else {
      assert (o + [(k, v)])[1..] == o[1..] + [(k, v)];
      assert Keys(o) == [o[0].0] + Keys(o[1..]);
      GetAppend(o[1..], k, v, k');
    }
  }

  /** `o[k] = v`: an existing key keeps its place and takes the new value; a new key
      goes to the end. */
  function Put(o: Entries, k: string, v: Value): Entries {
    if o == [] then [(k, v)]
    else if o[0].0 == k then [(k, v)] + o[1..]
    else [o[0]] + Put(o[1..], k, v)
  }

  /** After `o[k] = v`, the keys are those of `o`, followed by `k` if it was new. */
  lemma {:induction false} PutKeys(o: Entries, k: string, v: Value)
    ensures Keys(Put(o, k, v)) == if k in Keys(o) then Keys(o) else Keys(o) + [k]
    decreases |o|
  {
    if o == [] {
    } else if o[0].0 == k {
      assert Keys(Put(o, k, v)) == Keys(o);
    } else {
      var rest := Put(o[1..], k, v);
      PutKeys(o[1..], k, v);
      KeysCons(o[0], o[1..]);
      KeysCons(o[0], rest);
      assert o == [o[0]] + o[1..];
      assert k in Keys(o) <==> k in Keys(o[1..]);
    }
  }

  lemma KeysCons(e: (string, Value), o: Entries)
    ensures Keys([e] + o) == [e.0] + Keys(o)
  {
  }

  /** `o[k] = v` keeps the keys of an object distinct. */
  lemma PutUnique(o: Entries, k: string, v: Value)
    requires UniqueKeys(o)
    ensures UniqueKeys(Put(o, k, v))
  {
    PutKeys(o, k, v);
    var r := Put(o, k, v);
    forall i, j | 0 <= i < j < |r| ensures r[i].0 != r[j].0 {
      assert Keys(r)[i] == r[i].0 && Keys(r)[j] == r[j].0;
    }
  }

  /** After `o[k] = v`, reading `k` gives `v` and reading any other key is unchanged. */
  lemma {:induction false} PutGet(o: Entries, k: string, v: Value, k': string)
    ensures Get(Put(o, k, v), k') == if k' == k then v else Get(o, k')
    decreases |o|
  {
    if o != [] && o[0].0 != k {
      PutGet(o[1..], k, v, k');
      assert ([o[0]] + Put(o[1..], k, v))[1..] == Put(o[1..], k, v);
    }
  }

  /** Writing a key that is not there yet appends it. */
  lemma {:induction false} PutFresh(o: Entries, k: string, v: Value)
    requires k !in Keys(o)
    ensures Put(o, k, v) == o + [(k, v)]
  {
    if o != [] {
      assert Keys(o) == [o[0].0] + Keys(o[1..]);
      PutFresh(o[1..], k, v);
      assert Put(o, k, v) == [o[0]] + Put(o[1..], k, v);
      assert [o[0]] + (o[1..] + [(k, v)]) == o + [(k, v)];
    }
  }

  /** Writing every entry of `es` into `o`, one after the other. */
  function PutAll(o: Entries, es: Entries): Entries
    decreases |es|
  {
    if es == [] then o
    else Put(PutAll(o, es[..|es| - 1]), es[|es| - 1].0, es[|es| - 1].1)
  }

  /** After writing the entries of `es`, a key is present when it was before or
      `es` has it, and it holds the value `es` gave it if any. */
  lemma {:induction false} PutAllSpec(o: Entries, es: Entries)
    requires UniqueKeys(es)
    ensures forall k :: k in Keys(PutAll(o, es)) <==> k in Keys(o) || k in Keys(es)
    ensures forall k :: Get(PutAll(o, es), k) == if k in Keys(es) then Get(es, k) else Get(o, k)
    decreases |es|
  {
    PutAllKeys(o, es);
    if es != [] {
      var init, last := es[..|es| - 1], es[|es| - 1];
      assert es == init + [last];
      assert Keys(es) == Keys(init) + [last.0];
      assert UniqueKeys(init);
      assert last.0 !in Keys(init);
      PutAllSpec(o, init);
      forall k ensures Get(PutAll(o, es), k) == if k in Keys(es) then Get(es, k) else Get(o, k) {
        GetAppend(init, last.0, last.1, k);
        PutGet(PutAll(o, init), last.0, last.1, k);
      }
    }
  }

  /** After writing the entries of `es`, the keys are those of `o` and of `es`. */
  lemma {:induction false} PutAllKeys(o: Entries, es: Entries)
    ensures forall k :: k in Keys(PutAll(o, es)) <==> k in Keys(o) || k in Keys(es)
    decreases |es|
  {
    if es != [] {
      var init, last := es[..|es| - 1], es[|es| - 1];
      assert es == init + [last];
      assert Keys(es) == Keys(init) + [last.0];
      PutAllKeys(o, init);
      PutKeys(PutAll(o, init), last.0, last.1);
    }
  }

  /** The last write to a key decides its value. */
  lemma {:induction false} PutAllLastWins(o: Entries, es: Entries, j: nat)
    requires j < |es|
    requires forall j' :: j < j' < |es| ==> es[j'].0 != es[j].0
    ensures Get(PutAll(o, es), es[j].0) == es[j].1
    decreases |es|
  {
    var init, last := es[..|es| - 1], es[|es| - 1];
    PutGet(PutAll(o, init), last.0, last.1, es[j].0);
    if j < |es| - 1 {
      PutAllLastWins(o, init, j);
    }
  }

  /** A key that `es` never writes keeps its value. */
  lemma {:induction false} PutAllUntouched(o: Entries, es: Entries, k: string)
    requires k !in Keys(es)
    ensures Get(PutAll(o, es), k) == Get(o, k)
    decreases |es|
  {
    if es != [] {
      var init, last := es[..|es| - 1], es[|es| - 1];
      assert es == init + [last];
      assert Keys(es) == Keys(init) + [last.0];
      PutAllUntouched(o, init, k);
      PutGet(PutAll(o, init), last.0, last.1, k);
    }
  }

  /** Every entry after the writes was there before or was written. */
  lemma {:induction false} PutAllEntries(o: Entries, es: Entries)
    ensures forall e :: e in PutAll(o, es) ==> e in o || e in es
    decreases |es|
  {
    if es != [] {
      var init, last := es[..|es| - 1], es[|es| - 1];
      assert es == init + [last];
      PutAllEntries(o, init);
      PutEntries(PutAll(o, init), last.0, last.1);
    }
  }

  lemma {:induction false} PutEntries(o: Entries, k: string, v: Value)
    ensures forall e :: e in Put(o, k, v) ==> e in o || e == (k, v)
    decreases |o|
  {
    if o != [] && o[0].0 != k {
      PutEntries(o[1..], k, v);
      assert forall e :: e in o[1..] ==> e in o;
    }
  }

  /** Writes keep the keys of an object distinct. */
  lemma {:induction false} PutAllUnique(o: Entries, es: Entries)
    requires UniqueKeys(o)
    ensures UniqueKeys(PutAll(o, es))
    decreases |es|
  {
    if es != [] {
      PutAllUnique(o, es[..|es| - 1]);
      PutUnique(PutAll(o, es[..|es| - 1]), es[|es| - 1].0, es[|es| - 1].1);
    }
  }

  /** Writing one entry and then `es` is writing `[(k, v)] + es`. */
  lemma {:induction false} PutAllCons(o: Entries, k: string, v: Value, es: Entries)
    ensures PutAll(Put(o, k, v), es) == PutAll(o, [(k, v)] + es)
    decreases |es|
  {
    if es == [] {
      assert [(k, v)] + es == [(k, v)];
      assert [(k, v)][..0] == [];
    } else {
      var init, last := es[..|es| - 1], es[|es| - 1];
      PutAllCons(o, k, v, init);
      var all := [(k, v)] + es;
      assert all[..|all| - 1] == [(k, v)] + init;
      assert all[|all| - 1] == last;
    }
  }

  /** Writing `es + [e]` is writing `es`, then `e`. */
  lemma PutAllSnoc(o: Entries, es: Entries, e: (string, Value))
    ensures PutAll(o, es + [e]) == Put(PutAll(o, es), e.0, e.1)
  {
    assert (es + [e])[..|es|] == es;
  }

  /** Writing distinct keys into an empty object rebuilds the same object. */
  lemma {:induction false} PutAllIntoEmpty(es: Entries)
    requires UniqueKeys(es)
    ensures PutAll([], es) == es
    decreases |es|
  {
    if es != [] {
      var init, last := es[..|es| - 1], es[|es| - 1];
      assert es == init + [last];
      assert UniqueKeys(init);
      PutAllIntoEmpty(init);
      assert last.0 !in Keys(init);
      PutFresh(init, last.0, last.1);
    }
  }

  /** The entries of `o` that `keep` accepts, in their order. */
  function Filter(o: Entries, keep: ((string, Value)) -> bool): Entries
    decreases |o|
  {
    if o == [] then []
    else Filter(o[..|o| - 1], keep) + (if keep(o[|o| - 1]) then [o[|o| - 1]] else [])
  }

  /** Filtering one more entry of `o` keeps it if it is accepted. */
  lemma FilterPrefix(o: Entries, i: nat, keep: ((string, Value)) -> bool)
    requires i < |o|
    ensures Filter(o[..i + 1], keep) == Filter(o[..i], keep) + if keep(o[i]) then [o[i]] else []
  {
    assert o[..i + 1][..i] == o[..i];
  }

  /** Filtering keeps exactly the accepted entries. */
  lemma {:induction false} FilterMembers(o: Entries, keep: ((string, Value)) -> bool)
    ensures forall e :: e in Filter(o, keep) <==> e in o && keep(e)
    decreases |o|
  {
    if o != [] {
      var init, last := o[..|o| - 1], o[|o| - 1];
      FilterMembers(init, keep);
      assert o == init + [last];
    }
  }

  /** Filtering keeps the keys distinct, and the keys that remain are those of the
      accepted entries. */
  lemma {:induction false} FilterUnique(o: Entries, keep: ((string, Value)) -> bool)
    requires UniqueKeys(o)
    ensures UniqueKeys(Filter(o, keep))
    ensures forall k :: k in Keys(Filter(o, keep)) <==> k in Keys(o) && keep((k, Get(o, k)))
    decreases |o|
  {
    if o != [] {
      var init, last := o[..|o| - 1], o[|o| - 1];
      var w := Filter(init, keep);
      assert o == init + [last];
      assert Keys(o) == Keys(init) + [last.0];
      assert UniqueKeys(init);
      FilterUnique(init, keep);
      assert last.0 !in Keys(init);
      forall k ensures Get(o, k) == if k in Keys(init) then Get(init, k) else if k == last.0 then last.1 else Undefined {
        GetAppend(init, last.0, last.1, k);
      }
      if keep(last) {
        assert Filter(o, keep) == w + [last];
        assert last.0 !in Keys(w);
        assert Keys(w + [last]) == Keys(w) + [last.0];
        forall i, j | 0 <= i < j < |w + [last]| ensures (w + [last])[i].0 != (w + [last])[j].0 {
          if j == |w| {
            assert Keys(w)[i] == w[i].0;
          }
        }
      } else {
        assert w + [] == w;
        assert Filter(o, keep) == w;
      }
    }
  }

  /** Filtering leaves the value of every remaining key as it was. */
  lemma {:induction false} FilterGet(o: Entries, keep: ((string, Value)) -> bool, k: string)
    requires UniqueKeys(o)
    ensures Get(Filter(o, keep), k) == if keep((k, Get(o, k))) then Get(o, k) else Undefined
    decreases |o|
  {
    if o == [] {
      assert Get(o, k) == Undefined;
    } else {
      var init, last := o[..|o| - 1], o[|o| - 1];
      var w := Filter(init, keep);
      assert o == init + [last];
      assert UniqueKeys(init);
      FilterGet(init, keep, k);
      FilterUnique(init, keep);
      GetAppend(init, last.0, last.1, k);
      assert last.0 !in Keys(init);
      if k !in Keys(init) {
        GetAbsent(init, k);
        if k !in Keys(w) {
          GetAbsent(w, k);
        }
      }
      if keep(last) {
        assert Filter(o, keep) == w + [last];
        GetAppend(w, last.0, last.1, k);
      } else {
        assert w + [] == w;
        assert Filter(o, keep) == w;
      }
    }
  }

  /** The object left after `delete o[k]` for every `k` in `ks`. */
  function Without(o: Entries, ks: seq<string>): Entries {
    Filter(o, NotIn(ks))
  }

  /** Whether a property survives deleting the keys `ks`. */
  function NotIn(ks: seq<string>): ((string, Value)) -> bool {
    (e: (string, Value)) => e.0 !in ks
  }

  /** Without the keys `ks`, an object has exactly its other keys, with their values. */
  lemma WithoutSpec(o: Entries, ks: seq<string>)
    requires UniqueKeys(o)
    ensures UniqueKeys(Without(o, ks))
    ensures forall k :: k in Keys(Without(o, ks)) <==> k in Keys(o) && k !in ks
    ensures forall k :: Get(Without(o, ks), k) == if k in ks then Undefined else Get(o, k)
  {
    FilterUnique(o, NotIn(ks));
    forall k ensures Get(Without(o, ks), k) == if k in ks then Undefined else Get(o, k) {
      FilterGet(o, NotIn(ks), k);
    }
  }

  /** Deleting no key leaves the object as it was. */
  lemma {:induction false} WithoutNothing(o: Entries)
    ensures Without(o, []) == o
    decreases |o|
  {
    if o != [] {
      WithoutNothing(o[..|o| - 1]);
      assert o == o[..|o| - 1] + [o[|o| - 1]];
    }
  }

  /** `delete o[k]` */
  function Delete(o: Entries, k: string): Entries {
    Without(o, [k])
  }

  /** Deleting keys one after the other is deleting them all at once. */
  lemma {:induction false} DeleteAfterWithout(o: Entries, ks: seq<string>, k: string)
    ensures Delete(Without(o, ks), k) == Without(o, ks + [k])
    decreases |o|
  {
    if o != [] {
      var init, last := o[..|o| - 1], o[|o| - 1];
      DeleteAfterWithout(init, ks, k);
      var w := Without(init, ks);
      assert o == init + [last];
      assert Without(o, ks) == w + (if last.0 in ks then [] else [last]);
      assert Without(o, ks + [k]) == Without(init, ks + [k]) + (if last.0 in ks + [k] then [] else [last]);
      assert (last.0 in ks + [k]) == (last.0 in ks || last.0 == k);
      if last.0 !in ks {
        assert (w + [last])[..|w|] == w;
        assert Without(w + [last], [k]) == Without(w, [k]) + (if last.0 in [k] then [] else [last]);
        assert Delete(Without(o, ks), k) == Without(w + [last], [k]);
      } else {
        assert w + [] == w;
        assert Without(o, ks) == w;
      }
    }
  }

  // ---------------------------------------------------------------------------
  // Strings: String(v), Array.prototype.join and JSON.stringify

  function DigitChar(d: nat): (c: char)
    requires d < 10
    ensures '0' <= c <= '9'
  {
    ('0' as int + d) as char
  }

  /** The decimal digits of `n`, without leading zeros. */
  function NatToString(n: nat): (s: string)
    ensures 1 <= |s|
    ensures forall i :: 0 <= i < |s| ==> '0' <= s[i] <= '9'
    ensures n >= 10 ==> |s| >= 2
    decreases n
  {
    if n < 10 then [DigitChar(n)] else NatToString(n / 10) + [DigitChar(n % 10)]
  }

  /** Different numbers are written differently, so array indices make distinct keys. */
  lemma {:induction false} NatToStringInjective(a: nat, b: nat)
    requires NatToString(a) == NatToString(b)
    ensures a == b
    decreases a
  {
    var sa, sb := NatToString(a), NatToString(b);
    if a < 10 && b < 10 {
      assert DigitChar(a) == sa[0] == sb[0] == DigitChar(b);
    } else if a >= 10 && b >= 10 {
      assert sa[|sa| - 1] == DigitChar(a % 10) && sb[|sb| - 1] == DigitChar(b % 10);
      assert sa[..|sa| - 1] == NatToString(a / 10);
      assert sb[..|sb| - 1] == NatToString(b / 10);
      NatToStringInjective(a / 10, b / 10);
    }
  }

  /** The decimal text of an integer: a minus sign exactly for a negative number. */
  function IntToString(n: int): (s: string)
    ensures 1 <= |s| && (s[0] == '-' <==> n < 0)
  {
    if n < 0 then "-" + NatToString(-n) else NatToString(n)
  }

  /** Different integers are written differently. */
  lemma IntToStringInjective(a: int, b: int)
    requires IntToString(a) == IntToString(b)
    ensures a == b
  {
    if a < 0 {
      assert IntToString(a)[1..] == NatToString(-a);
      assert IntToString(b)[1..] == NatToString(-b);
      NatToStringInjective(-a, -b);
    } else {
      NatToStringInjective(a, b);
    }
  }

  /** `parts.join(sep)` */
  function Join(parts: seq<string>, sep: string): string
    decreases |parts|
  {
    if parts == [] then ""
    else if |parts| == 1 then parts[0]
    else parts[0] + sep + Join(parts[1..], sep)
  }

  /** `String(v)`, which is also what a template literal `${v}` writes: a string is
      itself, `null` and `undefined` are spelt out, and a number is written in decimal,
      never empty. */
  function ToStr(v: Value): (r: string)
    ensures v.Str? ==> r == v.s
    ensures v.Undefined? ==> r == "undefined"
    ensures v.Null? ==> r == "null"
    ensures v.Num? ==> r != "" && (r[0] == '-' <==> v.n < 0)
    decreases v
  {
    match v
    case Undefined => "undefined"
    case Null => "null"
    case Bool(b) => if b then "true" else "false"
    case Num(n) => IntToString(n)
    case Str(s) => s
    case Arr(items) =>
      Join(seq(|items|, i requires 0 <= i < |items| => if Nullish(items[i]) then "" else ToStr(items[i])), ",")
    case Obj(_) => "[object Object]"
  }

  /** `vals.join(sep)`: `null` and `undefined` elements are written as empty strings. */
  function JoinValues(vals: seq<Value>, sep: string): string {
    Join(seq(|vals|, i requires 0 <= i < |vals| => if Nullish(vals[i]) then "" else ToStr(vals[i])), sep)
  }

  function HexDigit(d: nat): (c: char)
    requires d < 16
  {
    if d < 10 then DigitChar(d) else ('a' as int + (d - 10)) as char
  }

  /** One character of a string literal written by JSON.stringify. */
  function EscapeChar(c: char): string {
    if c == '"' then "\\\""
    else if c == '\\' then "\\\\"
    else if c == '\n' then "\\n"
    else if c == '\r' then "\\r"
    else if c == '\t' then "\\t"
    else if c as int == 8 then "\\b"
    else if c as int == 12 then "\\f"
    else if (c as int) < 0x20 then "\\u00" + [HexDigit(c as int / 16), HexDigit(c as int % 16)]
    else [c]
  }

  function Escape(s: string): string
    decreases |s|
  {
    if s == [] then "" else EscapeChar(s[0]) + Escape(s[1..])
  }

  function Quote(s: string): string {
    "\"" + Escape(s) + "\""
  }

  /** The strings of the present options, in order. */
  function Present(xs: seq<Option<string>>): seq<string>
    decreases |xs|
  {
    if xs == [] then []
    else (if xs[0].Some? then [xs[0].value] else []) + Present(xs[1..])
  }

  datatype Option<+T> = None | Some(value: T)

  /** The text JSON.stringify writes for a value; an `undefined` member of an object is
      left out and an `undefined` array element is written as `null`. */
  function Serialize(v: Value): (r: string)
    ensures r != ""
    ensures v.Str? ==> |r| >= 2 && r[0] == '"' && r[|r| - 1] == '"'
    ensures v.Arr? ==> r[0] == '[' && r[|r| - 1] == ']'
    ensures v.Obj? ==> r[0] == '{' && r[|r| - 1] == '}'
    decreases v
  {
    match v
    case Undefined => "null"
    case Null => "null"
    case Bool(b) => if b then "true" else "false"
    case Num(n) => IntToString(n)
    case Str(s) => Quote(s)
    case Arr(items) =>
      "[" + Join(seq(|items|, i requires 0 <= i < |items| => Serialize(items[i])), ",") + "]"
    case Obj(entries) =>
      var members := seq(|entries|, i requires 0 <= i < |entries| =>
        if entries[i].1.Undefined? then None
        else Some(Quote(entries[i].0) + ":" + Serialize(entries[i].1)));
      "{" + Join(Present(members), ",") + "}"
  }

  /** `JSON.stringify(v)`: `undefined` for `undefined`, a string for every other value. */
  function Stringify(v: Value): (r: Value)
    ensures r.Undefined? <==> v.Undefined?
    ensures !v.Undefined? ==> r.Str? && r.s != ""
  {
    if v.Undefined? then Undefined else Str(Serialize(v))
  }

  /** The keys `for…in` visits and the values it reads: an object's own keys, an
      array's or a string's indices; nothing for other values. */
  function ForIn(v: Value): (es: Entries)
    ensures v.Obj? ==> es == v.entries
    ensures !v.Obj? ==> UniqueKeys(es)
  {
    match v
    case Obj(entries) => entries
    case Arr(items) =>
      var es := seq(|items|, i requires 0 <= i < |items| => (NatToString(i), items[i]));
      IndexKeysUnique(|items|);
      assert forall i :: 0 <= i < |es| ==> es[i].0 == NatToString(i);
      es
    case Str(s) =>
      var es := seq(|s|, i requires 0 <= i < |s| => (NatToString(i), Str([s[i]])));
      IndexKeysUnique(|s|);
      assert forall i :: 0 <= i < |es| ==> es[i].0 == NatToString(i);
      es
    case _ => []
  }

  lemma IndexKeysUnique(n: nat)
    ensures forall i, j :: 0 <= i < j < n ==> NatToString(i) != NatToString(j)
  {
    forall i, j | 0 <= i < j < n ensures NatToString(i) != NatToString(j) {
      if NatToString(i) == NatToString(j) {
        NatToStringInjective(i, j);
      }
    }
  }
}
