// Python values as they come out of `json.loads`, database records and
// pydantic `model_dump`: None, bool, int, float, str, list and dict. A dict is
// an association list in insertion order, as Python dicts keep it.

module Json {
  import opened Wrappers
  import Text

  datatype Json =
    | JNull
    | JBool(b: bool)
    | JInt(i: int)
    | JFloat(v: real)
    | JStr(s: string)
    | JArr(items: seq<Json>)
    | JObj(fields: seq<(string, Json)>)

  type Dict = seq<(string, Json)>

  /** Python truthiness: None, False, 0, 0.0 and empty containers are false. */
  predicate Truthy(j: Json)
  {
    match j
    case JNull => false
    case JBool(b) => b
    case JInt(i) => i != 0
    case JFloat(v) => v != 0.0
    case JStr(s) => s != []
    case JArr(xs) => xs != []
    case JObj(fs) => fs != []
  }

  predicate HasKey(d: Dict, key: string)
  {
    exists i :: 0 <= i < |d| && d[i].0 == key
  }

  /** The value stored under `key` (the first entry with that key). */
  function Lookup(d: Dict, key: string): (r: Option<Json>)
    ensures r.Some? <==> HasKey(d, key)
    ensures r.Some? ==> (key, r.value) in d
  {
    if d == [] then None
    else if d[0].0 == key then Some(d[0].1)
    else
      var r := Lookup(d[1..], key);
      assert HasKey(d, key) ==> d[0].0 == key || HasKey(d[1..], key) by {
        if HasKey(d, key) {
          var i :| 0 <= i < |d| && d[i].0 == key;
          if i > 0 { assert d[1..][i - 1].0 == key; }
        }
      }
      assert r.Some? ==> (key, r.value) in d by {
        if r.Some? { assert d == [d[0]] + d[1..]; }
      }
      r
  }

  /** The first entry with the key is the one found. */
  lemma {:induction false} LookupFirst(d: Dict, key: string, k: nat)
    requires k < |d| && d[k].0 == key
    requires forall i :: 0 <= i < k ==> d[i].0 != key
    ensures Lookup(d, key) == Some(d[k].1)
  {
    if k > 0 {
      assert d[1..][k - 1] == d[k];
      LookupFirst(d[1..], key, k - 1);
    }
  }

  /** `d.get(key, default)`. */
  function Get(d: Dict, key: string, default: Json): (r: Json)
    ensures !HasKey(d, key) ==> r == default
    ensures HasKey(d, key) ==> (key, r) in d
  {
    Lookup(d, key).GetOr(default)
  }

  /** `value.get(key, default)` on a value that may not be a dict. */
  function GetAttr(j: Json, key: string, default: Json): (r: Result<Json>)
    ensures r.Ok? <==> j.JObj?
    ensures j.JObj? ==> r.value == Get(j.fields, key, default)
  {
    if j.JObj? then Ok(Get(j.fields, key, default)) else Err(AttributeError)
  }

  function Keys(d: Dict): (ks: seq<string>)
    ensures |ks| == |d|
    ensures forall i :: 0 <= i < |d| ==> ks[i] == d[i].0
  {
    seq(|d|, i requires 0 <= i < |d| => d[i].0)
  }

  /** `{k: v for k, v in d.items() if k not in excluded}`. */
  function Without(d: Dict, excluded: set<string>): (r: Dict)
    ensures forall i :: 0 <= i < |r| ==> r[i].0 !in excluded && r[i] in d
    ensures forall i :: 0 <= i < |d| && d[i].0 !in excluded ==> d[i] in r
  {
    if d == [] then []
    else
      var rest := Without(d[1..], excluded);
      assert forall i :: 1 <= i < |d| ==> d[i] == d[1..][i - 1];
      if d[0].0 in excluded then rest else [d[0]] + rest
  }

  /** Filtering a dict whose only non-excluded entry sits at index `k` leaves that entry alone. */
  lemma {:induction false} WithoutSingle(d: Dict, excluded: set<string>, k: nat)
    requires k < |d| && d[k].0 !in excluded
    requires forall i :: 0 <= i < |d| && i != k ==> d[i].0 in excluded
    ensures Without(d, excluded) == [d[k]]
  {
    if k == 0 {
      WithoutNone(d[1..], excluded);
    } else {
      WithoutSingle(d[1..], excluded, k - 1);
    }
  }

  /** Filtering a dict whose keys are all excluded leaves nothing. */
  lemma {:induction false} WithoutNone(d: Dict, excluded: set<string>)
    requires forall i :: 0 <= i < |d| ==> d[i].0 in excluded
    ensures Without(d, excluded) == []
  {
    if d != [] {
      WithoutNone(d[1..], excluded);
    }
  }

  /** `for x in value`: lists give their items, dicts their keys, strings their characters. */
  function Iterate(j: Json): (r: Result<seq<Json>>)
    ensures j.JArr? ==> r == Ok(j.items)
    ensures r.Ok? <==> (j.JArr? || j.JObj? || j.JStr?)
  {
    match j
    case JArr(xs) => Ok(xs)
    case JObj(fs) => Ok(seq(|fs|, i requires 0 <= i < |fs| => JStr(fs[i].0)))
    case JStr(s) => Ok(seq(|s|, i requires 0 <= i < |s| => JStr([s[i]])))
    case _ => Err(TypeError)
  }

  /** `str(value)`: a string is itself, anything else its `repr`. */
  function PyStr(j: Json): string
  {
    match j
    case JStr(s) => s
    case _ => PyRepr(j)
  }

  function PyRepr(j: Json): string
    decreases j, 1
  {
    match j
    case JNull => "None"
    case JBool(b) => if b then "True" else "False"
    case JInt(i) => Text.IntToString(i)
    case JFloat(v) => Text.RealRepr(v)
    case JStr(s) => StrRepr(s)
    case JArr(xs) => "[" + ReprItems(j, xs) + "]"
    case JObj(fs) => "{" + ReprFields(j, fs) + "}"
  }

  function ReprItems(parent: Json, xs: seq<Json>): string
    requires forall x :: x in xs ==> x < parent
    decreases parent, 0, |xs|
  {
    if xs == [] then ""
    else
      assert xs[0] in xs;
      if |xs| == 1 then PyRepr(xs[0])
      else
        assert forall x :: x in xs[1..] ==> x in xs;
        PyRepr(xs[0]) + ", " + ReprItems(parent, xs[1..])
  }

  function ReprFields(parent: Json, fs: seq<(string, Json)>): string
    requires forall f :: f in fs ==> f.1 < parent
    decreases parent, 0, |fs|
  {
    if fs == [] then ""
    else
      assert fs[0] in fs;
      assert forall f :: f in fs[1..] ==> f in fs;
      var entry := StrRepr(fs[0].0) + ": " + PyRepr(fs[0].1);
      if |fs| == 1 then entry else entry + ", " + ReprFields(parent, fs[1..])
  }

  /** The quote `repr` puts around a str: `'`, unless the text has a `'` and no `"`. */
  function QuoteFor(s: string): char
  {
    if '\'' in s && '"' !in s then '"' else '\''
  }

  function HexDigit(n: int): char
    requires 0 <= n < 16
  {
    "0123456789abcdef"[n]
  }

  /** One character inside the quotes: backslash, the quote and ASCII control characters are escaped. */
  function EscapeChar(c: char, quote: char): string
  {
    if c == quote || c == '\\' then ['\\', c]
    else if c == '\t' then "\\t"
    else if c == '\n' then "\\n"
    else if c == '\r' then "\\r"
    else if c < ' ' || c as int == 0x7f then ['\\', 'x', HexDigit(c as int / 16), HexDigit(c as int % 16)]
    else [c]
  }

  function Escaped(s: string, quote: char): string
  {
    if s == [] then "" else EscapeChar(s[0], quote) + Escaped(s[1..], quote)
  }

  /** A character `repr` leaves as it is inside the given quotes. */
  predicate Plain(c: char, quote: char)
  {
    c != quote && c != '\\' && ' ' <= c && c as int != 0x7f
  }

  /** `repr(s)` of a str. */
  function StrRepr(s: string): (r: string)
    ensures |r| >= 2 && r[0] == r[|r| - 1] == QuoteFor(s)
    ensures ('\'' in s && '"' !in s) ==> r[0] == '"'
    ensures !('\'' in s && '"' !in s) ==> r[0] == '\''
  {
    [QuoteFor(s)] + Escaped(s, QuoteFor(s)) + [QuoteFor(s)]
  }

  /** Without characters to escape, the text appears between the quotes as it is. */
  lemma {:induction false} EscapedPlain(s: string, quote: char)
    requires forall i :: 0 <= i < |s| ==> Plain(s[i], quote)
    ensures Escaped(s, quote) == s
  {
    if s != [] {
      EscapedPlain(s[1..], quote);
    }
  }

  /** `repr` of a text with nothing to escape is the text between its quotes. */
  lemma StrReprPlain(s: string)
    requires forall i :: 0 <= i < |s| ==> Plain(s[i], QuoteFor(s))
    ensures StrRepr(s) == [QuoteFor(s)] + s + [QuoteFor(s)]
  {
    EscapedPlain(s, QuoteFor(s));
  }

  /** A text with a `'` and no `"` is put in double quotes, its `'` left as it is: `"it's"`. */
  lemma StrReprApostrophe()
    ensures StrRepr("it's") == "\"it's\""
  {
    assert '\'' == "it's"[2] && QuoteFor("it's") == '"';
    assert Escaped("s", '"') == "s";
    assert Escaped("'s", '"') == "'" + Escaped("s", '"');
    assert Escaped("t's", '"') == "t" + Escaped("'s", '"');
    assert Escaped("it's", '"') == "i" + Escaped("t's", '"');
  }

  /** A text with both quotes keeps `'` and escapes its `'`: `'a\'"'`. */
  lemma StrReprBothQuotes()
    ensures StrRepr("a'\"") == "'a\\'\"'"
  {
    assert '\'' == "a'\""[1] && '"' == "a'\""[2];
    assert Escaped("a'\"", '\'') == "a" + Escaped("'\"", '\'');
  }

  /** `d[key] = value`: replaces the value in place when the key is present, else appends. */
  function Put<V>(d: seq<(string, V)>, key: string, value: V): (r: seq<(string, V)>)
    ensures (exists i :: 0 <= i < |d| && d[i].0 == key) ==> |r| == |d|
    ensures (forall i :: 0 <= i < |d| ==> d[i].0 != key) ==> r == d + [(key, value)]
  {
    if d == [] then [(key, value)]
    else if d[0].0 == key then [(key, value)] + d[1..]
    else
      var rest := Put(d[1..], key, value);
      assert (exists i :: 0 <= i < |d| && d[i].0 == key) ==> exists i :: 0 <= i < |d[1..]| && d[1..][i].0 == key by {
        if exists i :: 0 <= i < |d| && d[i].0 == key {
          var i :| 0 <= i < |d| && d[i].0 == key;
          assert d[1..][i - 1].0 == key;
        }
      }
      assert d == [d[0]] + d[1..];
      [d[0]] + rest
  }

  /** Looking up after `d[key] = value` sees the new value under `key` and the old ones elsewhere. */
  lemma {:induction false} PutLookup(d: Dict, key: string, value: Json, k: string)
    ensures Lookup(Put(d, key, value), k) == if k == key then Some(value) else Lookup(d, k)
  {
    if d != [] && d[0].0 != key {
      PutLookup(d[1..], key, value, k);
    }
  }

  /** A dict as `json.loads` or a literal builds it: no key twice. */
  predicate UniqueKeys(d: Dict)
  {
    forall i, j :: 0 <= i < j < |d| ==> d[i].0 != d[j].0
  }

  /** In a dict with no key twice, each entry is the one its key reads. */
  lemma GetUnique(d: Dict, k: nat, default: Json)
    requires UniqueKeys(d) && k < |d|
    ensures Get(d, d[k].0, default) == d[k].1
  {
    LookupFirst(d, d[k].0, k);
  }

  /** Keys that are pairwise different, as in a dict display. */
  predicate DistinctKeys(keys: seq<string>)
  {
    forall i, j :: 0 <= i < j < |keys| ==> keys[i] != keys[j]
  }

  /** The dict display `{keys[0]: vals[0], keys[1]: vals[1], ...}`. */
  function Zip(keys: seq<string>, vals: seq<Json>): (d: Dict)
    requires |keys| == |vals|
    ensures |d| == |keys| && forall i :: 0 <= i < |d| ==> d[i] == (keys[i], vals[i])
  {
    seq(|keys|, i requires 0 <= i < |keys| => (keys[i], vals[i]))
  }

  /** In a display with distinct keys, each key reads its own value. */
  lemma GetZip(keys: seq<string>, vals: seq<Json>, i: nat, default: Json)
    requires |keys| == |vals| && i < |keys| && DistinctKeys(keys)
    ensures Get(Zip(keys, vals), keys[i], default) == vals[i]
  {
    LookupFirst(Zip(keys, vals), keys[i], i);
  }

  /** `d.update(e)`: `d[key] = value` for each entry of `e` in turn. */
  function Update(d: Dict, e: Dict): Dict
    decreases |e|
  {
    if e == [] then d else Update(Put(d, e[0].0, e[0].1), e[1..])
  }

  /** After `d.update(e)` a key of `e` has its value from `e`, and every other key keeps its value from `d`. */
  lemma {:induction false} UpdateLookup(d: Dict, e: Dict, k: string)
    ensures !HasKey(e, k) ==> Lookup(Update(d, e), k) == Lookup(d, k)
    ensures UniqueKeys(e) && HasKey(e, k) ==> Lookup(Update(d, e), k) == Lookup(e, k)
    decreases |e|
  {
    if e != [] {
      var rest := e[1..];
      UpdateLookup(Put(d, e[0].0, e[0].1), rest, k);
      PutLookup(d, e[0].0, e[0].1, k);
      assert forall i :: 0 <= i < |rest| ==> rest[i] == e[i + 1];
      if HasKey(rest, k) {
        var i :| 0 <= i < |rest| && rest[i].0 == k;
        assert e[i + 1].0 == k;
      }
      if k != e[0].0 && HasKey(e, k) {
        var i :| 0 <= i < |e| && e[i].0 == k;
        assert rest[i - 1].0 == k;
      }
    }
  }
}
