/**
 * The JSON values the tool reads from and writes to its metadata file, with
 * the handful of Python dict/list operations it applies to them.  An object
 * keeps its keys in insertion order, as a Python dict does.
 */
module Json {
  import opened Wrappers
  import Text

  datatype Json =
    | JNull
    | JBool(b: bool)
    | JInt(i: int)
    | JStr(s: string)
    | JArr(items: seq<Json>)
    | JObj(fields: seq<(string, Json)>)

  type Fields = seq<(string, Json)>

  function Keys(fields: Fields): (ks: seq<string>)
    ensures |ks| == |fields|
    ensures forall i :: 0 <= i < |fields| ==> ks[i] == fields[i].0
  {
    if fields == [] then [] else [fields[0].0] + Keys(fields[1..])
  }

  lemma KeysAppend(a: Fields, b: Fields)
    ensures Keys(a + b) == Keys(a) + Keys(b)
  {
  }

  /** The value stored under k (the first entry with that key). */
  function Lookup(fields: Fields, k: string): (r: Option<Json>)
    ensures r.None? <==> k !in Keys(fields)
  {
    if fields == [] then None
    else if fields[0].0 == k then Some(fields[0].1)
    else Lookup(fields[1..], k)
  }

  /** In a dict, each entry is what its own key looks up. */
  lemma {:induction false} LookupAt(fields: Fields, i: nat)
    requires UniqueKeys(fields) && i < |fields|
    ensures Lookup(fields, fields[i].0) == Some(fields[i].1)
  {
    if i > 0 {
      LookupAt(fields[1..], i - 1);
    }
  }

  /** A key missing from a prefix is looked up in what follows it. */
  lemma {:induction false} LookupAfter(a: Fields, b: Fields, k: string)
    requires k !in Keys(a)
    ensures Lookup(a + b, k) == Lookup(b, k)
  {
    if a != [] {
      assert (a + b)[1..] == a[1..] + b;
      assert Keys(a) == [a[0].0] + Keys(a[1..]);
      LookupAfter(a[1..], b, k);
    } else {
      assert a + b == b;
    }
  }

  /** d[k] = v: replaces the entry in place when k is present, appends it otherwise. */
  function Put(fields: Fields, k: string, v: Json): Fields {
    if fields == [] then [(k, v)]
    else if fields[0].0 == k then [(k, v)] + fields[1..]
    else [fields[0]] + Put(fields[1..], k, v)
  }

  /** d.pop(k) for a present key, or nothing for an absent one. */
  function Remove(fields: Fields, k: string): Fields {
    if fields == [] then []
    else if fields[0].0 == k then Remove(fields[1..], k)
    else [fields[0]] + Remove(fields[1..], k)
  }

  /** No key appears twice, as in every Python dict. */
  predicate UniqueKeys(fields: Fields) {
    forall i, j :: 0 <= i < j < |fields| ==> fields[i].0 != fields[j].0
  }

  lemma {:induction false} PutLookup(fields: Fields, k: string, v: Json)
    ensures Lookup(Put(fields, k, v), k) == Some(v)
  {
    if fields != [] && fields[0].0 != k {
      PutLookup(fields[1..], k, v);
    }
  }

  lemma {:induction false} PutLookupOther(fields: Fields, k: string, v: Json, other: string)
    requires other != k
    ensures Lookup(Put(fields, k, v), other) == Lookup(fields, other)
  {
    if fields != [] && fields[0].0 != k {
      PutLookupOther(fields[1..], k, v, other);
    }
  }

  /** Assigning keeps the key order: a new key goes last, an existing key keeps its place. */
  lemma {:induction false} PutKeys(fields: Fields, k: string, v: Json)
    ensures Keys(Put(fields, k, v)) == if k in Keys(fields) then Keys(fields) else Keys(fields) + [k]
  {
    if fields != [] && fields[0].0 != k {
      PutKeys(fields[1..], k, v);
      assert Keys(fields) == [fields[0].0] + Keys(fields[1..]);
    }
  }

  lemma {:induction false} PutUnique(fields: Fields, k: string, v: Json)
    requires UniqueKeys(fields)
    ensures UniqueKeys(Put(fields, k, v))
  {
    PutKeys(fields, k, v);
    var r := Put(fields, k, v);
    forall i, j | 0 <= i < j < |r| ensures r[i].0 != r[j].0 {
      assert Keys(r)[i] == r[i].0 && Keys(r)[j] == r[j].0;
      if k !in Keys(fields) && j == |fields| {
        assert Keys(fields)[i] == fields[i].0;
      } else {
        assert Keys(fields)[i] == fields[i].0 && Keys(fields)[j] == fields[j].0;
      }
    }
  }

  lemma {:induction false} RemoveLookup(fields: Fields, k: string)
    ensures Lookup(Remove(fields, k), k) == None
  {
    if fields != [] {
      RemoveLookup(fields[1..], k);
    }
  }

  lemma {:induction false} RemoveLookupOther(fields: Fields, k: string, other: string)
    requires other != k
    ensures Lookup(Remove(fields, k), other) == Lookup(fields, other)
  {
    if fields != [] {
      RemoveLookupOther(fields[1..], k, other);
    }
  }

  /** The keys other than k, in order. */
  function Without(ks: seq<string>, k: string): (r: seq<string>)
    ensures k !in r
    ensures forall x :: x in ks && x != k ==> x in r
    ensures forall x :: x in r ==> x in ks
  {
    if ks == [] then []
    else if ks[0] == k then Without(ks[1..], k)
    else [ks[0]] + Without(ks[1..], k)
  }

  /** Removing a key keeps every other key, in order. */
  lemma {:induction false} RemoveKeys(fields: Fields, k: string)
    ensures Keys(Remove(fields, k)) == Without(Keys(fields), k)
  {
    if fields != [] {
      RemoveKeys(fields[1..], k);
      assert Keys(fields) == [fields[0].0] + Keys(fields[1..]);
    }
  }

  // ---------------------------------------------------------------------
  // str() of a decoded value, as an f-string renders it.

  /** A character that repr() of a str writes as it is (ASCII printable, and the printable Latin-1 and wider characters). */
  predicate ReprPrintable(ch: char) {
    (32 <= ch as int < 0x7f) || (0xa0 < ch as int && ch as int != 0xad)
  }

  /** The quote repr() puts around s: a double quote only when s has a single quote and no double quote. */
  function ReprQuote(s: string): (q: char)
    ensures q == '\'' || q == '"'
    ensures q == '"' <==> '\'' in s && '"' !in s
  {
    if '\'' in s && '"' !in s then '"' else '\''
  }

  /** Two lower-case hex digits of a code below 256. */
  function HexByte(n: nat): (r: string)
    requires n < 256
    ensures |r| == 2
  {
    var digits := "0123456789abcdef";
    [digits[n / 16], digits[n % 16]]
  }

  /** How repr() writes one character of a str quoted by q. */
  function EscapeChar(ch: char, q: char): (r: string)
    requires q == '\'' || q == '"'
    ensures |r| >= 1
    ensures ReprPrintable(ch) && ch != q && ch != '\\' ==> r == [ch]
    ensures r[0] != q
  {
    if ch == q || ch == '\\' then ['\\', ch]
    else if ch == '\t' then "\\t"
    else if ch == '\n' then "\\n"
    else if ch == '\r' then "\\r"
    else if ReprPrintable(ch) then [ch]
    else "\\x" + HexByte(ch as int)
  }

  function EscapeChars(s: string, q: char): (r: string)
    requires q == '\'' || q == '"'
    ensures (forall i :: 0 <= i < |s| ==> ReprPrintable(s[i]) && s[i] != q && s[i] != '\\') ==> r == s
  {
    if s == [] then [] else EscapeChar(s[0], q) + EscapeChars(s[1..], q)
  }

  /** repr() of a str: quoted, with the quote, backslashes and unprintable characters escaped. */
  function StrRepr(s: string): (r: string)
    ensures |r| >= 2 && r[0] == r[|r| - 1] == ReprQuote(s)
    ensures (forall i :: 0 <= i < |s| ==> ReprPrintable(s[i]) && s[i] != '\\' && s[i] != '\'') ==> r == "'" + s + "'"
  {
    [ReprQuote(s)] + EscapeChars(s, ReprQuote(s)) + [ReprQuote(s)]
  }

  /** repr() of a decoded value: how str() writes it inside a list or a dict. */
  function Repr(j: Json): string
    decreases j, 1
  {
    match j
    case JNull => "None"
    case JBool(b) => if b then "True" else "False"
    case JInt(i) => Text.IntToString(i)
    case JStr(s) => StrRepr(s)
    case JArr(items) => "[" + ReprItems(j, 0) + "]"
    case JObj(fields) => "{" + ReprFields(j, 0) + "}"
  }

  /** The elements of a list from index k on, separated by ", ". */
  function ReprItems(j: Json, k: nat): string
    requires j.JArr?
    decreases j, 0, |j.items| - k
  {
    if k >= |j.items| then ""
    else (if k == 0 then "" else ", ") + Repr(j.items[k]) + ReprItems(j, k + 1)
  }

  /** The entries of a dict from index k on, each written `'key': value`. */
  function ReprFields(j: Json, k: nat): string
    requires j.JObj?
    decreases j, 0, |j.fields| - k
  {
    if k >= |j.fields| then ""
    else
      assert j.fields[k] in j.fields;
      (if k == 0 then "" else ", ") + StrRepr(j.fields[k].0) + ": " + Repr(j.fields[k].1) + ReprFields(j, k + 1)
  }

  /**
   * str() of a decoded value: a string as it is, anything else as its
   * repr() (None, True and False by name, an integer in decimal, a list or
   * dict with its elements' reprs).
   */
  function PyStr(j: Json): (r: string)
    ensures j.JStr? ==> r == j.s
    ensures j.JInt? ==> r == Text.IntToString(j.i)
  {
    if j.JStr? then j.s else Repr(j)
  }

  /** str() forgets the type: a null and the string "None" read the same, as do true and "True". */
  lemma PyStrForgetsType()
    ensures PyStr(JNull) == PyStr(JStr("None"))
    ensures PyStr(JBool(true)) == PyStr(JStr("True"))
    ensures PyStr(JArr([])) == PyStr(JStr("[]"))
  {
  }

  /** Python truthiness: None, False, 0, "", [] and {} are false. */
  predicate Truthy(j: Json) {
    match j
    case JNull => false
    case JBool(b) => b
    case JInt(i) => i != 0
    case JStr(s) => s != ""
    case JArr(items) => items != []
    case JObj(fields) => fields != []
  }

  /** j.get(k, default): only a dict has a get method. */
  function GetOr(j: Json, k: string, default: Json): (r: Result<Json>)
    ensures r.Ok? <==> j.JObj?
    ensures j.JObj? && k !in Keys(j.fields) ==> r == Ok(default)
  {
    if j.JObj? then
      match Lookup(j.fields, k)
      case Some(v) => Ok(v)
      case None => Ok(default)
    else Err(AttributeError)
  }

  /** j[k] with a string key. */
  function Index(j: Json, k: string): (r: Result<Json>)
    ensures r.Ok? <==> j.JObj? && k in Keys(j.fields)
    ensures r.Err? ==> r.error == (if j.JObj? then KeyError else TypeError)
  {
    if j.JObj? then
      match Lookup(j.fields, k)
      case Some(v) => Ok(v)
      case None => Err(KeyError)
    else Err(TypeError)
  }

  /** j[0]: the first element of a list or the first character of a string. */
  function First(j: Json): (r: Result<Json>)
    ensures r.Ok? <==> (j.JArr? && j.items != []) || (j.JStr? && j.s != [])
  {
    match j
    case JArr(items) => if items != [] then Ok(items[0]) else Err(IndexError)
    case JStr(s) => if s != [] then Ok(JStr([s[0]])) else Err(IndexError)
    case JObj(_) => Err(KeyError)   // a JSON object's keys are strings, never 0
    case _ => Err(TypeError)
  }

  /** `k in j`: a key of a dict, an element of a list, a substring of a string. */
  function Contains(j: Json, k: string): (r: Result<bool>)
    ensures j.JObj? ==> r == Ok(k in Keys(j.fields))
  {
    match j
    case JObj(fields) => Ok(k in Keys(fields))
    case JArr(items) => Ok(JStr(k) in items)
    case JStr(s) => Ok(Text.IsSubstring(k, s))
    case _ => Err(TypeError)
  }

  /** j.pop(k) for a key that is present: the container without it. */
  function Pop(j: Json, k: string): (r: Result<Json>)
    ensures r.Ok? <==> j.JObj?
    ensures j.JObj? ==> r == Ok(JObj(Remove(j.fields, k)))
  {
    match j
    case JObj(fields) => Ok(JObj(Remove(fields, k)))
    case JArr(_) => Err(TypeError)       // list.pop wants an integer index
    case _ => Err(AttributeError)
  }

  /** j[k] = v. */
  function SetItem(j: Json, k: string, v: Json): (r: Result<Json>)
    ensures r.Ok? <==> j.JObj?
  {
    if j.JObj? then Ok(JObj(Put(j.fields, k, v))) else Err(TypeError)
  }

  /** j.items(): only a dict has an items method. */
  function Items(j: Json): (r: Result<Fields>)
    ensures r.Ok? <==> j.JObj?
    ensures j.JObj? ==> r.value == j.fields
  {
    if j.JObj? then Ok(j.fields) else Err(AttributeError)
  }
}
