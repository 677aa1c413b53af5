/** JSON values as the handlers build and return them. Objects keep their
    keys in insertion order, as JavaScript objects do; a property whose value
    is `undefined` is represented by leaving the key out, because that is how
    it reaches the wire. */
module Json {
  import opened Common

  datatype Json =
    | JNull
    | JBool(b: bool)
    | JNum(n: int)
    | JStr(s: string)
    | JArr(items: seq<Json>)
    | JObj(fields: seq<(string, Json)>)

  function Keys(fields: seq<(string, Json)>): (r: seq<string>)
    ensures |r| == |fields|
    ensures forall i :: 0 <= i < |fields| ==> r[i] == fields[i].0
  {
    seq(|fields|, i requires 0 <= i < |fields| => fields[i].0)
  }

  /** Property read on an object literal: the first field with the key. */
  function Lookup(fields: seq<(string, Json)>, key: string): (r: Option<Json>)
  {
    if |fields| == 0 then None
    else if fields[0].0 == key then Some(fields[0].1)
    else Lookup(fields[1..], key)
  }

  lemma {:induction false} LookupKeys(fields: seq<(string, Json)>, key: string)
    ensures Lookup(fields, key).Some? <==> key in Keys(fields)
  {
    if |fields| > 0 && fields[0].0 != key {
      assert Keys(fields) == [fields[0].0] + Keys(fields[1..]);
      LookupKeys(fields[1..], key);
    }
  }

  /** `v.key`; reading a property of a non-object gives `undefined`. */
  function Get(v: Json, key: string): Option<Json> {
    if v.JObj? then Lookup(v.fields, key) else None
  }

  predicate Has(v: Json, key: string) {
    Get(v, key).Some?
  }

  /** `obj.key = value` on an object's fields: an existing key keeps its
      position and gets the new value; a new key is appended. */
  function PutField(fields: seq<(string, Json)>, key: string, value: Json): seq<(string, Json)> {
    if |fields| == 0 then [(key, value)]
    else if fields[0].0 == key then [(key, value)] + fields[1..]
    else [fields[0]] + PutField(fields[1..], key, value)
  }

  /** `v.key = value`. Assigning to a property of a primitive has no
      effect. */
  function Put(v: Json, key: string, value: Json): Json {
    if v.JObj? then JObj(PutField(v.fields, key, value)) else v
  }

  /** `if (<present>) v.key = value` */
  function PutIf(v: Json, key: string, o: Option<Json>): Json {
    if o.Some? then Put(v, key, o.value) else v
  }

  /** JavaScript ToBoolean. */
  predicate Truthy(v: Json) {
    match v
    case JNull => false
    case JBool(b) => b
    case JNum(n) => n != 0
    case JStr(s) => s != ""
    case JArr(_) => true
    case JObj(_) => true
  }

  /** ToBoolean of an argument that may be `undefined`. */
  predicate TruthyArg(o: Option<Json>) {
    o.Some? && Truthy(o.value)
  }

  /** ToBoolean of an optional string argument. */
  predicate NonEmpty(o: Option<string>) {
    o.Some? && o.value != ""
  }

  /** A field that an object literal or an assignment includes only when a
      value is present. */
  function Field(key: string, o: Option<Json>): seq<(string, Json)> {
    if o.Some? then [(key, o.value)] else []
  }

  /** The optional fields of an object literal, in order, each included
      only when its value is present. */
  function Fields(opts: seq<(string, Option<Json>)>): seq<(string, Json)> {
    if |opts| == 0 then [] else Field(opts[0].0, opts[0].1) + Fields(opts[1..])
  }

  /** The keys of optional fields are distinct and new to the base object. */
  predicate FreshKeys(base: seq<(string, Json)>, opts: seq<(string, Option<Json>)>) {
    (forall i :: 0 <= i < |opts| ==> opts[i].0 !in Keys(base))
    && (forall i, j :: 0 <= i < j < |opts| ==> opts[i].0 != opts[j].0)
  }

  /** The string argument when it is truthy. */
  function IfNonEmpty(o: Option<string>): Option<Json> {
    if NonEmpty(o) then Some(JStr(o.value)) else None
  }

  /** The string argument when it is not `undefined`. */
  function IfDefined(o: Option<string>): Option<Json> {
    if o.Some? then Some(JStr(o.value)) else None
  }

  /** The argument when it is truthy. */
  function IfTruthy(o: Option<Json>): Option<Json> {
    if TruthyArg(o) then o else None
  }

  /** The array argument when it is a non-empty array. */
  function IfNonEmptyArray(o: Option<seq<Json>>): Option<Json> {
    if o.Some? && |o.value| > 0 then Some(JArr(o.value)) else None
  }

  /** The array argument when it is not `undefined` (so `[]` is kept). */
  function IfArray(o: Option<seq<Json>>): Option<Json> {
    if o.Some? then Some(JArr(o.value)) else None
  }

  /** The number argument when it is not `undefined` (so `0` is kept). */
  function IfNumber(o: Option<int>): Option<Json> {
    if o.Some? then Some(JNum(o.value)) else None
  }

  /** `names.map((n) => ({ name: n }))` */
  function NameObjects(names: seq<string>): (r: seq<Json>)
    ensures |r| == |names|
    ensures forall i :: 0 <= i < |names| ==> r[i] == JObj([("name", JStr(names[i]))])
  {
    seq(|names|, i requires 0 <= i < |names| => JObj([("name", JStr(names[i]))]))
  }

  function StringArray(xs: seq<string>): (r: Json)
    ensures r.JArr? && |r.items| == |xs|
    ensures forall i :: 0 <= i < |xs| ==> r.items[i] == JStr(xs[i])
  {
    JArr(seq(|xs|, i requires 0 <= i < |xs| => JStr(xs[i])))
  }

  // ---------------------------------------------------------------------
  // JSON.stringify without indentation (used where the source embeds a
  // serialised value in a message)

  function HexDigit(d: nat): char
    requires d < 16
  {
    "0123456789abcdef"[d]
  }

  function EscapeChar(c: char): string {
    if c == '"' then "\\\""
    else if c == '\\' then "\\\\"
    else if c as int == 8 then "\\b"
    else if c as int == 12 then "\\f"
    else if c == '\n' then "\\n"
    else if c == '\r' then "\\r"
    else if c == '\t' then "\\t"
    else if (c as int) < 0x20 then "\\u00" + [HexDigit(c as int / 16), HexDigit(c as int % 16)]
    else [c]
  }

  function Escape(s: string): string {
    if |s| == 0 then "" else EscapeChar(s[0]) + Escape(s[1..])
  }

  function Quote(s: string): string {
    "\"" + Escape(s) + "\""
  }

  function Stringify(v: Json): string
    decreases v
  {
    match v
    case JNull => "null"
    case JBool(b) => if b then "true" else "false"
    case JNum(n) => Decimal(n)
    case JStr(s) => Quote(s)
    case JArr(items) =>
      "[" + Join(seq(|items|, i requires 0 <= i < |items| => Stringify(items[i])), ",") + "]"
    case JObj(fields) =>
      "{" + Join(seq(|fields|, i requires 0 <= i < |fields| =>
                   assert fields[i] in fields;
                   Quote(fields[i].0) + ":" + Stringify(fields[i].1)), ",") + "}"
  }

  /** `JSON.stringify(x)` interpolated into a template literal: an
      `undefined` value serialises to `undefined`, which prints as
      "undefined". */
  function StringifyArg(o: Option<Json>): string {
    if o.Some? then Stringify(o.value) else "undefined"
  }

  // ---------------------------------------------------------------------
  // Properties of property assignment and lookup

  /** After `obj.key = value`, reading `key` gives `value`. */
  lemma {:induction false} LookupPutSame(fields: seq<(string, Json)>, key: string, value: Json)
    ensures Lookup(PutField(fields, key, value), key) == Some(value)
  {
    if |fields| > 0 && fields[0].0 != key {
      LookupPutSame(fields[1..], key, value);
    }
  }

  /** `obj.key = value` leaves every other property as it was. */
  lemma {:induction false} LookupPutOther(fields: seq<(string, Json)>, key: string, value: Json, other: string)
    requires other != key
    ensures Lookup(PutField(fields, key, value), other) == Lookup(fields, other)
  {
    if |fields| > 0 && fields[0].0 != key {
      LookupPutOther(fields[1..], key, value, other);
    }
  }

  /** Assigning a key the object does not have appends exactly that field. */
  lemma {:induction false} PutFresh(fields: seq<(string, Json)>, key: string, value: Json)
    requires key !in Keys(fields)
    ensures PutField(fields, key, value) == fields + [(key, value)]
  {
    if |fields| > 0 {
      assert Keys(fields) == [fields[0].0] + Keys(fields[1..]);
      PutFresh(fields[1..], key, value);
      assert fields == [fields[0]] + fields[1..];
    }
  }

  /** Reading an object literal that ends in an optional field. */
  lemma LookupOptional(fields: seq<(string, Json)>, key: string, o: Option<Json>, k: string)
    requires key !in Keys(fields)
    ensures Lookup(fields + Field(key, o), k) == if k == key && o.Some? then o else Lookup(fields, k)
  {
    LookupConcat(fields, Field(key, o), k);
    LookupKeys(fields, k);
    if o.Some? {
      assert Keys(Field(key, o)) == [key];
    }
  }

  /** Assigning a key the object lacks, when a value is present, gives the
      object literal with that optional field at the end. */
  lemma PutIfFresh(fields: seq<(string, Json)>, key: string, o: Option<Json>)
    requires key !in Keys(fields)
    ensures PutIf(JObj(fields), key, o) == JObj(fields + Field(key, o))
  {
    if o.Some? {
      PutFresh(fields, key, o.value);
    } else {
      assert fields + [] == fields;
    }
  }

  /** In an object made of fixed fields followed by optional ones, each
      optional key reads as its value when present and is absent otherwise,
      and every other key reads as in the fixed part. */
  lemma {:induction false} LookupFields(base: seq<(string, Json)>, opts: seq<(string, Option<Json>)>, k: string)
    requires FreshKeys(base, opts)
    ensures forall i :: 0 <= i < |opts| && opts[i].0 == k ==> Lookup(base + Fields(opts), k) == opts[i].1
    ensures (forall i :: 0 <= i < |opts| ==> opts[i].0 != k) ==> Lookup(base + Fields(opts), k) == Lookup(base, k)
    decreases |opts|
  {
    if |opts| == 0 {
      assert base + Fields(opts) == base;
    } else {
      var head := base + Field(opts[0].0, opts[0].1);
      assert base + Fields(opts) == head + Fields(opts[1..]);
      LookupOptional(base, opts[0].0, opts[0].1, k);
      KeysConcat(base, Field(opts[0].0, opts[0].1));
      assert FreshKeys(head, opts[1..]) by {
        forall i | 0 <= i < |opts[1..]|
          ensures opts[1..][i].0 !in Keys(head)
        {
          assert opts[1..][i] == opts[i + 1];
        }
        forall i, j | 0 <= i < j < |opts[1..]|
          ensures opts[1..][i].0 != opts[1..][j].0
        {
          assert opts[1..][i] == opts[i + 1] && opts[1..][j] == opts[j + 1];
        }
      }
      LookupFields(head, opts[1..], k);
      if opts[0].0 == k {
        LookupKeys(base, k);
        forall i | 0 <= i < |opts[1..]|
          ensures opts[1..][i].0 != k
        {
          assert opts[1..][i] == opts[i + 1];
        }
      } else {
        forall i | 0 <= i < |opts[1..]| && opts[1..][i].0 == k
          ensures Lookup(base + Fields(opts), k) == opts[1..][i].1
        {
        }
      }
    }
  }

  /** Adding one more optional field at the end of an object built from
      optional fields. */
  lemma {:induction false} FieldsSnoc(opts: seq<(string, Option<Json>)>, key: string, o: Option<Json>)
    ensures Fields(opts + [(key, o)]) == Fields(opts) + Field(key, o)
    decreases |opts|
  {
    if |opts| == 0 {
      assert opts + [(key, o)] == [(key, o)];
      assert Fields([(key, o)]) == Field(key, o) + Fields([]);
    } else {
      var longer := opts + [(key, o)];
      assert longer[0] == opts[0];
      assert longer[1..] == opts[1..] + [(key, o)];
      FieldsSnoc(opts[1..], key, o);
      calc {
        Fields(longer);
        Field(opts[0].0, opts[0].1) + Fields(opts[1..] + [(key, o)]);
        Field(opts[0].0, opts[0].1) + (Fields(opts[1..]) + Field(key, o));
        Fields(opts) + Field(key, o);
      }
    }
  }

  lemma {:induction false} KeysOfFields(opts: seq<(string, Option<Json>)>, key: string)
    requires forall i :: 0 <= i < |opts| ==> opts[i].0 != key
    ensures key !in Keys(Fields(opts))
    decreases |opts|
  {
    if |opts| > 0 {
      KeysOfFields(opts[1..], key);
      KeysConcat(Field(opts[0].0, opts[0].1), Fields(opts[1..]));
    }
  }

  /** One step of building an object by successive conditional
      assignments: assigning the next optional field extends the literal by
      that field. */
  lemma AssignStep(base: seq<(string, Json)>, opts: seq<(string, Option<Json>)>, i: nat)
    requires FreshKeys(base, opts)
    requires i < |opts|
    ensures PutIf(JObj(base + Fields(opts[..i])), opts[i].0, opts[i].1) == JObj(base + Fields(opts[..i + 1]))
  {
    KeysOfFields(opts[..i], opts[i].0);
    KeysConcat(base, Fields(opts[..i]));
    PutIfFresh(base + Fields(opts[..i]), opts[i].0, opts[i].1);
    FieldsSnoc(opts[..i], opts[i].0, opts[i].1);
    assert opts[..i] + [(opts[i].0, opts[i].1)] == opts[..i + 1];
  }

  /** What a conditional assignment does to each property of an object. */
  lemma PutIfReads(v: Json, key: string, o: Option<Json>)
    requires v.JObj?
    ensures PutIf(v, key, o).JObj?
    ensures Get(PutIf(v, key, o), key) == if o.Some? then o else Get(v, key)
    ensures forall k :: k != key ==> Get(PutIf(v, key, o), k) == Get(v, k)
  {
    if o.Some? {
      LookupPutSame(v.fields, key, o.value);
      forall k | k != key
        ensures Get(PutIf(v, key, o), k) == Get(v, k)
      {
        LookupPutOther(v.fields, key, o.value, k);
      }
    }
  }

  /** A conditional assignment to one key leaves every other key as it was. */
  lemma PutIfKeeps(v: Json, key: string, o: Option<Json>, k: string)
    requires v.JObj? && k != key
    ensures PutIf(v, key, o).JObj?
    ensures Get(PutIf(v, key, o), k) == Get(v, k)
  {
    if o.Some? {
      LookupPutOther(v.fields, key, o.value, k);
    }
  }

  /** A conditional assignment sets its key when the value is present. */
  lemma PutIfSets(v: Json, key: string, o: Option<Json>)
    requires v.JObj?
    ensures PutIf(v, key, o).JObj?
    ensures Get(PutIf(v, key, o), key) == if o.Some? then o else Get(v, key)
  {
    if o.Some? {
      LookupPutSame(v.fields, key, o.value);
    }
  }

  /** Three conditional assignments in a row, as the request builders
      write them. */
  function PutIf3(v: Json, k1: string, o1: Option<Json>, k2: string, o2: Option<Json>, k3: string, o3: Option<Json>): Json {
    PutIf(PutIf(PutIf(v, k1, o1), k2, o2), k3, o3)
  }

  /** Each of three assignments to distinct keys sets its key when its value
      is present and leaves it as it was otherwise. */
  lemma PutIf3Sets(v: Json, k1: string, o1: Option<Json>, k2: string, o2: Option<Json>, k3: string, o3: Option<Json>)
    requires v.JObj? && k1 != k2 && k1 != k3 && k2 != k3
    ensures PutIf3(v, k1, o1, k2, o2, k3, o3).JObj?
    ensures Get(PutIf3(v, k1, o1, k2, o2, k3, o3), k1) == if o1.Some? then o1 else Get(v, k1)
    ensures Get(PutIf3(v, k1, o1, k2, o2, k3, o3), k2) == if o2.Some? then o2 else Get(v, k2)
    ensures Get(PutIf3(v, k1, o1, k2, o2, k3, o3), k3) == if o3.Some? then o3 else Get(v, k3)
  {
    var r1 := PutIf(v, k1, o1);
    var r2 := PutIf(r1, k2, o2);
    PutIfSets(v, k1, o1);
    PutIfKeeps(v, k1, o1, k2);
    PutIfKeeps(v, k1, o1, k3);
    PutIfSets(r1, k2, o2);
    PutIfKeeps(r1, k2, o2, k1);
    PutIfKeeps(r1, k2, o2, k3);
    PutIfSets(r2, k3, o3);
    PutIfKeeps(r2, k3, o3, k1);
    PutIfKeeps(r2, k3, o3, k2);
  }

  /** Three assignments leave every other key as it was. */
  lemma PutIf3Keeps(v: Json, k1: string, o1: Option<Json>, k2: string, o2: Option<Json>, k3: string, o3: Option<Json>, k: string)
    requires v.JObj? && k != k1 && k != k2 && k != k3
    ensures PutIf3(v, k1, o1, k2, o2, k3, o3).JObj?
    ensures Get(PutIf3(v, k1, o1, k2, o2, k3, o3), k) == Get(v, k)
  {
    var r1 := PutIf(v, k1, o1);
    var r2 := PutIf(r1, k2, o2);
    PutIfKeeps(v, k1, o1, k);
    PutIfKeeps(r1, k2, o2, k);
    PutIfKeeps(r2, k3, o3, k);
  }

  /** Reading a key of a concatenation of field lists. */
  lemma {:induction false} LookupConcat(a: seq<(string, Json)>, b: seq<(string, Json)>, key: string)
    ensures Lookup(a + b, key) == if key in Keys(a) then Lookup(a, key) else Lookup(b, key)
  {
    if |a| > 0 {
      assert (a + b)[1..] == a[1..] + b;
      assert Keys(a) == [a[0].0] + Keys(a[1..]);
      LookupConcat(a[1..], b, key);
    } else {
      assert a + b == b;
    }
  }

  /** Reading a key finds the first field that carries it. */
  lemma {:induction false} LookupIndex(fields: seq<(string, Json)>, key: string, i: nat)
    requires i < |fields| && fields[i].0 == key
    requires forall j :: 0 <= j < i ==> fields[j].0 != key
    ensures Lookup(fields, key) == Some(fields[i].1)
  {
    if i > 0 {
      LookupIndex(fields[1..], key, i - 1);
    }
  }

  lemma KeysConcat(a: seq<(string, Json)>, b: seq<(string, Json)>)
    ensures Keys(a + b) == Keys(a) + Keys(b)
  {
  }
}
