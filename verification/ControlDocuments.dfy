/** Every value Python writes has a document, in any order of the members of its objects. */
module ControlDocuments {
  import opened Text
  import opened JsonText
  import opened FlatReader
  import opened Controls
  import opened ControlReading

  // ----- Numerals -------------------------------------------------------------------------------

  function Decimal(n: nat): (s: string)
    ensures s != "" && Digits(s)
  {
    if n < 10 then [Digit(n)] else Decimal(n / 10) + [Digit(n % 10)]
  }

  lemma {:induction false} DecimalDenotes(n: nat)
    ensures Natural(Decimal(n)) == n
  {
    var s := Decimal(n);
    if n < 10 {
      assert s[..|s| - 1] == "";
    } else {
      DecimalDenotes(n / 10);
      assert s[..|s| - 1] == Decimal(n / 10);
    }
  }

  function Numeral(n: int): Number { Number(n < 0, Decimal(if n < 0 then -n else n), "", None) }

  /** An integer's numeral denotes it, sign and all. */
  lemma NumeralDenotes(n: int)
    ensures WellFormedNumber(Numeral(n)) && NumberValue(Numeral(n)) == n as real
  {
    var m: nat := if n < 0 then -n else n;
    DecimalDenotes(m);
    assert Decimal(m) + "" == Decimal(m);
    assert Power(0) == 1.0;
  }

  // ----- Documents -------------------------------------------------------------------------------

  ghost predicate HasNumeral(x: real) { exists n :: WellFormedNumber(n) && NumberValue(n) == x }

  /** No infinities and no NaN; every float has a numeral. */
  ghost predicate Finite(v: Value) {
    match v
    case VInfinite(_) => false
    case VNan => false
    case VFloat(x) => HasNumeral(x)
    case VList(items) => forall i :: 0 <= i < |items| ==> Finite(items[i])
    case VDict(entries) => forall k :: k in entries ==> Finite(entries[k])
    case _ => true
  }

  /** An order for the members of each object. */
  ghost predicate Orders(order: Dict -> seq<string>, entries: Dict) {
    && (forall k :: k in order(entries) <==> k in entries)
    && forall i, j :: 0 <= i < j < |order(entries)| ==> order(entries)[i] != order(entries)[j]
  }

  /** For every order of the members there is a document of the value. */
  lemma {:induction false} DocumentOf(v: Value, order: Dict -> seq<string>) returns (j: Json)
    requires Finite(v) && forall entries :: Orders(order, entries)
    ensures Represents(j, v)
    ensures v.VDict? ==> |j.members| == |order(v.entries)|
    ensures v.VDict? ==> forall i :: 0 <= i < |j.members| ==> j.members[i].key == order(v.entries)[i]
    decreases v, 0
  {
    hide Represents, Finite;
    match v
    case VNull => j := Json.Null; Scalars(v, j);
    case VBool(b) => j := Json.Bool(b); Scalars(v, j);
    case VInt(n) => j := Json.Num(Numeral(n)); NumeralDenotes(n); Scalars(v, j);
    case VFloat(x) => j := FloatDocument(x);
    case VStr(s) => j := Json.Str(s); Scalars(v, j);
    case VList(items) =>
      var docs := ItemDocuments(v, items, order);
      j := Json.Arr(docs);
      ListDocument(v, docs);
    case VDict(entries) =>
      assert Orders(order, entries);
      var members := MemberDocuments(v, order(entries), order);
      j := Json.Obj(members);
      DictDocument(v, members, order(entries));
    case _ => FiniteOnly(v);
  }

  lemma FiniteOnly(v: Value)
    requires Finite(v)
    ensures !v.VInfinite? && !v.VNan?
  {}

  lemma Scalars(v: Value, j: Json)
    requires match v
             case VNull => j == Json.Null
             case VBool(b) => j == Json.Bool(b)
             case VInt(n) => j.Num? && WellFormedNumber(j.n) && NumberValue(j.n) == n as real
             case VStr(s) => j == Json.Str(s)
             case _ => false
    ensures Represents(j, v)
  {}

  lemma FloatDocument(x: real) returns (j: Json)
    requires Finite(VFloat(x))
    ensures Represents(j, VFloat(x))
  {
    var n :| WellFormedNumber(n) && NumberValue(n) == x;
    j := Json.Num(n);
  }

  lemma {:induction false} ItemDocuments(v: Value, items: seq<Value>, order: Dict -> seq<string>) returns (docs: seq<Json>)
    requires v.VList? && Finite(v) && items <= v.items && forall entries :: Orders(order, entries)
    ensures |docs| == |items| && forall i :: 0 <= i < |items| ==> Represents(docs[i], items[i])
    decreases v, 0, |items|
  {
    hide Represents;
    if items == [] {
      docs := [];
    } else {
      var n := |items| - 1;
      assert items[n] == v.items[n];
      var front := ItemDocuments(v, items[..n], order);
      var last := DocumentOf(v.items[n], order);
      docs := front + [last];
    }
  }

  lemma ListDocument(v: Value, docs: seq<Json>)
    requires v.VList? && |docs| == |v.items| && forall i :: 0 <= i < |docs| ==> Represents(docs[i], v.items[i])
    ensures Represents(Json.Arr(docs), v)
  {}

  lemma {:induction false} MemberDocuments(v: Value, keys: seq<string>, order: Dict -> seq<string>)
    returns (members: seq<Member>)
    requires v.VDict? && Finite(v) && (forall k :: k in keys ==> k in v.entries)
    requires forall entries :: Orders(order, entries)
    ensures |members| == |keys|
    ensures forall i :: 0 <= i < |keys| ==> members[i].key == keys[i] && Represents(members[i].value, v.entries[keys[i]])
    decreases v, 0, |keys|
  {
    hide Represents, Orders;
    if keys == [] {
      members := [];
    } else {
      var n := |keys| - 1;
      assert keys[n] in keys && forall k :: k in keys[..n] ==> k in keys;
      var front := MemberDocuments(v, keys[..n], order);
      var last := DocumentOf(v.entries[keys[n]], order);
      members := front + [Member(keys[n], last)];
    }
  }

  lemma DictDocument(v: Value, members: seq<Member>, keys: seq<string>)
    requires v.VDict? && |members| == |keys| && (forall k :: k in keys <==> k in v.entries)
    requires forall i, j :: 0 <= i < j < |keys| ==> keys[i] != keys[j]
    requires forall i :: 0 <= i < |keys| ==>
               members[i].key == keys[i] && keys[i] in v.entries && Represents(members[i].value, v.entries[keys[i]])
    ensures Represents(Json.Obj(members), v)
  {
    forall k | k in v.entries
      ensures exists i :: 0 <= i < |members| && members[i].key == k
    {
      var i :| 0 <= i < |keys| && keys[i] == k;
      assert members[i].key == k;
    }
  }
}
