/** The cursor order of src/cdc_flight/backfill.py.  A delivered primary key is kept as
    type-tagged JSON and compared by a type-aware order key; the order a restart reads
    back from the JSON is the order of the delivered keys. */
module CursorOrder {
  import opened Options

  datatype Float = NotANumber | PlusInfinity | MinusInfinity | Finite(r: real)

  /** A delivered value; `Foreign` is a value of any other runtime type. */
  datatype Value =
    | Null
    | Boolean(b: bool)
    | Whole(n: int)
    | Decimal(r: real)
    | Floating(f: Float)
    | Text(s: string)
    | Bytes(bytes: seq<int>)
    | Uuid(bytes: seq<int>)
    | DateTime(iso: string)
    | Date(iso: string)
    | Time(iso: string)
    | Interval(days: int, seconds: int, microseconds: int)
    | Mapping(items: seq<(string, Value)>)
    | Listing(values: seq<Value>)
    | Tuple(values: seq<Value>)
    | Foreign(typeName: string, repr: string)

  /** JSON, with the rendering of a scalar other than a string kept as that scalar. */
  datatype Json =
    | JNull
    | JBool(b: bool)
    | JInt(n: int)
    | JString(s: string)
    | JRendered(scalar: Value)
    | JArray(items: seq<Json>)
    | JObject(members: seq<(string, Json)>)

  // ---------------------------------------------------------------------------
  // Order keys
  // ---------------------------------------------------------------------------

  /** A nested tuple of numbers, character sequences and byte strings. */
  datatype Ord = Num(r: real) | Chars(codes: seq<int>) | Raw(codes: seq<int>) | Tup(items: seq<Ord>)

  function Codes(s: string): (codes: seq<int>)
    ensures |codes| == |s| && forall i :: 0 <= i < |s| ==> codes[i] == s[i] as int
  {
    seq(|s|, i requires 0 <= i < |s| => s[i] as int)
  }

  function Named(name: string, key: Ord): Ord {
    Tup([Chars(Codes(name)), key])
  }

  /** The number an order key starts with. */
  function Kind(v: Value): real {
    match v
    case Null => 0.0
    case Boolean(_) => 1.0
    case Whole(_) | Decimal(_) => 2.0
    case Floating(_) => 3.0
    case Text(_) => 4.0
    case Bytes(_) | Uuid(_) => 5.0
    case DateTime(_) => 6.0
    case Date(_) => 7.0
    case Time(_) => 8.0
    case Interval(_, _, _) => 9.0
    case Mapping(_) => 10.0
    case Listing(_) | Tuple(_) => 11.0
    case Foreign(_, _) => 12.0
  }

  /** What follows it. Non-finite floats come after finite ones, by name. */
  function Tail(v: Value): seq<Ord>
    decreases v, 0
  {
    match v
    case Null => []
    case Boolean(b) => [Num(if b then 1.0 else 0.0)]
    case Whole(n) => [Num(n as real)]
    case Decimal(r) => [Num(r)]
    case Floating(Finite(r)) => [Num(0.0), Num(r)]
    case Floating(NotANumber) => [Num(1.0), Chars(Codes("NaN"))]
    case Floating(PlusInfinity) => [Num(1.0), Chars(Codes("Infinity"))]
    case Floating(MinusInfinity) => [Num(1.0), Chars(Codes("-Infinity"))]
    case Text(s) => [Chars(Codes(s))]
    case Bytes(bytes) => [Raw(bytes)]
    case Uuid(bytes) => [Raw(bytes)]
    case DateTime(iso) => [Chars(Codes(iso))]
    case Date(iso) => [Chars(Codes(iso))]
    case Time(iso) => [Chars(Codes(iso))]
    case Interval(d, s, us) => [Num(d as real), Num(s as real), Num(us as real)]
    case Mapping(items) => [Tup(Pairs(Sort(seq(|items|, i requires 0 <= i < |items| => (items[i].0, Order(items[i].1))))))]
    case Listing(values) => [Tup(seq(|values|, i requires 0 <= i < |values| => Order(values[i])))]
    case Tuple(values) => [Tup(seq(|values|, i requires 0 <= i < |values| => Order(values[i])))]
    case Foreign(name, repr) => [Chars(Codes(name)), Chars(Codes(repr))]
  }

  function Order(v: Value): Ord
    decreases v, 1
  {
    Tup([Num(Kind(v))] + Tail(v))
  }

  function Orders(values: seq<Value>): (orders: seq<Ord>)
    ensures |orders| == |values| && forall i :: 0 <= i < |values| ==> orders[i] == Order(values[i])
  {
    seq(|values|, i requires 0 <= i < |values| => Order(values[i]))
  }

  function NamedOrders(items: seq<(string, Value)>): (orders: seq<(string, Ord)>)
    ensures |orders| == |items| && forall i :: 0 <= i < |items| ==> orders[i] == (items[i].0, Order(items[i].1))
  {
    seq(|items|, i requires 0 <= i < |items| => (items[i].0, Order(items[i].1)))
  }

  function Pairs(items: seq<(string, Ord)>): (pairs: seq<Ord>)
    ensures |pairs| == |items| && forall i :: 0 <= i < |items| ==> pairs[i] == Named(items[i].0, items[i].1)
  {
    seq(|items|, i requires 0 <= i < |items| => Named(items[i].0, items[i].1))
  }

  // ---------------------------------------------------------------------------
  // Comparison
  // ---------------------------------------------------------------------------

  function CmpCodes(a: seq<int>, b: seq<int>): int {
    if a == [] then (if b == [] then 0 else -1)
    else if b == [] then 1
    else if a[0] < b[0] then -1
    else if a[0] > b[0] then 1
    else CmpCodes(a[1..], b[1..])
  }

  function Rank(a: Ord): int {
    match a
    case Num(_) => 0
    case Chars(_) => 1
    case Raw(_) => 2
    case Tup(_) => 3
  }

  /** Lexicographic comparison: negative, zero or positive. Elements of different kinds
      are told apart by kind; `NeverMixed` shows no two order keys come to that. */
  function Cmp(a: Ord, b: Ord): int
    decreases a
  {
    match (a, b)
    case (Num(x), Num(y)) => if x < y then -1 else if x > y then 1 else 0
    case (Chars(x), Chars(y)) => CmpCodes(x, y)
    case (Raw(x), Raw(y)) => CmpCodes(x, y)
    case (Tup(x), Tup(y)) => CmpItems(x, y)
    case _ => Rank(a) - Rank(b)
  }

  function CmpItems(x: seq<Ord>, y: seq<Ord>): int
    decreases x
  {
    if x == [] then (if y == [] then 0 else -1)
    else if y == [] then 1
    else if Cmp(x[0], y[0]) != 0 then Cmp(x[0], y[0])
    else CmpItems(x[1..], y[1..])
  }

  /** Comparing never meets two elements of different kinds. */
  predicate Comparable(a: Ord, b: Ord)
    decreases a
  {
    match (a, b)
    case (Num(_), Num(_)) => true
    case (Chars(_), Chars(_)) => true
    case (Raw(_), Raw(_)) => true
    case (Tup(x), Tup(y)) => ComparableItems(x, y)
    case _ => false
  }

  predicate ComparableItems(x: seq<Ord>, y: seq<Ord>)
    decreases x
  {
    x == [] || y == [] || if x[0] == y[0] then ComparableItems(x[1..], y[1..]) else Comparable(x[0], y[0])
  }

  // ---------------------------------------------------------------------------
  // Sorting a mapping by name
  // ---------------------------------------------------------------------------

  predicate NameLess(a: string, b: string) {
    CmpCodes(Codes(a), Codes(b)) < 0
  }

  function Insert<T>(x: (string, T), sorted: seq<(string, T)>): seq<(string, T)> {
    if sorted == [] then [x]
    else if NameLess(sorted[0].0, x.0) then [sorted[0]] + Insert(x, sorted[1..])
    else [x] + sorted
  }

  /** Stable, by name. */
  function Sort<T>(items: seq<(string, T)>): seq<(string, T)> {
    if items == [] then [] else Insert(items[0], Sort(items[1..]))
  }

  // ---------------------------------------------------------------------------
  // The order is total
  // ---------------------------------------------------------------------------

  lemma {:induction false} CodesTotal(a: seq<int>, b: seq<int>)
    ensures CmpCodes(a, b) == 0 <==> a == b
    ensures CmpCodes(a, b) < 0 <==> CmpCodes(b, a) > 0
    ensures CmpCodes(a, b) > 0 <==> CmpCodes(b, a) < 0
  {
    if a != [] && b != [] && a[0] == b[0] {
      CodesTotal(a[1..], b[1..]);
      assert a == [a[0]] + a[1..] && b == [b[0]] + b[1..];
    }
  }

  lemma {:induction false} CodesTransitive(a: seq<int>, b: seq<int>, c: seq<int>)
    requires CmpCodes(a, b) <= 0 && CmpCodes(b, c) <= 0
    ensures CmpCodes(a, c) <= 0
  {
    if a != [] && b != [] && c != [] && a[0] == b[0] == c[0] {
      CodesTransitive(a[1..], b[1..], c[1..]);
    }
  }

  /** Two order keys compare equal only if they are equal, and comparing them the other
      way round gives the opposite answer. */
  lemma {:induction false} CmpTotal(a: Ord, b: Ord)
    ensures Cmp(a, b) == 0 <==> a == b
    ensures Cmp(a, b) < 0 <==> Cmp(b, a) > 0
    ensures Cmp(a, b) > 0 <==> Cmp(b, a) < 0
    decreases a
  {
    match (a, b)
    case (Chars(x), Chars(y)) => CodesTotal(x, y);
    case (Raw(x), Raw(y)) => CodesTotal(x, y);
    case (Tup(x), Tup(y)) => ItemsTotal(x, y);
    case _ =>
  }

  lemma {:induction false} ItemsTotal(x: seq<Ord>, y: seq<Ord>)
    ensures CmpItems(x, y) == 0 <==> x == y
    ensures CmpItems(x, y) < 0 <==> CmpItems(y, x) > 0
    ensures CmpItems(x, y) > 0 <==> CmpItems(y, x) < 0
    decreases x
  {
    if x != [] && y != [] {
      CmpTotal(x[0], y[0]);
      if x[0] == y[0] {
        ItemsTotal(x[1..], y[1..]);
        assert x == [x[0]] + x[1..] && y == [y[0]] + y[1..];
      }
    }
  }

  lemma {:induction false} CmpTransitive(a: Ord, b: Ord, c: Ord)
    requires Cmp(a, b) <= 0 && Cmp(b, c) <= 0
    ensures Cmp(a, c) <= 0
    decreases a
  {
    match (a, b, c)
    case (Chars(x), Chars(y), Chars(z)) => CodesTransitive(x, y, z);
    case (Raw(x), Raw(y), Raw(z)) => CodesTransitive(x, y, z);
    case (Tup(x), Tup(y), Tup(z)) => ItemsTransitive(x, y, z);
    case _ =>
  }

  lemma {:induction false} ItemsTransitive(x: seq<Ord>, y: seq<Ord>, z: seq<Ord>)
    requires CmpItems(x, y) <= 0 && CmpItems(y, z) <= 0
    ensures CmpItems(x, z) <= 0
    decreases x
  {
    if x != [] && y != [] && z != [] {
      CmpTotal(x[0], y[0]);
      CmpTotal(y[0], z[0]);
      CmpTotal(x[0], z[0]);
      CmpTransitive(x[0], y[0], z[0]);
      if x[0] == z[0] {
        CmpTransitive(z[0], x[0], y[0]);
        assert Cmp(x[0], y[0]) == 0;
        ItemsTransitive(x[1..], y[1..], z[1..]);
      }
    }
  }

  // ---------------------------------------------------------------------------
  // Comparing delivered keys never fails
  // ---------------------------------------------------------------------------

  lemma {:induction false} InsertMembers<T>(x: (string, T), sorted: seq<(string, T)>)
    ensures multiset(Insert(x, sorted)) == multiset{x} + multiset(sorted)
  {
    if sorted != [] && NameLess(sorted[0].0, x.0) {
      InsertMembers(x, sorted[1..]);
      assert sorted == [sorted[0]] + sorted[1..];
    }
  }

  lemma {:induction false} SortMembers<T>(items: seq<(string, T)>)
    ensures multiset(Sort(items)) == multiset(items)
    ensures |Sort(items)| == |items| && forall x :: x in Sort(items) <==> x in items
  {
    if items != [] {
      SortMembers(items[1..]);
      InsertMembers(items[0], Sort(items[1..]));
      assert items == [items[0]] + items[1..];
    }
    assert forall x :: x in Sort(items) <==> x in multiset(Sort(items));
    assert |Sort(items)| == |multiset(Sort(items))|;
  }

  lemma SortWithin<T>(items: seq<(string, T)>)
    ensures forall i :: 0 <= i < |Sort(items)| ==> Sort(items)[i] in items
  {
    hide Sort;
    SortMembers(items);
    forall i | 0 <= i < |Sort(items)|
      ensures Sort(items)[i] in items
    {
      assert Sort(items)[i] in multiset(Sort(items));
    }
  }

  lemma {:induction false} ItemsComparable(x: seq<Ord>, y: seq<Ord>)
    requires forall a, b :: a in x && b in y ==> Comparable(a, b)
    ensures ComparableItems(x, y)
  {
    if x != [] && y != [] && x[0] == y[0] {
      ItemsComparable(x[1..], y[1..]);
    }
  }

  lemma NamedComparable(n: string, k: Ord, m: string, l: Ord)
    requires Comparable(k, l)
    ensures Comparable(Named(n, k), Named(m, l))
  {
    assert ComparableItems([k], [l]);
    assert [Chars(Codes(n)), k][1..] == [k] && [Chars(Codes(m)), l][1..] == [l];
  }

  lemma TailsDecide(v: Value, w: Value)
    requires Kind(v) == Kind(w) ==> ComparableItems(Tail(v), Tail(w))
    ensures Comparable(Order(v), Order(w))
  {
    var x, y := [Num(Kind(v))] + Tail(v), [Num(Kind(w))] + Tail(w);
    assert x[1..] == Tail(v) && y[1..] == Tail(w);
  }

  lemma OnesComparable(a: Ord, b: Ord)
    requires Comparable(a, b)
    ensures ComparableItems([a], [b])
  {
    assert [a][1..] == [] && [b][1..] == [];
  }

  lemma TwosComparable(a: Ord, b: Ord, c: Ord, d: Ord)
    requires Comparable(a, c) && (a == c ==> Comparable(b, d))
    ensures ComparableItems([a, b], [c, d])
  {
    assert [a, b][1..] == [b] && [c, d][1..] == [d];
    if a == c { OnesComparable(b, d); }
  }

  lemma PairsComparable(x: seq<(string, Ord)>, y: seq<(string, Ord)>)
    requires forall p, q :: p in x && q in y ==> Comparable(p.1, q.1)
    ensures ComparableItems(Pairs(Sort(x)), Pairs(Sort(y)))
  {
    hide Comparable, ComparableItems, Sort;
    SortMembers(x);
    SortMembers(y);
    forall a, b | a in Pairs(Sort(x)) && b in Pairs(Sort(y))
      ensures Comparable(a, b)
    {
      var i :| 0 <= i < |Sort(x)| && a == Pairs(Sort(x))[i];
      var j :| 0 <= j < |Sort(y)| && b == Pairs(Sort(y))[j];
      assert Sort(x)[i] in x && Sort(y)[j] in y;
      NamedComparable(Sort(x)[i].0, Sort(x)[i].1, Sort(y)[j].0, Sort(y)[j].1);
    }
    ItemsComparable(Pairs(Sort(x)), Pairs(Sort(y)));
  }

  /** A value's order key starts with its kind and goes on alike for values of one kind,
      so comparing two delivered values never meets elements of different kinds. */
  lemma {:induction false} NeverMixed(v: Value, w: Value)
    ensures Comparable(Order(v), Order(w))
    decreases v
  {
    if v.Mapping? && w.Mapping? {
      forall i, j | 0 <= i < |v.items| && 0 <= j < |w.items|
        ensures Comparable(Order(v.items[i].1), Order(w.items[j].1))
      {
        NeverMixed(v.items[i].1, w.items[j].1);
      }
      MappingsComparable(v.items, w.items);
    } else if (v.Listing? || v.Tuple?) && (w.Listing? || w.Tuple?) {
      forall i, j | 0 <= i < |v.values| && 0 <= j < |w.values|
        ensures Comparable(Order(v.values[i]), Order(w.values[j]))
      {
        NeverMixed(v.values[i], w.values[j]);
      }
      ListsComparable(v.values, w.values);
      ListingTail(v.values);
      ListingTail(w.values);
    } else {
      ScalarsComparable(v, w);
    }
    TailsDecide(v, w);
  }

  lemma MappingTail(items: seq<(string, Value)>)
    ensures Tail(Mapping(items)) == [Tup(Pairs(Sort(NamedOrders(items))))]
  {
    assert NamedOrders(items) == seq(|items|, i requires 0 <= i < |items| => (items[i].0, Order(items[i].1)));
  }

  lemma ListingTail(values: seq<Value>)
    ensures Tail(Listing(values)) == [Tup(Orders(values))] && Tail(Tuple(values)) == Tail(Listing(values))
  {
    assert Orders(values) == seq(|values|, i requires 0 <= i < |values| => Order(values[i]));
  }

  lemma MappingsComparable(a: seq<(string, Value)>, b: seq<(string, Value)>)
    requires forall i, j :: 0 <= i < |a| && 0 <= j < |b| ==> Comparable(Order(a[i].1), Order(b[j].1))
    ensures ComparableItems(Tail(Mapping(a)), Tail(Mapping(b)))
  {
    hide Order;
    var x, y := NamedOrders(a), NamedOrders(b);
    MappingTail(a);
    MappingTail(b);
    PairsComparable(x, y);
    OnesComparable(Tup(Pairs(Sort(x))), Tup(Pairs(Sort(y))));
  }

  lemma ListsComparable(a: seq<Value>, b: seq<Value>)
    requires forall i, j :: 0 <= i < |a| && 0 <= j < |b| ==> Comparable(Order(a[i]), Order(b[j]))
    ensures ComparableItems(Tail(Listing(a)), Tail(Listing(b)))
  {
    hide Order;
    ListingTail(a);
    ListingTail(b);
    ItemsComparable(Orders(a), Orders(b));
    OnesComparable(Tup(Orders(a)), Tup(Orders(b)));
  }

  lemma ScalarsComparable(v: Value, w: Value)
    requires !(v.Mapping? && w.Mapping?) && !((v.Listing? || v.Tuple?) && (w.Listing? || w.Tuple?))
    ensures Kind(v) == Kind(w) ==> ComparableItems(Tail(v), Tail(w))
  {
    if Kind(v) == Kind(w) && !v.Null? {
      var x, y := Tail(v), Tail(w);
      if v.Floating? || v.Foreign? {
        TwosComparable(x[0], x[1], y[0], y[1]);
      } else if v.Interval? {
        if x[0] == y[0] {
          TwosComparable(x[1], x[2], y[1], y[2]);
          assert x[1..] == [x[1], x[2]] && y[1..] == [y[1], y[2]];
        }
      } else {
        OnesComparable(x[0], y[0]);
      }
    }
  }

  // ---------------------------------------------------------------------------
  // The JSON codec
  // ---------------------------------------------------------------------------

  function Tagged(kind: string, value: Json): Json {
    JObject([("type", JString(kind)), ("value", value)])
  }

  function Encode(v: Value): Json {
    match v
    case Null => JObject([("type", JString("null"))])
    case Boolean(b) => Tagged("boolean", JBool(b))
    case Whole(n) => Tagged("integer", JInt(n))
    case Text(s) => Tagged("string", JString(s))
    case Decimal(_) => Tagged("decimal", JRendered(v))
    case Floating(_) => Tagged("float", JRendered(v))
    case Bytes(_) => Tagged("bytes", JRendered(v))
    case DateTime(_) => Tagged("datetime", JRendered(v))
    case Date(_) => Tagged("date", JRendered(v))
    case Time(_) => Tagged("time", JRendered(v))
    case Interval(d, s, us) =>
      Tagged("interval", JObject([("days", JInt(d)), ("microseconds", JInt(us)), ("seconds", JInt(s))]))
    case Uuid(_) => Tagged("uuid", JRendered(v))
    case Mapping(items) =>
      Tagged("mapping", JArray(JsonPairs(Sort(seq(|items|, i requires 0 <= i < |items| => (items[i].0, Encode(items[i].1)))))))
    case Tuple(values) => Tagged("tuple", JArray(seq(|values|, i requires 0 <= i < |values| => Encode(values[i]))))
    case Listing(values) => Tagged("list", JArray(seq(|values|, i requires 0 <= i < |values| => Encode(values[i]))))
    case Foreign(name, repr) => Tagged(name, JString(repr))
  }

  function JsonPairs(items: seq<(string, Json)>): (pairs: seq<Json>)
    ensures |pairs| == |items|
    ensures forall i :: 0 <= i < |items| ==> pairs[i] == JArray([JString(items[i].0), items[i].1])
  {
    seq(|items|, i requires 0 <= i < |items| => JArray([JString(items[i].0), items[i].1]))
  }

  /** The position of a member, or the number of members when there is none. */
  function IndexOf(members: seq<(string, Json)>, name: string): (i: nat)
    ensures i <= |members| && (i < |members| ==> members[i].0 == name)
    ensures i == |members| <==> forall k :: 0 <= k < |members| ==> members[k].0 != name
  {
    if members == [] then 0 else if members[0].0 == name then 0 else 1 + IndexOf(members[1..], name)
  }

  predicate Has(members: seq<(string, Json)>, name: string) {
    IndexOf(members, name) < |members|
  }

  predicate IsPair(j: Json) {
    j.JArray? && |j.items| == 2 && j.items[0].JString?
  }

  /** A tagged tree becomes the value it stands for, a plain one a plain value. */
  function Decode(j: Json): Option<Value>
    decreases j, 1
  {
    match j
    case JNull => Some(Null)
    case JBool(b) => Some(Boolean(b))
    case JInt(n) => Some(Whole(n))
    case JString(s) => Some(Text(s))
    case JRendered(_) => None
    case JArray(items) =>
      if forall i :: 0 <= i < |items| ==> Decode(items[i]).Some?
      then Some(Listing(seq(|items|, i requires 0 <= i < |items| => Decode(items[i]).value))) else None
    case JObject(m) =>
      if Has(m, "type") && Has(m, "value") then DecodeTagged(m[IndexOf(m, "type")].1, m[IndexOf(m, "value")].1)
      else if forall i :: 0 <= i < |m| ==> Decode(m[i].1).Some?
      then Some(Mapping(seq(|m|, i requires 0 <= i < |m| => (m[i].0, Decode(m[i].1).value)))) else None
  }

  function DecodeTagged(tag: Json, value: Json): Option<Value>
    decreases value, 0
  {
    if !tag.JString? then None
    else if tag.s == "null" then Some(Null)
    else if tag.s == "boolean" && value.JBool? then Some(Boolean(value.b))
    else if tag.s == "integer" && value.JInt? then Some(Whole(value.n))
    else if (tag.s == "string" || tag.s == "str") && value.JString? then Some(Text(value.s))
    else if tag.s == "interval" && value.JObject? then Duration(value.members)
    else if tag.s == "mapping" && value.JArray? then
      var items := value.items;
      if forall i :: 0 <= i < |items| ==> IsPair(items[i]) && Decode(items[i].items[1]).Some?
      then Some(Mapping(seq(|items|, i requires 0 <= i < |items| => (items[i].items[0].s, Decode(items[i].items[1]).value))))
      else None
    else if (tag.s == "list" || tag.s == "tuple") && value.JArray? then
      var items := value.items;
      if forall i :: 0 <= i < |items| ==> Decode(items[i]).Some? then
        var values := seq(|items|, i requires 0 <= i < |items| => Decode(items[i]).value);
        Some(if tag.s == "list" then Listing(values) else Tuple(values))
      else None
    else if value.JRendered? && tag.s == ScalarTag(value.scalar) then Some(value.scalar)
    else None
  }

  /** The tag of a scalar kept as rendered text; none for any other value. */
  function ScalarTag(v: Value): string {
    match v
    case Decimal(_) => "decimal"
    case Floating(_) => "float"
    case Bytes(_) => "bytes"
    case DateTime(_) => "datetime"
    case Date(_) => "date"
    case Time(_) => "time"
    case Uuid(_) => "uuid"
    case _ => ""
  }

  function Duration(m: seq<(string, Json)>): Option<Value> {
    if Has(m, "days") && Has(m, "seconds") && Has(m, "microseconds") then
      var d, s, us := m[IndexOf(m, "days")].1, m[IndexOf(m, "seconds")].1, m[IndexOf(m, "microseconds")].1;
      if d.JInt? && s.JInt? && us.JInt? then Some(Interval(d.n, s.n, us.n)) else None
    else None
  }

  /** No null, whose tag carries no value, and no value of an untagged type, anywhere. */
  predicate Plain(v: Value) {
    match v
    case Null => false
    case Foreign(_, _) => false
    case Mapping(items) => forall i :: 0 <= i < |items| ==> Plain(items[i].1)
    case Listing(values) => forall i :: 0 <= i < |values| ==> Plain(values[i])
    case Tuple(values) => forall i :: 0 <= i < |values| ==> Plain(values[i])
    case _ => true
  }

  /** Reading the JSON back orders like the value it was written from. */
  ghost predicate Faithful(v: Value) {
    Decode(Encode(v)).Some? && Order(Decode(Encode(v)).value) == Order(v)
  }

  // ---------------------------------------------------------------------------
  // Sorting commutes with changing the values
  // ---------------------------------------------------------------------------

  function MapValues<T, U>(items: seq<(string, T)>, f: T -> U): (mapped: seq<(string, U)>)
    ensures |mapped| == |items| && forall i :: 0 <= i < |items| ==> mapped[i] == (items[i].0, f(items[i].1))
  {
    seq(|items|, i requires 0 <= i < |items| => (items[i].0, f(items[i].1)))
  }

  lemma {:induction false} InsertMaps<T, U>(x: (string, T), sorted: seq<(string, T)>, f: T -> U)
    ensures Insert((x.0, f(x.1)), MapValues(sorted, f)) == MapValues(Insert(x, sorted), f)
  {
    if sorted != [] {
      assert MapValues(sorted, f)[1..] == MapValues(sorted[1..], f);
      if NameLess(sorted[0].0, x.0) { InsertMaps(x, sorted[1..], f); }
    }
  }

  lemma {:induction false} SortMaps<T, U>(items: seq<(string, T)>, f: T -> U)
    ensures Sort(MapValues(items, f)) == MapValues(Sort(items), f)
  {
    if items != [] {
      assert MapValues(items, f)[1..] == MapValues(items[1..], f);
      SortMaps(items[1..], f);
      InsertMaps(items[0], Sort(items[1..]), f);
    }
  }

  ghost predicate Sorted<T>(items: seq<(string, T)>) {
    forall i, j :: 0 <= i < j < |items| ==> !NameLess(items[j].0, items[i].0)
  }

  lemma {:induction false} InsertSorted<T>(x: (string, T), sorted: seq<(string, T)>)
    requires Sorted(sorted)
    ensures Sorted(Insert(x, sorted))
  {
    if sorted != [] {
      if NameLess(sorted[0].0, x.0) {
        InsertSorted(x, sorted[1..]);
        InsertMembers(x, sorted[1..]);
        var rest := Insert(x, sorted[1..]);
        forall j | 0 <= j < |rest|
          ensures !NameLess(rest[j].0, sorted[0].0)
        {
          assert rest[j] in multiset(rest);
          if rest[j] == x {
            CodesTotal(Codes(x.0), Codes(sorted[0].0));
          } else {
            var k :| 0 <= k < |sorted[1..]| && sorted[1..][k] == rest[j];
          }
        }
      } else {
        forall j | 0 <= j < |sorted|
          ensures !NameLess(sorted[j].0, x.0)
        {
          if NameLess(sorted[j].0, x.0) {
            CodesTotal(Codes(sorted[0].0), Codes(sorted[j].0));
            CodesTotal(Codes(sorted[j].0), Codes(sorted[0].0));
            CodesTransitive(Codes(sorted[0].0), Codes(sorted[j].0), Codes(x.0));
            CodesTotal(Codes(sorted[0].0), Codes(x.0));
            assert false;
          }
        }
      }
    }
  }

  lemma {:induction false} SortSorts<T>(items: seq<(string, T)>)
    ensures Sorted(Sort(items))
  {
    if items != [] {
      SortSorts(items[1..]);
      InsertSorted(items[0], Sort(items[1..]));
    }
  }

  lemma {:induction false} SortedStays<T>(items: seq<(string, T)>)
    requires Sorted(items)
    ensures Sort(items) == items
  {
    if items != [] {
      SortedStays(items[1..]);
      assert items == [items[0]] + items[1..];
      if |items| > 1 { assert items[1..][0] == items[1]; }
    }
  }

  // ---------------------------------------------------------------------------
  // Ordering what was stored is ordering what was delivered
  // ---------------------------------------------------------------------------

  lemma TaggedDecodes(kind: string, value: Json)
    ensures Decode(Tagged(kind, value)) == DecodeTagged(JString(kind), value)
  {
    var m := [("type", JString(kind)), ("value", value)];
    assert m[0].0 == "type" && m[1].0 == "value";
    assert IndexOf(m, "type") == 0;
    assert m[1..][0].0 == "value" && IndexOf(m[1..], "value") == 0;
    assert IndexOf(m, "value") == 1;
  }

  lemma SameOrderSameTail(v: Value, w: Value)
    ensures Order(v) == Order(w) <==> Kind(v) == Kind(w) && Tail(v) == Tail(w)
  {
    assert ([Num(Kind(v))] + Tail(v))[0] == Num(Kind(v)) && ([Num(Kind(v))] + Tail(v))[1..] == Tail(v);
    assert ([Num(Kind(w))] + Tail(w))[0] == Num(Kind(w)) && ([Num(Kind(w))] + Tail(w))[1..] == Tail(w);
  }

  /** A tagged scalar reads back as itself. */
  lemma ScalarDecodes(v: Value)
    requires !v.Mapping? && !v.Listing? && !v.Tuple? && Plain(v)
    ensures Decode(Encode(v)) == Some(v)
  {
    if v.Interval? {
      DurationDecodes(v.days, v.seconds, v.microseconds);
    } else if v.Boolean? {
      TaggedDecodes("boolean", JBool(v.b));
    } else if v.Whole? {
      TaggedDecodes("integer", JInt(v.n));
    } else if v.Text? {
      TaggedDecodes("string", JString(v.s));
    } else {
      TaggedDecodes(ScalarTag(v), JRendered(v));
    }
  }

  /** The null tag carries no value member, so it reads back as a mapping. */
  lemma NullReadsAsMapping()
    ensures Decode(Encode(Null)) == Some(Mapping([("type", Text("null"))])) && !Faithful(Null)
  {
    var m := [("type", JString("null"))];
    assert m[1..] == [] && !Has(m, "value");
    assert Decode(JString("null")) == Some(Text("null"));
    assert seq(|m|, i requires 0 <= i < |m| => (m[i].0, Decode(m[i].1).value)) == [("type", Text("null"))];
    hide Decode, Encode;
    SameOrderSameTail(Mapping([("type", Text("null"))]), Null);
  }

  lemma ForeignUnfaithful(name: string, repr: string)
    ensures !Faithful(Foreign(name, repr))
  {
    var v := Foreign(name, repr);
    TaggedDecodes(name, JString(repr));
    if Decode(Encode(v)).Some? {
      var w := Decode(Encode(v)).value;
      assert w.Null? || w.Text?;
      SameOrderSameTail(w, v);
    }
  }

  lemma ScalarFaithful(v: Value)
    requires !v.Mapping? && !v.Listing? && !v.Tuple?
    ensures Faithful(v) <==> Plain(v)
  {
    if v.Null? {
      NullReadsAsMapping();
    } else if v.Foreign? {
      ForeignUnfaithful(v.typeName, v.repr);
    } else {
      ScalarDecodes(v);
    }
  }

  lemma DurationDecodes(d: int, s: int, us: int)
    ensures Decode(Encode(Interval(d, s, us))) == Some(Interval(d, s, us))
  {
    var m := [("days", JInt(d)), ("microseconds", JInt(us)), ("seconds", JInt(s))];
    TaggedDecodes("interval", JObject(m));
    assert m[1..][0] == m[1] && m[1..][1..] == [m[2]];
    assert IndexOf(m, "days") == 0;
    assert IndexOf(m, "microseconds") == 1;
    assert IndexOf(m[1..][1..], "seconds") == 0;
    assert IndexOf(m, "seconds") == 2;
  }

  lemma ItemsDecode(tag: string, values: seq<Value>)
    requires tag == "list" || tag == "tuple"
    ensures var got := DecodeTagged(JString(tag), JArray(Encodes(values)));
      if forall i :: 0 <= i < |values| ==> Decodes(values[i])
      then got == Some(if tag == "list" then Listing(Rereads(values)) else Tuple(Rereads(values))) else got == None
  {
    hide Encode;
    var items := Encodes(values);
    if forall i :: 0 <= i < |values| ==> Decodes(values[i]) {
      assert Rereads(values) == seq(|items|, i requires 0 <= i < |items| => Decode(items[i]).value);
    } else {
      var i :| 0 <= i < |values| && !Decodes(values[i]);
      assert Decode(items[i]).None?;
    }
  }

  function Encodes(values: seq<Value>): (items: seq<Json>)
    ensures |items| == |values| && forall i :: 0 <= i < |values| ==> items[i] == Encode(values[i])
  {
    seq(|values|, i requires 0 <= i < |values| => Encode(values[i]))
  }

  function Rereads(values: seq<Value>): (back: seq<Value>)
    ensures |back| == |values| && forall i :: 0 <= i < |values| ==> back[i] == Reread(values[i])
  {
    seq(|values|, i requires 0 <= i < |values| => Reread(values[i]))
  }

  lemma EncodedList(values: seq<Value>)
    ensures Encode(Listing(values)) == Tagged("list", JArray(Encodes(values)))
    ensures Encode(Tuple(values)) == Tagged("tuple", JArray(Encodes(values)))
  {
    assert Encodes(values) == seq(|values|, i requires 0 <= i < |values| => Encode(values[i]));
  }

  lemma ListFaithful(values: seq<Value>, v: Value)
    requires v == Listing(values) || v == Tuple(values)
    ensures Faithful(v) <==> forall i :: 0 <= i < |values| ==> Faithful(values[i])
  {
    var tag := if v.Listing? then "list" else "tuple";
    EncodedList(values);
    TaggedDecodes(tag, JArray(Encodes(values)));
    ItemsDecode(tag, values);
    hide Encode, Decode, DecodeTagged, Encodes, Tail, Order;
    if forall i :: 0 <= i < |values| ==> Decodes(values[i]) {
      var back := Rereads(values);
      var w := if v.Listing? then Listing(back) else Tuple(back);
      SameOrderSameTail(w, v);
      ListingTail(values);
      ListingTail(back);
      OrdersAgree(values, back);
    } else {
      var i :| 0 <= i < |values| && !Decodes(values[i]);
      assert !Faithful(values[i]);
    }
  }

  lemma OrdersAgree(values: seq<Value>, back: seq<Value>)
    requires back == Rereads(values) && forall i :: 0 <= i < |values| ==> Decodes(values[i])
    ensures Orders(back) == Orders(values) <==> forall i :: 0 <= i < |values| ==> Faithful(values[i])
  {
    hide Encode, Decode, Order;
    forall i | 0 <= i < |values|
      ensures Orders(back)[i] == Orders(values)[i] <==> Faithful(values[i])
    {
    }
  }

  ghost predicate Decodes(v: Value) {
    Decode(Encode(v)).Some?
  }

  /** What reading a stored value back gives, where it gives anything. */
  function Reread(v: Value): Value {
    if Decode(Encode(v)).Some? then Decode(Encode(v)).value else Null
  }

  lemma PairsDecode(items: seq<(string, Value)>)
    ensures var got := DecodeTagged(JString("mapping"), JArray(JsonPairs(MapValues(items, Encode))));
      if forall i :: 0 <= i < |items| ==> Decodes(items[i].1) then got == Some(Mapping(MapValues(items, Reread))) else got == None
  {
    hide Encode;
    var pairs := JsonPairs(MapValues(items, Encode));
    assert forall i :: 0 <= i < |items| ==>
      IsPair(pairs[i]) && pairs[i].items[0].s == items[i].0 && pairs[i].items[1] == Encode(items[i].1);
    if forall i :: 0 <= i < |items| ==> Decodes(items[i].1) {
      assert MapValues(items, Reread) == seq(|pairs|, i requires 0 <= i < |pairs| => (pairs[i].items[0].s, Decode(pairs[i].items[1]).value));
    } else {
      var i :| 0 <= i < |items| && !Decodes(items[i].1);
      assert Decode(pairs[i].items[1]).None?;
    }
  }

  lemma MappingFaithful(items: seq<(string, Value)>)
    ensures Faithful(Mapping(items)) <==> forall i :: 0 <= i < |items| ==> Faithful(items[i].1)
  {
    var sorted := Sort(items);
    EncodedMapping(items);
    SortMembers(items);
    TaggedDecodes("mapping", JArray(JsonPairs(MapValues(sorted, Encode))));
    PairsDecode(sorted);
    hide Encode, Decode, DecodeTagged, JsonPairs;
    if forall i :: 0 <= i < |sorted| ==> Decodes(sorted[i].1) {
      BackFaithful(items, sorted);
      EachMember(items, sorted);
    } else {
      var i :| 0 <= i < |sorted| && !Decodes(sorted[i].1);
      assert sorted[i] in items;
      assert !Faithful(sorted[i].1);
    }
  }

  lemma EachMember(items: seq<(string, Value)>, sorted: seq<(string, Value)>)
    requires forall x :: x in sorted <==> x in items
    ensures (forall i :: 0 <= i < |sorted| ==> Faithful(sorted[i].1)) <==> forall i :: 0 <= i < |items| ==> Faithful(items[i].1)
  {
    hide Faithful;
    if forall i :: 0 <= i < |sorted| ==> Faithful(sorted[i].1) {
      assert forall i :: 0 <= i < |items| ==> items[i] in sorted;
    }
    if forall i :: 0 <= i < |items| ==> Faithful(items[i].1) {
      assert forall i :: 0 <= i < |sorted| ==> sorted[i] in items;
    }
  }

  lemma BackFaithful(items: seq<(string, Value)>, sorted: seq<(string, Value)>)
    requires sorted == Sort(items) && forall i :: 0 <= i < |sorted| ==> Decodes(sorted[i].1)
    ensures Order(Mapping(MapValues(sorted, Reread))) == Order(Mapping(items))
      <==> forall i :: 0 <= i < |sorted| ==> Faithful(sorted[i].1)
  {
    var back := MapValues(sorted, Reread);
    SameOrderSameTail(Mapping(back), Mapping(items));
    OrderedMapping(items);
    SortSorts(items);
    MappingTail(back);
    hide Encode, Decode, Order, Tail, Sort;
    assert Sorted(NamedOrders(back));
    SortedStays(NamedOrders(back));
    PairsInjective(NamedOrders(back), MapValues(sorted, Order));
    forall i | 0 <= i < |sorted|
      ensures NamedOrders(back)[i] == MapValues(sorted, Order)[i] <==> Faithful(sorted[i].1)
    {
    }
  }

  lemma EncodedMapping(items: seq<(string, Value)>)
    ensures Encode(Mapping(items)) == Tagged("mapping", JArray(JsonPairs(MapValues(Sort(items), Encode))))
  {
    SortMaps(items, Encode);
    assert MapValues(items, Encode) == seq(|items|, i requires 0 <= i < |items| => (items[i].0, Encode(items[i].1)));
  }

  lemma OrderedMapping(items: seq<(string, Value)>)
    ensures Tail(Mapping(items)) == [Tup(Pairs(MapValues(Sort(items), Order)))]
  {
    SortMaps(items, Order);
    MappingTail(items);
    assert NamedOrders(items) == MapValues(items, Order);
  }

  lemma PairsInjective(a: seq<(string, Ord)>, b: seq<(string, Ord)>)
    requires |a| == |b| && forall i :: 0 <= i < |a| ==> a[i].0 == b[i].0
    ensures Pairs(a) == Pairs(b) <==> a == b
  {
    if Pairs(a) == Pairs(b) {
      forall i | 0 <= i < |a|
        ensures a[i] == b[i]
      {
        assert Pairs(a)[i] == Pairs(b)[i];
        assert Named(a[i].0, a[i].1).items[1] == a[i].1 && Named(b[i].0, b[i].1).items[1] == b[i].1;
      }
    }
  }

  /** Reading a stored value back orders it as delivered exactly when it holds no null and
      no value of an untagged type. */
  lemma {:induction false} FaithfulIffPlain(v: Value)
    ensures Faithful(v) <==> Plain(v)
    decreases v
  {
    match v {
      case Mapping(items) =>
        forall i | 0 <= i < |items|
          ensures Faithful(items[i].1) <==> Plain(items[i].1)
        {
          FaithfulIffPlain(items[i].1);
        }
        MappingFaithful(items);
      case Listing(values) =>
        forall i | 0 <= i < |values|
          ensures Faithful(values[i]) <==> Plain(values[i])
        {
          FaithfulIffPlain(values[i]);
        }
        ListFaithful(values, v);
      case Tuple(values) =>
        forall i | 0 <= i < |values|
          ensures Faithful(values[i]) <==> Plain(values[i])
        {
          FaithfulIffPlain(values[i]);
        }
        ListFaithful(values, v);
      case _ => ScalarFaithful(v);
    }
  }

  // ---------------------------------------------------------------------------
  // Primary keys
  // ---------------------------------------------------------------------------

  /** A delivered primary key: named columns, or bare values in order. */
  datatype Key = ByName(items: seq<(string, Value)>) | ByPosition(values: seq<Value>)

  function Canonical(key: Key): Json {
    match key
    case ByName(items) => JObject(Sort(MapValues(items, Encode)))
    case ByPosition(values) => JArray(Encodes(values))
  }

  function KeyOrder(key: Key): Ord {
    match key
    case ByName(items) => Tup(Pairs(MapValues(Sort(items), Order)))
    case ByPosition(values) => Tup(Orders(values))
  }

  /** The order of a stored cursor; none when it does not encode a key. */
  function ReadOrder(j: Json): Option<Ord> {
    if !j.JObject? && !j.JArray? then None else
    match Decode(j)
    case Some(Mapping(items)) => Some(KeyOrder(ByName(items)))
    case Some(Listing(values)) => Some(KeyOrder(ByPosition(values)))
    case Some(Tuple(values)) => Some(KeyOrder(ByPosition(values)))
    case _ => None
  }

  predicate HasColumn(items: seq<(string, Value)>, name: string) {
    exists i :: 0 <= i < |items| && items[i].0 == name
  }

  /** What a caller can check: every column plain, and not both a column named `type`
      and one named `value`. */
  predicate Storable(key: Key) {
    match key
    case ByName(items) =>
      (forall i :: 0 <= i < |items| ==> Plain(items[i].1)) && !(HasColumn(items, "type") && HasColumn(items, "value"))
    case ByPosition(values) => forall i :: 0 <= i < |values| ==> Plain(values[i])
  }

  lemma SortedColumns(items: seq<(string, Value)>, name: string)
    ensures Has(MapValues(Sort(items), Encode), name) <==> HasColumn(items, name)
  {
    hide Encode, IndexOf, Sort;
    SortMembers(items);
    var members := MapValues(Sort(items), Encode);
    if HasColumn(items, name) {
      var i :| 0 <= i < |items| && items[i].0 == name;
      assert items[i] in Sort(items);
      var k :| 0 <= k < |Sort(items)| && Sort(items)[k] == items[i];
      assert members[k].0 == name;
    }
    if Has(members, name) {
      var k := IndexOf(members, name);
      assert members[k].0 == name && Sort(items)[k] in items;
    }
  }

  /** The order read back from a stored key is the order of the delivered key exactly when
      the key is storable. */
  lemma StoredOrder(key: Key)
    ensures ReadOrder(Canonical(key)) == Some(KeyOrder(key)) <==> Storable(key)
  {
    match key {
      case ByName(items) => StoredByName(items);
      case ByPosition(values) => StoredByPosition(values);
    }
  }

  lemma StoredByPosition(values: seq<Value>)
    ensures ReadOrder(Canonical(ByPosition(values))) == Some(KeyOrder(ByPosition(values)))
      <==> Storable(ByPosition(values))
  {
    ArrayDecodes(values);
    hide Encode, Decode, Order, Encodes, Plain, KeyOrder;
    forall i | 0 <= i < |values|
      ensures Faithful(values[i]) <==> Plain(values[i])
    {
      FaithfulIffPlain(values[i]);
    }
    KeyOrders(values);
    KeyOrders(Rereads(values));
    if forall i :: 0 <= i < |values| ==> Decodes(values[i]) {
      OrdersAgree(values, Rereads(values));
    } else {
      var i :| 0 <= i < |values| && !Decodes(values[i]);
      assert !Faithful(values[i]);
    }
  }

  lemma KeyOrders(values: seq<Value>)
    ensures KeyOrder(ByPosition(values)) == Tup(Orders(values))
  {
  }

  lemma ArrayDecodes(values: seq<Value>)
    ensures var got := Decode(JArray(Encodes(values)));
      if forall i :: 0 <= i < |values| ==> Decodes(values[i]) then got == Some(Listing(Rereads(values))) else got == None
  {
    hide Encode;
    var items := Encodes(values);
    if forall i :: 0 <= i < |values| ==> Decodes(values[i]) {
      assert Rereads(values) == seq(|items|, i requires 0 <= i < |items| => Decode(items[i]).value);
    } else {
      var i :| 0 <= i < |values| && !Decodes(values[i]);
      assert Decode(items[i]).None?;
    }
  }

  lemma EncodedTagged(items: seq<(string, Value)>)
    ensures forall i :: 0 <= i < |items| ==> MapValues(items, Encode)[i].1.JObject?
  {
  }

  lemma ObjectDecodes(items: seq<(string, Value)>)
    ensures var members := MapValues(items, Encode);
      var got := Decode(JObject(members));
      if Has(members, "type") && Has(members, "value") then got == None
      else if forall i :: 0 <= i < |items| ==> Decodes(items[i].1) then got == Some(Mapping(MapValues(items, Reread)))
      else got == None
  {
    var members := MapValues(items, Encode);
    EncodedTagged(items);
    hide Encode;
    if !(Has(members, "type") && Has(members, "value")) {
      if forall i :: 0 <= i < |items| ==> Decodes(items[i].1) {
        assert MapValues(items, Reread)
            == seq(|members|, i requires 0 <= i < |members| => (members[i].0, Decode(members[i].1).value));
      } else {
        var i :| 0 <= i < |items| && !Decodes(items[i].1);
        assert Decode(members[i].1).None?;
      }
    }
  }

  lemma SameMappingSameKey(a: seq<(string, Value)>, b: seq<(string, Value)>)
    ensures Order(Mapping(a)) == Order(Mapping(b)) <==> KeyOrder(ByName(a)) == KeyOrder(ByName(b))
  {
    SameOrderSameTail(Mapping(a), Mapping(b));
    OrderedMapping(a);
    OrderedMapping(b);
  }

  lemma StoredByName(items: seq<(string, Value)>)
    ensures ReadOrder(Canonical(ByName(items))) == Some(KeyOrder(ByName(items))) <==> Storable(ByName(items))
  {
    var sorted := Sort(items);
    SortMaps(items, Encode);
    SortMembers(items);
    ObjectDecodes(sorted);
    SortedColumns(items, "type");
    SortedColumns(items, "value");
    hide Encode, Decode, Order, Tail, KeyOrder, Sort, Plain;
    forall i | 0 <= i < |items|
      ensures Faithful(items[i].1) <==> Plain(items[i].1)
    {
      FaithfulIffPlain(items[i].1);
    }
    if !(HasColumn(items, "type") && HasColumn(items, "value")) {
      EachMember(items, sorted);
      if forall i :: 0 <= i < |sorted| ==> Decodes(sorted[i].1) {
        BackFaithful(items, sorted);
        SameMappingSameKey(MapValues(sorted, Reread), items);
      } else {
        var i :| 0 <= i < |sorted| && !Decodes(sorted[i].1);
        assert !Faithful(sorted[i].1);
      }
    }
  }
}
