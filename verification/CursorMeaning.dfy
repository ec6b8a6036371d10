/** What the cursor order of src/cdc_flight/backfill.py is, told from the values alone: numbers
    by size, text and bytes by the first difference, collections by the first difference of
    their elements, and values of different types by a fixed ranking of the types. */
module CursorMeaning {
  import opened CursorOrder

  // ---------------------------------------------------------------------------
  // The order of values
  // ---------------------------------------------------------------------------

  /** Position `k` is the first difference, or the shorter sequence ends there. */
  predicate FirstLess(a: seq<int>, b: seq<int>, k: nat) {
    k <= |a| && k < |b| && a[..k] == b[..k] && (k < |a| ==> a[k] < b[k])
  }

  ghost predicate CodesBelow(a: seq<int>, b: seq<int>) {
    exists k: nat :: FirstLess(a, b, k)
  }

  ghost predicate TextBelow(s: string, t: string) {
    CodesBelow(Codes(s), Codes(t))
  }

  /** The ranking of the types; whole numbers and decimals are ranked together, and so are
      byte strings and UUIDs, and lists and tuples. */
  function Place(v: Value): nat {
    match v
    case Null => 0
    case Boolean(_) => 1
    case Whole(_) => 2
    case Decimal(_) => 2
    case Floating(_) => 3
    case Text(_) => 4
    case Bytes(_) => 5
    case Uuid(_) => 5
    case DateTime(_) => 6
    case Date(_) => 7
    case Time(_) => 8
    case Interval(_, _, _) => 9
    case Mapping(_) => 10
    case Listing(_) => 11
    case Tuple(_) => 11
    case Foreign(_, _) => 12
  }

  function Number(v: Value): real
    requires v.Whole? || v.Decimal?
  {
    if v.Whole? then v.n as real else v.r
  }

  /** Finite floats by size; after all of them minus infinity, infinity and not-a-number. */
  predicate FloatBelow(f: Float, g: Float) {
    match (f, g)
    case (Finite(x), Finite(y)) => x < y
    case (Finite(_), _) => true
    case (MinusInfinity, PlusInfinity) => true
    case (MinusInfinity, NotANumber) => true
    case (PlusInfinity, NotANumber) => true
    case _ => false
  }

  /** Values the order does not tell apart. */
  ghost predicate Alike(v: Value, w: Value)
    decreases v
  {
    Place(v) == Place(w) &&
    match v
    case Null => true
    case Whole(_) => Number(v) == Number(w)
    case Decimal(_) => Number(v) == Number(w)
    case Bytes(bytes) => w.bytes == bytes
    case Uuid(bytes) => w.bytes == bytes
    case Mapping(items) =>
      var x, y := Sort(items), Sort(w.items);
      |x| == |y| && forall i :: 0 <= i < |x| ==> x[i].0 == y[i].0 && x[i] in items && Alike(x[i].1, y[i].1)
    case Listing(values) => |values| == |w.values| && forall i :: 0 <= i < |values| ==> Alike(values[i], w.values[i])
    case Tuple(values) => |values| == |w.values| && forall i :: 0 <= i < |values| ==> Alike(values[i], w.values[i])
    case _ => v == w
  }

  ghost predicate Below(v: Value, w: Value)
    decreases v, 1
  {
    if Place(v) != Place(w) then Place(v) < Place(w) else
    match v
    case Null => false
    case Boolean(b) => !b && w.b
    case Whole(_) => Number(v) < Number(w)
    case Decimal(_) => Number(v) < Number(w)
    case Floating(f) => FloatBelow(f, w.f)
    case Text(s) => TextBelow(s, w.s)
    case Bytes(bytes) => CodesBelow(bytes, w.bytes)
    case Uuid(bytes) => CodesBelow(bytes, w.bytes)
    case DateTime(iso) => TextBelow(iso, w.iso)
    case Date(iso) => TextBelow(iso, w.iso)
    case Time(iso) => TextBelow(iso, w.iso)
    case Interval(d, s, us) =>
      d < w.days || (d == w.days && (s < w.seconds || (s == w.seconds && us < w.microseconds)))
    case Mapping(_) => exists k: nat :: MappingFirst(v, w, k)
    case Listing(_) => exists k: nat :: ListFirst(v, w, k)
    case Tuple(_) => exists k: nat :: ListFirst(v, w, k)
    case Foreign(name, repr) =>
      TextBelow(name, w.typeName) || (name == w.typeName && TextBelow(repr, w.repr))
  }

  /** Element `k` of two lists is the first that differs, or the shorter list ends there. */
  ghost predicate ListFirst(v: Value, w: Value, k: nat)
    requires (v.Listing? || v.Tuple?) && (w.Listing? || w.Tuple?)
    decreases v, 0
  {
    k <= |v.values| && k < |w.values| && AllAlike(v.values[..k], w.values[..k]) &&
    (k < |v.values| ==> Below(v.values[k], w.values[k]))
  }

  /** The same for the members of two mappings, taken by name. */
  ghost predicate MappingFirst(v: Value, w: Value, k: nat)
    requires v.Mapping? && w.Mapping?
    decreases v, 0
  {
    var x, y := Sort(v.items), Sort(w.items);
    k <= |x| && k < |y| && MembersAlike(x[..k], y[..k]) &&
    (k < |x| ==> TextBelow(x[k].0, y[k].0) || (x[k].0 == y[k].0 && x[k] in v.items && Below(x[k].1, y[k].1)))
  }

  ghost predicate AllAlike(a: seq<Value>, b: seq<Value>) {
    |a| == |b| && forall i :: 0 <= i < |a| ==> Alike(a[i], b[i])
  }

  ghost predicate MembersAlike(a: seq<(string, Value)>, b: seq<(string, Value)>) {
    |a| == |b| && forall i :: 0 <= i < |a| ==> a[i].0 == b[i].0 && Alike(a[i].1, b[i].1)
  }

  // ---------------------------------------------------------------------------
  // Lexicographic comparison
  // ---------------------------------------------------------------------------

  lemma Shifted<T>(x: seq<T>, y: seq<T>, k: nat)
    requires k < |x| && k < |y| && x[0] == y[0]
    ensures x[..k + 1] == y[..k + 1] <==> x[1..][..k] == y[1..][..k]
  {
    assert x[..k + 1] == [x[0]] + x[1..][..k] && y[..k + 1] == [y[0]] + y[1..][..k];
    assert x[1..][..k] == x[..k + 1][1..] && y[1..][..k] == y[..k + 1][1..];
  }

  lemma {:induction false} CodesFirst(a: seq<int>, b: seq<int>)
    ensures CmpCodes(a, b) < 0 <==> CodesBelow(a, b)
  {
    if b == [] {
      assert forall k: nat :: !FirstLess(a, b, k);
    } else if a == [] {
      assert FirstLess(a, b, 0);
    } else if a[0] != b[0] {
      if a[0] < b[0] { assert FirstLess(a, b, 0); }
      assert forall k: nat :: FirstLess(a, b, k) ==> k == 0;
    } else {
      CodesFirst(a[1..], b[1..]);
      if k: nat :| FirstLess(a[1..], b[1..], k) {
        Shifted(a, b, k);
        assert FirstLess(a, b, k + 1);
      }
      if k: nat :| FirstLess(a, b, k) {
        Shifted(a, b, k - 1);
        assert FirstLess(a[1..], b[1..], k - 1);
      }
    }
  }

  /** Order key `k` is the first difference, or the shorter tuple ends there. */
  predicate FirstBelow(x: seq<Ord>, y: seq<Ord>, k: nat) {
    k <= |x| && k < |y| && x[..k] == y[..k] && (k < |x| ==> Cmp(x[k], y[k]) < 0)
  }

  lemma {:induction false} ItemsFirst(x: seq<Ord>, y: seq<Ord>)
    ensures CmpItems(x, y) < 0 <==> exists k: nat :: FirstBelow(x, y, k)
  {
    hide Cmp;
    if y == [] {
      assert forall k: nat :: !FirstBelow(x, y, k);
    } else if x == [] {
      assert FirstBelow(x, y, 0);
    } else {
      CmpTotal(x[0], y[0]);
      if x[0] != y[0] {
        if Cmp(x[0], y[0]) < 0 { assert FirstBelow(x, y, 0); }
        assert forall k: nat :: FirstBelow(x, y, k) ==> k == 0;
      } else {
        ItemsFirst(x[1..], y[1..]);
        if k: nat :| FirstBelow(x[1..], y[1..], k) {
          Shifted(x, y, k);
          assert FirstBelow(x, y, k + 1);
        }
        if k: nat :| FirstBelow(x, y, k) {
          Shifted(x, y, k - 1);
          assert FirstBelow(x[1..], y[1..], k - 1);
        }
      }
    }
  }

  // ---------------------------------------------------------------------------
  // Order keys mean that order
  // ---------------------------------------------------------------------------

  /** What one comparison must answer. */
  ghost predicate Means(v: Value, w: Value) {
    (Order(v) == Order(w) <==> Alike(v, w)) && (Cmp(Order(v), Order(w)) < 0 <==> Below(v, w))
  }

  lemma SameCodes(s: string, t: string)
    ensures Codes(s) == Codes(t) <==> s == t
  {
    if Codes(s) == Codes(t) {
      forall i | 0 <= i < |s|
        ensures s[i] == t[i]
      {
        assert Codes(s)[i] == Codes(t)[i];
      }
      assert s == t;
    }
  }

  /** The kind decides, then what follows it. */
  lemma KindDecides(v: Value, w: Value)
    ensures Kind(v) == Place(v) as real
    ensures Order(v) == Order(w) <==> Place(v) == Place(w) && Tail(v) == Tail(w)
    ensures Cmp(Order(v), Order(w)) < 0 <==> Place(v) < Place(w) || (Place(v) == Place(w) && CmpItems(Tail(v), Tail(w)) < 0)
  {
    hide Tail;
    var x, y := [Num(Kind(v))] + Tail(v), [Num(Kind(w))] + Tail(w);
    assert x[1..] == Tail(v) && y[1..] == Tail(w);
    assert Cmp(x[0], y[0]) < 0 <==> Place(v) < Place(w);
    assert Cmp(x[0], y[0]) == 0 <==> Place(v) == Place(w);
    Unnested(x, y);
  }

  lemma One(a: Ord, b: Ord)
    ensures CmpItems([a], [b]) < 0 <==> Cmp(a, b) < 0
  {
    hide Cmp;
    assert [a][1..] == [] && [b][1..] == [];
  }

  lemma Two(a: Ord, b: Ord, c: Ord, d: Ord)
    ensures CmpItems([a, b], [c, d]) < 0 <==> Cmp(a, c) < 0 || (a == c && Cmp(b, d) < 0)
  {
    hide Cmp;
    assert [a, b][1..] == [b] && [c, d][1..] == [d];
    CmpTotal(a, c);
    One(b, d);
  }

  lemma Three(a: Ord, b: Ord, c: Ord, d: Ord, e: Ord, f: Ord)
    ensures CmpItems([a, b, c], [d, e, f]) < 0 <==> Cmp(a, d) < 0 || (a == d && (Cmp(b, e) < 0 || (b == e && Cmp(c, f) < 0)))
  {
    hide Cmp;
    assert [a, b, c][1..] == [b, c] && [d, e, f][1..] == [e, f];
    CmpTotal(a, d);
    Two(b, c, e, f);
  }

  lemma CharsFirst(s: string, t: string)
    ensures Cmp(Chars(Codes(s)), Chars(Codes(t))) < 0 <==> TextBelow(s, t)
    ensures Chars(Codes(s)) == Chars(Codes(t)) <==> s == t
  {
    CodesFirst(Codes(s), Codes(t));
    SameCodes(s, t);
  }

  lemma NumbersMean(v: Value, w: Value)
    requires (v.Whole? || v.Decimal?) && (w.Whole? || w.Decimal?)
    ensures Means(v, w)
  {
    KindDecides(v, w);
    One(Tail(v)[0], Tail(w)[0]);
  }

  lemma BooleansMean(v: Value, w: Value)
    requires v.Boolean? && w.Boolean?
    ensures Means(v, w)
  {
    KindDecides(v, w);
    One(Tail(v)[0], Tail(w)[0]);
  }

  lemma IntervalsMean(v: Value, w: Value)
    requires v.Interval? && w.Interval?
    ensures Means(v, w)
  {
    KindDecides(v, w);
    var x, y := Tail(v), Tail(w);
    Three(x[0], x[1], x[2], y[0], y[1], y[2]);
    assert x == y <==> x[0] == y[0] && x[1] == y[1] && x[2] == y[2];
  }

  lemma BytesMean(v: Value, w: Value)
    requires (v.Bytes? || v.Uuid?) && (w.Bytes? || w.Uuid?)
    ensures Means(v, w)
  {
    KindDecides(v, w);
    assert Tail(v) == [Raw(v.bytes)] && Tail(w) == [Raw(w.bytes)];
    One(Raw(v.bytes), Raw(w.bytes));
    CodesFirst(v.bytes, w.bytes);
  }

  lemma TextsMean(v: Value, w: Value, s: string, t: string)
    requires Place(v) == Place(w) && Tail(v) == [Chars(Codes(s))] && Tail(w) == [Chars(Codes(t))]
    ensures Order(v) == Order(w) <==> s == t
    ensures Cmp(Order(v), Order(w)) < 0 <==> TextBelow(s, t)
  {
    KindDecides(v, w);
    One(Chars(Codes(s)), Chars(Codes(t)));
    CharsFirst(s, t);
    assert Tail(v)[0] == Chars(Codes(s)) && Tail(w)[0] == Chars(Codes(t));
  }

  lemma ForeignMean(v: Value, w: Value)
    requires v.Foreign? && w.Foreign?
    ensures Means(v, w)
  {
    KindDecides(v, w);
    var x, y := Tail(v), Tail(w);
    Two(x[0], x[1], y[0], y[1]);
    CharsFirst(v.typeName, w.typeName);
    CharsFirst(v.repr, w.repr);
    assert x == y <==> x[0] == y[0] && x[1] == y[1];
  }

  function NameOf(f: Float): string
    requires !f.Finite?
  {
    match f
    case NotANumber => "NaN"
    case PlusInfinity => "Infinity"
    case MinusInfinity => "-Infinity"
  }

  /** The names of the non-finite floats sort minus infinity, infinity, not-a-number. */
  lemma NamesSort(f: Float, g: Float)
    requires !f.Finite? && !g.Finite?
    ensures CmpCodes(Codes(NameOf(f)), Codes(NameOf(g))) < 0 <==> FloatBelow(f, g)
    ensures NameOf(f) == NameOf(g) <==> f == g
  {
    var s, t := NameOf(f), NameOf(g);
    assert Codes(s)[0] == s[0] as int && Codes(t)[0] == t[0] as int;
    if f == g { CodesTotal(Codes(s), Codes(s)); }
  }

  lemma FloatsMean(v: Value, w: Value)
    requires v.Floating? && w.Floating?
    ensures Means(v, w)
  {
    KindDecides(v, w);
    FloatTails(v.f, w.f);
    hide Order, Tail, Cmp, CmpItems, Codes;
  }

  lemma FloatTails(f: Float, g: Float)
    ensures Tail(Floating(f)) == Tail(Floating(g)) <==> f == g
    ensures CmpItems(Tail(Floating(f)), Tail(Floating(g))) < 0 <==> FloatBelow(f, g)
  {
    var x, y := Tail(Floating(f)), Tail(Floating(g));
    Two(x[0], x[1], y[0], y[1]);
    assert x == y <==> x[0] == y[0] && x[1] == y[1];
    if !f.Finite? && !g.Finite? {
      NamesSort(f, g);
      SameCodes(NameOf(f), NameOf(g));
      assert x[1] == Chars(Codes(NameOf(f))) && y[1] == Chars(Codes(NameOf(g)));
    }
  }

  lemma ScalarsMean(v: Value, w: Value)
    requires !v.Mapping? && !v.Listing? && !v.Tuple? && Place(v) == Place(w)
    ensures Means(v, w)
  {
    hide Means;
    match v {
      case Null => NullsMean(v, w);
      case Boolean(_) => BooleansMean(v, w);
      case Whole(_) => NumbersMean(v, w);
      case Decimal(_) => NumbersMean(v, w);
      case Floating(_) => FloatsMean(v, w);
      case Bytes(_) => BytesMean(v, w);
      case Uuid(_) => BytesMean(v, w);
      case Interval(_, _, _) => IntervalsMean(v, w);
      case Foreign(_, _) => ForeignMean(v, w);
      case _ => StringsMean(v, w);
    }
  }

  lemma NullsMean(v: Value, w: Value)
    requires v.Null? && w.Null?
    ensures Means(v, w)
  {
    KindDecides(v, w);
  }

  lemma StringsMean(v: Value, w: Value)
    requires (v.Text? && w.Text?) || (v.DateTime? && w.DateTime?) || (v.Date? && w.Date?) || (v.Time? && w.Time?)
    ensures Means(v, w)
  {
    var s, t := if v.Text? then v.s else v.iso, if w.Text? then w.s else w.iso;
    TextsMean(v, w, s, t);
  }

  /** Lists: the first element that differs decides. */
  lemma ListsMean(v: Value, w: Value, a: seq<Value>, b: seq<Value>)
    requires (v == Listing(a) || v == Tuple(a)) && (w == Listing(b) || w == Tuple(b))
    requires forall i, j :: 0 <= i < |a| && 0 <= j < |b| ==> Means(a[i], b[j])
    ensures Means(v, w)
  {
    KindDecides(v, w);
    ListingTail(a);
    ListingTail(b);
    hide Order, Cmp, Tail, Alike, Below;
    One(Tup(Orders(a)), Tup(Orders(b)));
    assert Tail(v)[0] == Tup(Orders(a)) && Tail(w)[0] == Tup(Orders(b));
    ItemsFirst(Orders(a), Orders(b));
    ListsFirst(a, b);
    Unnested(Orders(a), Orders(b));
    ListsAlike(v, w, a, b);
    ListsBelow(v, w, a, b);
  }

  lemma Unnested(x: seq<Ord>, y: seq<Ord>)
    ensures Cmp(Tup(x), Tup(y)) == CmpItems(x, y)
  {
  }

  ghost predicate ElementFirst(a: seq<Value>, b: seq<Value>, k: nat) {
    k <= |a| && k < |b| && AllAlike(a[..k], b[..k]) && (k < |a| ==> Below(a[k], b[k]))
  }

  lemma ListsAlike(v: Value, w: Value, a: seq<Value>, b: seq<Value>)
    requires (v == Listing(a) || v == Tuple(a)) && (w == Listing(b) || w == Tuple(b))
    ensures Alike(v, w) <==> AllAlike(a, b)
  {
  }

  lemma ListsBelow(v: Value, w: Value, a: seq<Value>, b: seq<Value>)
    requires (v == Listing(a) || v == Tuple(a)) && (w == Listing(b) || w == Tuple(b))
    ensures Below(v, w) <==> exists k: nat :: ElementFirst(a, b, k)
  {
    forall k: nat
      ensures ListFirst(v, w, k) <==> ElementFirst(a, b, k)
    {
    }
    hide AllAlike, ElementFirst;
  }

  lemma ListsFirst(a: seq<Value>, b: seq<Value>)
    requires forall i, j :: 0 <= i < |a| && 0 <= j < |b| ==> Means(a[i], b[j])
    ensures Orders(a) == Orders(b) <==> AllAlike(a, b)
    ensures forall k: nat :: FirstBelow(Orders(a), Orders(b), k) <==> ElementFirst(a, b, k)
  {
    hide Order, Cmp, Alike, Below;
    var x, y := Orders(a), Orders(b);
    assert |a| == |b| ==> (x == y <==> forall i :: 0 <= i < |a| ==> x[i] == y[i]);
    forall k: nat | k <= |a| && k <= |b|
      ensures x[..k] == y[..k] <==> AllAlike(a[..k], b[..k])
    {
      assert x[..k] == y[..k] <==> forall i :: 0 <= i < k ==> x[i] == y[i];
    }
  }

  // ---------------------------------------------------------------------------
  // Mappings: the first member, by name, that differs decides
  // ---------------------------------------------------------------------------

  lemma NamedFirst(n: string, k: Ord, m: string, l: Ord)
    ensures Cmp(Named(n, k), Named(m, l)) < 0 <==> TextBelow(n, m) || (n == m && Cmp(k, l) < 0)
    ensures Named(n, k) == Named(m, l) <==> n == m && k == l
  {
    Two(Chars(Codes(n)), k, Chars(Codes(m)), l);
    CharsFirst(n, m);
    assert Named(n, k).items[1] == k && Named(m, l).items[1] == l;
    assert Named(n, k).items[0] == Chars(Codes(n)) && Named(m, l).items[0] == Chars(Codes(m));
  }

  ghost predicate MemberBelow(p: (string, Value), q: (string, Value)) {
    TextBelow(p.0, q.0) || (p.0 == q.0 && Below(p.1, q.1))
  }

  ghost predicate MemberFirst(x: seq<(string, Value)>, y: seq<(string, Value)>, k: nat) {
    k <= |x| && k < |y| && MembersAlike(x[..k], y[..k]) && (k < |x| ==> MemberBelow(x[k], y[k]))
  }

  lemma MembersFirst(a: seq<(string, Value)>, b: seq<(string, Value)>)
    requires forall i, j :: 0 <= i < |a| && 0 <= j < |b| ==> Means(a[i].1, b[j].1)
    ensures var x, y := Pairs(MapValues(a, Order)), Pairs(MapValues(b, Order));
      (x == y <==> MembersAlike(a, b)) && forall k: nat :: FirstBelow(x, y, k) <==> MemberFirst(a, b, k)
  {
    var x, y := Pairs(MapValues(a, Order)), Pairs(MapValues(b, Order));
    hide Order, Cmp, Alike, Below, TextBelow, Named;
    forall i, j | 0 <= i < |a| && 0 <= j < |b|
      ensures x[i] == y[j] <==> a[i].0 == b[j].0 && Alike(a[i].1, b[j].1)
      ensures Cmp(x[i], y[j]) < 0 <==> MemberBelow(a[i], b[j])
    {
      NamedFirst(a[i].0, Order(a[i].1), b[j].0, Order(b[j].1));
    }
    assert |a| == |b| ==> (x == y <==> forall i :: 0 <= i < |a| ==> x[i] == y[i]);
    forall k: nat | k <= |a| && k <= |b|
      ensures x[..k] == y[..k] <==> MembersAlike(a[..k], b[..k])
    {
      assert x[..k] == y[..k] <==> forall i :: 0 <= i < k ==> x[i] == y[i];
    }
  }

  lemma MappingsMean(a: seq<(string, Value)>, b: seq<(string, Value)>)
    requires forall i, j :: 0 <= i < |a| && 0 <= j < |b| ==> Means(a[i].1, b[j].1)
    ensures Means(Mapping(a), Mapping(b))
  {
    SortWithin(a);
    SortWithin(b);
    var v, w, x, y := Mapping(a), Mapping(b), Sort(a), Sort(b);
    hide Sort, Order, Cmp, Tail, Alike, Below;
    MembersFirst(x, y);
    KindDecides(v, w);
    OrderedMapping(a);
    OrderedMapping(b);
    var p, q := Pairs(MapValues(x, Order)), Pairs(MapValues(y, Order));
    One(Tup(p), Tup(q));
    Unnested(p, q);
    ItemsFirst(p, q);
    assert Tail(v)[0] == Tup(p) && Tail(w)[0] == Tup(q);
    MappingsTell(a, b);
  }

  /** The definitions at mappings, with the sorted members written out. */
  lemma MappingsTell(a: seq<(string, Value)>, b: seq<(string, Value)>)
    ensures Alike(Mapping(a), Mapping(b)) <==> MembersAlike(Sort(a), Sort(b))
    ensures Below(Mapping(a), Mapping(b)) <==> exists k: nat :: MemberFirst(Sort(a), Sort(b), k)
  {
    hide Sort, Alike, Below;
    MappingsAlike(a, b);
    MappingsBelow(a, b);
  }

  lemma MappingsAlike(a: seq<(string, Value)>, b: seq<(string, Value)>)
    ensures Alike(Mapping(a), Mapping(b)) <==> MembersAlike(Sort(a), Sort(b))
  {
    SortWithin(a);
    hide Sort;
  }

  lemma MappingsBelow(a: seq<(string, Value)>, b: seq<(string, Value)>)
    ensures Below(Mapping(a), Mapping(b)) <==> exists k: nat :: MemberFirst(Sort(a), Sort(b), k)
  {
    SortWithin(a);
    hide Sort, MembersAlike, TextBelow;
    forall k: nat
      ensures MappingFirst(Mapping(a), Mapping(b), k) <==> MemberFirst(Sort(a), Sort(b), k)
    {
      FirstTells(a, b, k);
    }
    hide MappingFirst, MemberFirst;
  }

  lemma FirstTells(a: seq<(string, Value)>, b: seq<(string, Value)>, k: nat)
    ensures MappingFirst(Mapping(a), Mapping(b), k) <==> MemberFirst(Sort(a), Sort(b), k)
  {
    SortWithin(a);
    hide Sort, MembersAlike, TextBelow, Below;
  }

  /** The order of order keys is the order of the values, at any nesting. */
  lemma {:induction false} OrderMeans(v: Value, w: Value)
    ensures Means(v, w)
    decreases v
  {
    if Place(v) != Place(w) {
      KindDecides(v, w);
    } else if v.Mapping? {
      forall i, j | 0 <= i < |v.items| && 0 <= j < |w.items|
        ensures Means(v.items[i].1, w.items[j].1)
      {
        OrderMeans(v.items[i].1, w.items[j].1);
      }
      MappingsMean(v.items, w.items);
    } else if v.Listing? || v.Tuple? {
      forall i, j | 0 <= i < |v.values| && 0 <= j < |w.values|
        ensures Means(v.values[i], w.values[j])
      {
        OrderMeans(v.values[i], w.values[j]);
      }
      ListsMean(v, w, v.values, w.values);
    } else {
      ScalarsMean(v, w);
    }
  }

  // ---------------------------------------------------------------------------
  // Primary keys
  // ---------------------------------------------------------------------------

  /** Columns are taken by name, whatever order they are delivered in. */
  lemma NamesInOrder(items: seq<(string, Value)>)
    ensures forall i, j :: 0 <= i < j < |Sort(items)| ==> !TextBelow(Sort(items)[j].0, Sort(items)[i].0)
  {
    SortSorts(items);
    hide Sort, TextBelow;
    forall i, j | 0 <= i < j < |Sort(items)|
      ensures !TextBelow(Sort(items)[j].0, Sort(items)[i].0)
    {
      CharsFirst(Sort(items)[j].0, Sort(items)[i].0);
    }
  }

  /** Two keys of one table: the first column that differs decides. */
  ghost predicate KeyBelow(k: Key, l: Key)
    requires k.ByName? == l.ByName?
  {
    if k.ByName? then Below(Mapping(k.items), Mapping(l.items)) else Below(Listing(k.values), Listing(l.values))
  }

  lemma KeyMeans(k: Key, l: Key)
    requires k.ByName? == l.ByName?
    ensures Cmp(KeyOrder(k), KeyOrder(l)) < 0 <==> KeyBelow(k, l)
  {
    var v, w := if k.ByName? then Mapping(k.items) else Listing(k.values), if l.ByName? then Mapping(l.items) else Listing(l.values);
    hide Below, Cmp, Order, Tail;
    OrderMeans(v, w);
    KindDecides(v, w);
    KeyTail(k);
    KeyTail(l);
    One(KeyOrder(k), KeyOrder(l));
  }

  lemma KeyTail(k: Key)
    ensures Tail(if k.ByName? then Mapping(k.items) else Listing(k.values)) == [KeyOrder(k)]
  {
    hide Order;
    if k.ByName? { OrderedMapping(k.items); } else { ListingTail(k.values); }
  }

  /** A key of one integer column. */
  function IntegerKey(column: string, n: int): Key {
    ByName([(column, Whole(n))])
  }

  /** Integers by size, not by their digits: 2 before 10. */
  lemma IntegersCompare(column: string, a: int, b: int)
    ensures Cmp(KeyOrder(IntegerKey(column, a)), KeyOrder(IntegerKey(column, b))) < 0 <==> a < b
  {
    var x, y := Named(column, Order(Whole(a))), Named(column, Order(Whole(b)));
    IntegerOrder(column, a);
    IntegerOrder(column, b);
    Unnested([x], [y]);
    One(x, y);
    NamedFirst(column, Order(Whole(a)), column, Order(Whole(b)));
    CharsFirst(column, column);
    CodesTotal(Codes(column), Codes(column));
    NumbersMean(Whole(a), Whole(b));
  }

  lemma IntegerOrder(column: string, n: int)
    ensures KeyOrder(IntegerKey(column, n)) == Tup([Named(column, Order(Whole(n)))])
  {
    hide Order, Named;
    var items := [(column, Whole(n))];
    assert items[1..] == [];
    assert Sort(items) == items;
  }
}
