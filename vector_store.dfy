/**
 * The Qdrant-backed embedding store: how an item becomes a point (id normalisation,
 * sparse-vector splitting, payload), how retrieved points pass through the retrieval
 * pipeline, and which points `delete` and `update` remove or rewrite.
 *
 * The Qdrant server is modelled as the collection itself, a sequence of records in
 * scroll order whose ids are unique; the embedder, the name-based UUID function and the
 * server's similarity search are parameters.
 */
module VectorStore {
  import opened Wrappers
  import opened Json
  import Text

  // ---------------------------------------------------------------- point ids

  predicate IsHexDigit(c: char)
  {
    '0' <= c <= '9' || 'a' <= c <= 'f' || 'A' <= c <= 'F'
  }

  predicate IsLowerHexDigit(c: char)
  {
    '0' <= c <= '9' || 'a' <= c <= 'f'
  }

  /** The 128 bits of a UUID as 32 lower-case hex digits. */
  type Hex32 = s: string | |s| == 32 && forall i :: 0 <= i < |s| ==> IsLowerHexDigit(s[i])
    witness "00000000000000000000000000000000"

  /** A Qdrant point id: an integer, or a UUID (sent as its canonical string). */
  datatype PointId = IntId(n: int) | UuidId(hex: Hex32)

  /** `str(uuid.UUID(...))`: 8-4-4-4-12 lower-case hex digits joined by hyphens. */
  function Canonical(h: Hex32): (r: string)
    ensures |r| == 36
  {
    h[..8] + "-" + h[8..12] + "-" + h[12..16] + "-" + h[16..20] + "-" + h[20..]
  }

  /** The id as the dict `{"id": point.id, ...}` shows it. */
  function IdValue(id: PointId): Value
  {
    match id
    case IntId(n) => Int(n)
    case UuidId(h) => Str(Canonical(h))
  }

  predicate IsBrace(c: char) { c == '{' || c == '}' }

  function StripLeftBraces(s: string): (r: string)
    ensures |r| <= |s|
  {
    if |s| > 0 && IsBrace(s[0]) then StripLeftBraces(s[1..]) else s
  }

  function StripRightBraces(s: string): (r: string)
    ensures |r| <= |s|
  {
    if |s| > 0 && IsBrace(s[|s| - 1]) then StripRightBraces(s[..|s| - 1]) else s
  }

  /** `s.strip('{}')`. */
  function StripBraces(s: string): string
  {
    StripRightBraces(StripLeftBraces(s))
  }

  /**
   * What `uuid.UUID(s)` reads as digits: the prefixes `urn:` and `uuid:` dropped wherever
   * they occur, braces stripped from both ends and every hyphen removed.
   */
  function UuidDigits(s: string): string
  {
    Text.RemoveAll(StripBraces(Text.RemoveAll(Text.RemoveAll(s, "urn:"), "uuid:")), "-")
  }

  /**
   * `uuid.UUID(s)`: it parses exactly when the digits it reads are 32 hex digits, read
   * case-insensitively, and the UUID is those digits in lower case.
   */
  function ParseUuid(s: string): (r: Option<Hex32>)
    ensures r.Some? <==> |UuidDigits(s)| == 32 && forall i :: 0 <= i < 32 ==> IsHexDigit(UuidDigits(s)[i])
    ensures r.Some? ==> r.value == Text.Lower(UuidDigits(s))
  {
    var digits := UuidDigits(s);
    if |digits| == 32 && forall i :: 0 <= i < 32 ==> IsHexDigit(digits[i]) then
      var lower := Text.Lower(digits);
      assert forall i :: 0 <= i < 32 ==> IsLowerHexDigit(lower[i]);
      Some(lower)
    else None
  }

  const PointIdError := "Point ID must be str or int"

  /**
   * The id normalisation of `_format_point`. A string that parses as a UUID is put in
   * canonical form; any other string becomes the name-based UUID `nameUuid(s)` (uuid5
   * under the DNS namespace, section 4.3 of RFC 4122, left abstract). An int passes
   * through, and so does a bool, which Python counts as an int; anything else is refused.
   */
  function NormalizeId(raw: Value, nameUuid: string -> Hex32): (r: Result<PointId>)
    ensures r.Err? <==> !(raw.Str? || raw.Int? || raw.Bool?)
    ensures r.Err? ==> r.msg == PointIdError
    ensures raw.Int? ==> r == Ok(IntId(raw.i))
  {
    match raw
    case Str(s) =>
      (match ParseUuid(s)
       case Some(h) => Ok(UuidId(h))
       case None => Ok(UuidId(nameUuid(s))))
    case Int(n) => Ok(IntId(n))
    case Bool(b) => Ok(IntId(if b then 1 else 0))
    case _ => Err(PointIdError)
  }

  /** No occurrence of `p` when its last character never appears in `s`. */
  lemma NoLastCharNoOccurrence(s: string, p: string)
    requires |p| > 0
    requires forall i :: 0 <= i < |s| ==> s[i] != p[|p| - 1]
    ensures forall i :: 0 <= i <= |s| - |p| ==> !Text.OccursAt(s, p, i)
    ensures !Text.Occurs(s, p)
  {
    forall i | 0 <= i <= |s| - |p|
      ensures !Text.OccursAt(s, p, i)
    {
      assert s[i..i + |p|][|p| - 1] == s[i + |p| - 1];
    }
  }

  /** Removing a one-character pattern distributes over concatenation. */
  lemma {:induction false} RemoveCharAppend(a: string, b: string, c: char)
    ensures Text.RemoveAll(a + b, [c]) == Text.RemoveAll(a, [c]) + Text.RemoveAll(b, [c])
  {
    if |a| == 0 {
      assert a + b == b;
    } else {
      assert (a + b)[1..] == a[1..] + b;
      assert (a + b)[..1] == a[..1];
      RemoveCharAppend(a[1..], b, c);
    }
  }

  /** Hex digits carry no hyphen to remove. */
  lemma {:induction false} RemoveHyphenFromHex(s: string)
    requires forall i :: 0 <= i < |s| ==> IsLowerHexDigit(s[i])
    ensures Text.RemoveAll(s, "-") == s
  {
    NoLastCharNoOccurrence(s, "-");
    Text.RemoveAllUnchangedIff(s, "-");
  }

  /** Lower-casing leaves lower-case hex digits alone. */
  lemma LowerHex(h: Hex32)
    ensures Text.Lower(h) == h
  {
  }

  /** Only lower-case hex digits and hyphens. */
  predicate HexOrHyphen(s: string)
  {
    forall i :: 0 <= i < |s| ==> IsLowerHexDigit(s[i]) || s[i] == '-'
  }

  lemma HexOrHyphenJoin(x: string, y: string)
    requires HexOrHyphen(x) && HexOrHyphen(y)
    ensures HexOrHyphen(x + "-" + y)
  {
    var j := x + "-" + y;
    forall i | 0 <= i < |j|
      ensures IsLowerHexDigit(j[i]) || j[i] == '-'
    {
      if i > |x| {
        assert j[i] == y[i - |x| - 1];
      }
    }
  }

  /** Dropping the hyphen between two parts. */
  lemma DropHyphen(x: string, y: string)
    ensures Text.RemoveAll(x + "-" + y, "-") == Text.RemoveAll(x, "-") + Text.RemoveAll(y, "-")
  {
    assert "-" == ['-'];
    DropSeparator(x, y, '-');
  }

  lemma DropSeparator(x: string, y: string, c: char)
    ensures Text.RemoveAll(x + [c] + y, [c]) == Text.RemoveAll(x, [c]) + Text.RemoveAll(y, [c])
  {
    RemoveCharAppend(x + [c], y, c);
    RemoveCharAppend(x, [c], c);
    assert Text.RemoveAll([c], [c]) == "" by {
      assert [c][1..] == [];
    }
  }

  /** The canonical form holds only digits and hyphens, and begins and ends with a digit. */
  lemma CanonicalChars(h: Hex32)
    ensures HexOrHyphen(Canonical(h))
    ensures IsLowerHexDigit(Canonical(h)[0]) && IsLowerHexDigit(Canonical(h)[35])
  {
    var a, b, d, e, f := h[..8], h[8..12], h[12..16], h[16..20], h[20..];
    var c1 := a + "-" + b;
    var c2 := c1 + "-" + d;
    var c3 := c2 + "-" + e;
    assert c3 + "-" + f == Canonical(h);
    HexOrHyphenJoin(a, b);
    HexOrHyphenJoin(c1, d);
    HexOrHyphenJoin(c2, e);
    HexOrHyphenJoin(c3, f);
    assert Canonical(h)[35] == f[11];
  }

  /** Removing the hyphens from the canonical form gives the 32 digits back. */
  lemma CanonicalDigits(h: Hex32)
    ensures Text.RemoveAll(Canonical(h), "-") == h
  {
    var a, b, d, e, f := h[..8], h[8..12], h[12..16], h[16..20], h[20..];
    var c1 := a + "-" + b;
    var c2 := c1 + "-" + d;
    var c3 := c2 + "-" + e;
    assert c3 + "-" + f == Canonical(h);
    RemoveHyphenFromHex(a);
    RemoveHyphenFromHex(b);
    RemoveHyphenFromHex(d);
    RemoveHyphenFromHex(e);
    RemoveHyphenFromHex(f);
    DropHyphen(a, b);
    DropHyphen(c1, d);
    DropHyphen(c2, e);
    DropHyphen(c3, f);
    assert a + b == h[..12];
    assert h[..12] + d == h[..16];
    assert h[..16] + e == h[..20];
    assert h[..20] + f == h;
  }

  /** A string of hex digits and hyphens carries no `urn:` or `uuid:` prefix. */
  lemma NoUuidPrefixes(c: string)
    requires HexOrHyphen(c)
    ensures Text.RemoveAll(Text.RemoveAll(c, "urn:"), "uuid:") == c
  {
    NoLastCharNoOccurrence(c, "urn:");
    Text.RemoveAllUnchangedIff(c, "urn:");
    NoLastCharNoOccurrence(c, "uuid:");
    Text.RemoveAllUnchangedIff(c, "uuid:");
  }

  /** The canonical form reads back as the UUID it was written from. */
  lemma ParseCanonical(h: Hex32)
    ensures ParseUuid(Canonical(h)) == Some(h)
  {
    var c := Canonical(h);
    CanonicalChars(h);
    CanonicalDigits(h);
    NoUuidPrefixes(c);
    assert StripLeftBraces(c) == c;
    assert StripRightBraces(c) == c;
    LowerHex(h);
  }

  /**
   * Normalising is idempotent: an id read back from a stored point (`{"id": point.id}`)
   * normalises to that same id.
   */
  lemma NormalizeIdIdempotent(id: PointId, nameUuid: string -> Hex32)
    ensures NormalizeId(IdValue(id), nameUuid) == Ok(id)
  {
    if id.UuidId? {
      ParseCanonical(id.hex);
    }
  }

  // ---------------------------------------------------------------- vectors

  /** What the embedder returns: a dense array, or a sparse dict from index to weight. */
  datatype Vector = Dense(xs: seq<real>) | Sparse(entries: seq<(int, real)>)

  /** The vector of a point: dense values, or a sparse vector (stored under the name "text"). */
  datatype PointVector = DenseVec(values: seq<real>) | SparseVec(indices: seq<int>, values: seq<real>)

  /** `zip(*vector.items()) if vector else ([], [])`: the keys and the weights, in dict order. */
  function SplitSparse(entries: seq<(int, real)>): (r: (seq<int>, seq<real>))
    ensures |r.0| == |entries| && |r.1| == |entries|
    ensures forall k :: 0 <= k < |entries| ==> (r.0[k], r.1[k]) == entries[k]
  {
    if |entries| == 0 then ([], [])
    else
      var rest := SplitSparse(entries[1..]);
      ([entries[0].0] + rest.0, [entries[0].1] + rest.1)
  }

  /** Pairing the indices with the values again. */
  function Zip(xs: seq<int>, ys: seq<real>): (r: seq<(int, real)>)
    requires |xs| == |ys|
    ensures |r| == |xs|
  {
    if |xs| == 0 then [] else [(xs[0], ys[0])] + Zip(xs[1..], ys[1..])
  }

  /** Splitting a sparse dict loses nothing: zipping the two lists gives its entries back. */
  lemma {:induction false} SplitSparseRoundTrip(entries: seq<(int, real)>)
    ensures Zip(SplitSparse(entries).0, SplitSparse(entries).1) == entries
  {
    if |entries| > 0 {
      var r := SplitSparse(entries);
      SplitSparseRoundTrip(entries[1..]);
      assert r.0[1..] == SplitSparse(entries[1..]).0;
      assert r.1[1..] == SplitSparse(entries[1..]).1;
    }
  }

  /** The vector as it is sent to Qdrant, for a point or for a query. */
  function ToPointVector(v: Vector): (r: PointVector)
    ensures v.Dense? ==> r == DenseVec(v.xs)
    ensures v.Sparse? ==> r.SparseVec? && |r.indices| == |r.values| == |v.entries|
    ensures v.Sparse? ==> forall k :: 0 <= k < |v.entries| ==> (r.indices[k], r.values[k]) == v.entries[k]
  {
    match v
    case Dense(xs) => DenseVec(xs)
    case Sparse(entries) =>
      var split := SplitSparse(entries);
      SparseVec(split.0, split.1)
  }

  // ---------------------------------------------------------------- points

  /** A `PointStruct` as `_format_point` builds it. */
  datatype Point = Point(id: PointId, vector: PointVector, payload: Doc)

  /** `{"text": item["text"], "metadata": item.get("metadata", {})}`. */
  function Payload(item: Doc, text: Value): Doc
  {
    [("text", text), ("metadata", GetOr(item, "metadata", Obj([])))]
  }

  /**
   * `_format_point`: the text is embedded first (`KeyError` without one), then the id is
   * read (`KeyError` without one) and normalised.
   */
  function FormatPoint(item: Doc, embed: Value -> Vector, nameUuid: string -> Hex32): (r: Result<Point>)
  {
    match Get(item, "text")
    case None => Err("KeyError: 'text'")
    case Some(text) =>
      match Get(item, "id")
      case None => Err("KeyError: 'id'")
      case Some(raw) =>
        match NormalizeId(raw, nameUuid)
        case Err(msg) => Err(msg)
        case Ok(id) => Ok(Point(id, ToPointVector(embed(text)), Payload(item, text)))
  }

  /** The item has an id, of a type `_format_point` accepts. */
  predicate AcceptedId(raw: Option<Value>)
  {
    raw.Some? && (raw.value.Str? || raw.value.Int? || raw.value.Bool?)
  }

  /**
   * An item becomes a point exactly when it has a text and an id of an accepted type;
   * the point carries the normalised id, the embedded text (split when sparse) and a
   * payload of exactly the text and the metadata, `{}` when the item has none.
   */
  lemma FormatPointSpec(item: Doc, embed: Value -> Vector, nameUuid: string -> Hex32)
    ensures FormatPoint(item, embed, nameUuid).Ok? <==> Has(item, "text") && AcceptedId(Get(item, "id"))
    ensures !Has(item, "text") ==> FormatPoint(item, embed, nameUuid) == Err("KeyError: 'text'")
    ensures Has(item, "text") && !Has(item, "id") ==> FormatPoint(item, embed, nameUuid) == Err("KeyError: 'id'")
    ensures FormatPoint(item, embed, nameUuid).Ok? ==>
      var p := FormatPoint(item, embed, nameUuid).value;
      var text := Get(item, "text").value;
      && Ok(p.id) == NormalizeId(Get(item, "id").value, nameUuid)
      && p.vector == ToPointVector(embed(text))
      && Keys(p.payload) == ["text", "metadata"]
      && Get(p.payload, "text") == Some(text)
      && Get(p.payload, "metadata") == Some(GetOr(item, "metadata", Obj([])))
  {
    GetHas(item, "text");
    GetHas(item, "id");
  }

  /** `[self._format_point(item) for item in items]`: the first failing item's error, or every point. */
  function FormatAll(items: seq<Doc>, embed: Value -> Vector, nameUuid: string -> Hex32): (r: Result<seq<Point>>)
    ensures r.Ok? <==> forall i :: 0 <= i < |items| ==> FormatPoint(items[i], embed, nameUuid).Ok?
    ensures r.Ok? ==> |r.value| == |items|
    ensures r.Ok? ==> forall i :: 0 <= i < |items| ==> r.value[i] == FormatPoint(items[i], embed, nameUuid).value
    ensures r.Err? ==> exists i :: 0 <= i < |items| && FormatPoint(items[i], embed, nameUuid) == Err(r.msg)
  {
    if |items| == 0 then Ok([])
    else
      match FormatPoint(items[0], embed, nameUuid)
      case Err(msg) => Err(msg)
      case Ok(p) =>
        match FormatAll(items[1..], embed, nameUuid)
        case Err(msg) =>
          assert forall i :: 0 <= i < |items| - 1 ==> items[1..][i] == items[i + 1];
          Err(msg)
        case Ok(ps) => Ok([p] + ps)
  }

  // ---------------------------------------------------------------- the collection

  /** A point as `scroll` and `query_points` return it; its payload may be absent. */
  datatype Record = Record(id: PointId, vector: PointVector, payload: Option<Doc>)

  function ToRecord(p: Point): Record
  {
    Record(p.id, p.vector, Some(p.payload))
  }

  /** Qdrant holds one point per id. */
  predicate UniqueIds(xs: seq<Record>)
  {
    forall i, j :: 0 <= i < j < |xs| ==> xs[i].id != xs[j].id
  }

  function IdsOf(xs: seq<Record>): (r: seq<PointId>)
    ensures |r| == |xs|
    ensures forall i :: 0 <= i < |xs| ==> r[i] == xs[i].id
  {
    if |xs| == 0 then [] else [xs[0].id] + IdsOf(xs[1..])
  }

  /** The point stored under `k`, if any. */
  function Lookup(xs: seq<Record>, k: PointId): (r: Option<Record>)
    ensures r.Some? ==> r.value in xs && r.value.id == k
  {
    if |xs| == 0 then None
    else if xs[0].id == k then Some(xs[0])
    else Lookup(xs[1..], k)
  }

  /** Under unique ids, the point found under an id is the one stored with it. */
  lemma {:induction false} LookupUnique(xs: seq<Record>, i: nat)
    requires UniqueIds(xs) && i < |xs|
    ensures Lookup(xs, xs[i].id) == Some(xs[i])
  {
    if i > 0 {
      LookupUnique(xs[1..], i - 1);
    }
  }

  /** Upserting one point: it replaces the point with its id where that stands, or is appended. */
  function UpsertOne(xs: seq<Record>, r: Record): (u: seq<Record>)
    ensures r in u
    ensures forall i :: 0 <= i < |u| ==> u[i] == r || u[i] in xs
    ensures |u| <= |xs| + 1
  {
    if |xs| == 0 then [r]
    else if xs[0].id == r.id then [r] + xs[1..]
    else [xs[0]] + UpsertOne(xs[1..], r)
  }

  /** After an upsert the id finds the new point, and every other id what it found before. */
  lemma {:induction false} UpsertOneLookup(xs: seq<Record>, r: Record, k: PointId)
    ensures Lookup(UpsertOne(xs, r), k) == if k == r.id then Some(r) else Lookup(xs, k)
  {
    if |xs| > 0 && xs[0].id != r.id {
      UpsertOneLookup(xs[1..], r, k);
    }
  }

  /** An upsert keeps ids unique. */
  lemma {:induction false} UpsertOneUnique(xs: seq<Record>, r: Record)
    requires UniqueIds(xs)
    ensures UniqueIds(UpsertOne(xs, r))
  {
    if |xs| > 0 && xs[0].id != r.id {
      UpsertOneUnique(xs[1..], r);
      var u := UpsertOne(xs, r);
      forall j | 0 < j < |u|
        ensures u[0].id != u[j].id
      {
        assert u[j] == UpsertOne(xs[1..], r)[j - 1];
        assert u[j] == r || u[j] in xs[1..];
      }
    }
  }

  /** `client.upsert(points=pts)`: the points are upserted one after another. */
  function UpsertAll(xs: seq<Record>, pts: seq<Point>): seq<Record>
    decreases |pts|
  {
    if |pts| == 0 then xs else UpsertAll(UpsertOne(xs, ToRecord(pts[0])), pts[1..])
  }

  /** The last of `pts` with id `k`, which is the one an upsert of them leaves behind. */
  function LastWith(pts: seq<Point>, k: PointId): (r: Option<Point>)
    ensures r.Some? ==> r.value in pts && r.value.id == k
    ensures r.None? <==> forall i :: 0 <= i < |pts| ==> pts[i].id != k
  {
    if |pts| == 0 then None
    else match LastWith(pts[1..], k)
      case Some(p) => Some(p)
      case None => if pts[0].id == k then Some(pts[0]) else None
  }

  /**
   * An upsert changes only the ids it writes: each written id holds the last point
   * written under it, and every other id holds what it held before.
   */
  lemma {:induction false} UpsertAllLookup(xs: seq<Record>, pts: seq<Point>, k: PointId)
    ensures Lookup(UpsertAll(xs, pts), k)
         == match LastWith(pts, k) case Some(p) => Some(ToRecord(p)) case None => Lookup(xs, k)
    decreases |pts|
  {
    if |pts| > 0 {
      UpsertAllLookup(UpsertOne(xs, ToRecord(pts[0])), pts[1..], k);
      UpsertOneLookup(xs, ToRecord(pts[0]), k);
    }
  }

  lemma {:induction false} UpsertAllUnique(xs: seq<Record>, pts: seq<Point>)
    requires UniqueIds(xs)
    ensures UniqueIds(UpsertAll(xs, pts))
    decreases |pts|
  {
    if |pts| > 0 {
      UpsertOneUnique(xs, ToRecord(pts[0]));
      UpsertAllUnique(UpsertOne(xs, ToRecord(pts[0])), pts[1..]);
    }
  }

  /** `scroll(limit=10000)` reads at most this many points. */
  const ScrollLimit := 10000

  /** The points one `scroll` call returns: the first 10000 in scroll order. */
  function Scroll(xs: seq<Record>): (r: seq<Record>)
    ensures |r| <= ScrollLimit && |r| <= |xs|
    ensures forall i :: 0 <= i < |r| ==> r[i] == xs[i]
  {
    if |xs| <= ScrollLimit then xs else xs[..ScrollLimit]
  }

  /** `{**base, **extra}` onto a dict: each entry of `extra` is assigned in turn. */
  function Merge(base: Doc, extra: Doc): Doc
    decreases |extra|
  {
    if |extra| == 0 then base else Merge(Put(base, extra[0].0, extra[0].1), extra[1..])
  }

  /** A merged key holds the payload's value when the payload has it, and the base's otherwise. */
  lemma {:induction false} MergeGet(base: Doc, extra: Doc, k: string)
    requires UniqueKeys(extra)
    ensures Get(Merge(base, extra), k) == if Has(extra, k) then Get(extra, k) else Get(base, k)
    decreases |extra|
  {
    GetHas(extra, k);
    if |extra| > 0 {
      var rest := extra[1..];
      assert UniqueKeys(rest);
      GetHas(rest, k);
      MergeGet(Put(base, extra[0].0, extra[0].1), rest, k);
      if k == extra[0].0 {
        forall j | 0 <= j < |rest|
          ensures Keys(rest)[j] != k
        {
          assert rest[j] == extra[j + 1];
        }
      } else {
        assert Keys(extra) == [extra[0].0] + Keys(rest);
      }
    }
  }

  /** `{"id": point.id, **(point.payload or {})}`: what `delete` and `update` hand to their callbacks. */
  function Full(r: Record): Doc
  {
    Merge([("id", IdValue(r.id))], r.payload.GetOr([]))
  }

  /** The callback sees the payload under its own keys and the point's id under "id" otherwise. */
  lemma FullGet(r: Record, k: string)
    requires UniqueKeys(r.payload.GetOr([]))
    ensures Get(Full(r), k) == if Has(r.payload.GetOr([]), k) then Get(r.payload.GetOr([]), k)
                               else if k == "id" then Some(IdValue(r.id)) else None
  {
    MergeGet([("id", IdValue(r.id))], r.payload.GetOr([]), k);
  }

  /** `list(filter(keep, xs))`. */
  function Filter<T(!new)>(xs: seq<T>, keep: T -> bool): (r: seq<T>)
    ensures |r| <= |xs|
    ensures forall x :: x in r <==> x in xs && keep(x)
  {
    if |xs| == 0 then []
    else (if keep(xs[0]) then [xs[0]] else []) + Filter(xs[1..], keep)
  }

  lemma {:induction false} FilterSnoc<T(!new)>(xs: seq<T>, x: T, keep: T -> bool)
    ensures Filter(xs + [x], keep) == Filter(xs, keep) + if keep(x) then [x] else []
  {
    if |xs| == 0 {
      assert xs + [x] == [x];
    } else {
      assert (xs + [x])[1..] == xs[1..] + [x];
      FilterSnoc(xs[1..], x, keep);
    }
  }

  /** The scrolled points the condition selects, in scroll order. */
  function Matching(xs: seq<Record>, condition: Doc -> bool): seq<Record>
  {
    Filter(Scroll(xs), Selects(condition))
  }

  /** The condition as a test of stored points. */
  function Selects(condition: Doc -> bool): Record -> bool
  {
    (r: Record) => condition(Full(r))
  }

  /** The test `delete` applies to keep a point. */
  function NotIn(ids: seq<PointId>): Record -> bool
  {
    (r: Record) => r.id !in ids
  }

  /** The collection after `delete(points_selector=ids)`: the points with those ids are gone. */
  function DeleteIds(xs: seq<Record>, ids: seq<PointId>): seq<Record>
  {
    Filter(xs, NotIn(ids))
  }

  lemma DeleteIdsUnique(xs: seq<Record>, ids: seq<PointId>)
    requires UniqueIds(xs)
    ensures UniqueIds(DeleteIds(xs, ids))
  {
    EmbedsUniqueIds(DeleteIds(xs, ids), xs, FilterIndices(xs, NotIn(ids)));
  }

  /**
   * `delete` removes exactly the points among the first 10000 that the condition
   * selects: any other point, including a selected one past the scroll window, stays;
   * and it calls the server only when something was selected.
   */
  lemma DeleteExactly(xs: seq<Record>, condition: Doc -> bool)
    requires UniqueIds(xs)
    ensures forall i :: 0 <= i < |xs| ==>
      (xs[i] in DeleteIds(xs, IdsOf(Matching(xs, condition))) <==> !(i < ScrollLimit && condition(Full(xs[i]))))
    ensures |Matching(xs, condition)| > 0 <==> exists i :: 0 <= i < |xs| && i < ScrollLimit && condition(Full(xs[i]))
  {
    forall i | 0 <= i < |xs|
      ensures xs[i] in DeleteIds(xs, IdsOf(Matching(xs, condition))) <==> !(i < ScrollLimit && condition(Full(xs[i])))
    {
      SelectedId(xs, condition, i);
    }
    SomethingSelected(xs, condition);
  }

  /** A point's id is among those selected exactly when the point itself was scrolled and selected. */
  lemma SelectedId(xs: seq<Record>, condition: Doc -> bool, i: nat)
    requires UniqueIds(xs) && i < |xs|
    ensures xs[i].id in IdsOf(Matching(xs, condition)) <==> i < ScrollLimit && condition(Full(xs[i]))
  {
    var m := Matching(xs, condition);
    var ids := IdsOf(m);
    var s := Scroll(xs);
    if xs[i].id in ids {
      var j :| 0 <= j < |ids| && ids[j] == xs[i].id;
      assert m[j] in s;
      var t :| 0 <= t < |s| && s[t] == m[j];
      assert xs[t].id == xs[i].id;
    }
    if i < ScrollLimit && condition(Full(xs[i])) {
      assert s[i] == xs[i];
      assert xs[i] in m;
      var j :| 0 <= j < |m| && m[j] == xs[i];
      assert ids[j] == xs[i].id;
    }
  }

  lemma SomethingSelected(xs: seq<Record>, condition: Doc -> bool)
    ensures |Matching(xs, condition)| > 0 <==> exists i :: 0 <= i < |xs| && i < ScrollLimit && condition(Full(xs[i]))
  {
    var m := Matching(xs, condition);
    var s := Scroll(xs);
    if |m| > 0 {
      assert m[0] in s;
      var t :| 0 <= t < |s| && s[t] == m[0];
      assert xs[t] == m[0];
    }
    if exists i :: 0 <= i < |xs| && i < ScrollLimit && condition(Full(xs[i])) {
      var i :| 0 <= i < |xs| && i < ScrollLimit && condition(Full(xs[i]));
      assert s[i] in m;
    }
  }

  /**
   * `update`'s loop over the scrolled points: each one the condition selects is passed
   * through `update_func` and formatted again; the first formatting error ends it.
   */
  function Rebuild(recs: seq<Record>, condition: Doc -> bool, updateFunc: Doc -> Doc,
                   embed: Value -> Vector, nameUuid: string -> Hex32): Result<seq<Point>>
  {
    if |recs| == 0 then Ok([])
    else
      match Rebuild(recs[..|recs| - 1], condition, updateFunc, embed, nameUuid)
      case Err(msg) => Err(msg)
      case Ok(prev) =>
        var full := Full(recs[|recs| - 1]);
        if condition(full) then
          match FormatPoint(updateFunc(full), embed, nameUuid)
          case Err(msg) => Err(msg)
          case Ok(p) => Ok(prev + [p])
        else Ok(prev)
  }

  /** Once the loop has failed, the rest of the points do not matter. */
  lemma {:induction false} RebuildErrSticks(recs: seq<Record>, i: nat, condition: Doc -> bool, updateFunc: Doc -> Doc,
                                            embed: Value -> Vector, nameUuid: string -> Hex32)
    requires i <= |recs| && Rebuild(recs[..i], condition, updateFunc, embed, nameUuid).Err?
    ensures Rebuild(recs, condition, updateFunc, embed, nameUuid) == Rebuild(recs[..i], condition, updateFunc, embed, nameUuid)
    decreases |recs| - i
  {
    if i < |recs| {
      assert recs[..i + 1][..i] == recs[..i];
      RebuildErrSticks(recs, i + 1, condition, updateFunc, embed, nameUuid);
    } else {
      assert recs[..i] == recs;
    }
  }

  /**
   * `update` rewrites exactly the selected points, in scroll order, each one rebuilt from
   * `update_func`'s output; it succeeds exactly when every rebuilt dict formats.
   */
  /** The dicts `update_func` makes of the selected points, in scroll order. */
  function Rewritten(recs: seq<Record>, condition: Doc -> bool, updateFunc: Doc -> Doc): (r: seq<Doc>)
    ensures |r| == |Filter(recs, Selects(condition))|
    ensures forall i :: 0 <= i < |r| ==> r[i] == updateFunc(Full(Filter(recs, Selects(condition))[i]))
  {
    var sel := Filter(recs, Selects(condition));
    seq(|sel|, i requires 0 <= i < |sel| => updateFunc(Full(sel[i])))
  }

  lemma RewrittenSnoc(init: seq<Record>, last: Record, condition: Doc -> bool, updateFunc: Doc -> Doc)
    ensures Rewritten(init + [last], condition, updateFunc)
         == Rewritten(init, condition, updateFunc) + if condition(Full(last)) then [updateFunc(Full(last))] else []
  {
    FilterSnoc(init, last, Selects(condition));
  }

  lemma FormatAllSnoc(ds: seq<Doc>, d: Doc, embed: Value -> Vector, nameUuid: string -> Hex32)
    ensures FormatAll(ds + [d], embed, nameUuid).Ok?
        <==> FormatAll(ds, embed, nameUuid).Ok? && FormatPoint(d, embed, nameUuid).Ok?
    ensures FormatAll(ds + [d], embed, nameUuid).Ok? ==>
      FormatAll(ds + [d], embed, nameUuid).value
      == FormatAll(ds, embed, nameUuid).value + [FormatPoint(d, embed, nameUuid).value]
  {
    assert forall i :: 0 <= i < |ds| ==> (ds + [d])[i] == ds[i];
    assert (ds + [d])[|ds|] == d;
  }

  /**
   * `update` rewrites exactly the selected points, in scroll order, each one rebuilt from
   * `update_func`'s output: it succeeds exactly when every rewritten dict formats, and
   * then yields their points.
   */
  lemma {:induction false} RebuildSpec(recs: seq<Record>, condition: Doc -> bool, updateFunc: Doc -> Doc,
                                       embed: Value -> Vector, nameUuid: string -> Hex32)
    ensures Rebuild(recs, condition, updateFunc, embed, nameUuid).Ok?
        <==> FormatAll(Rewritten(recs, condition, updateFunc), embed, nameUuid).Ok?
    ensures Rebuild(recs, condition, updateFunc, embed, nameUuid).Ok? ==>
      Rebuild(recs, condition, updateFunc, embed, nameUuid).value
      == FormatAll(Rewritten(recs, condition, updateFunc), embed, nameUuid).value
  {
    if |recs| > 0 {
      var init, last := recs[..|recs| - 1], recs[|recs| - 1];
      assert recs == init + [last];
      RebuildSpec(init, condition, updateFunc, embed, nameUuid);
      RewrittenSnoc(init, last, condition, updateFunc);
      var before := Rebuild(init, condition, updateFunc, embed, nameUuid);
      var written := Rewritten(init, condition, updateFunc);
      var d := updateFunc(Full(last));
      if condition(Full(last)) {
        FormatAllSnoc(written, d, embed, nameUuid);
        assert Rewritten(recs, condition, updateFunc) == written + [d];
        assert Rebuild(recs, condition, updateFunc, embed, nameUuid)
            == match before
               case Err(msg) => Err(msg)
               case Ok(prev) =>
                 match FormatPoint(d, embed, nameUuid)
                 case Err(msg) => Err(msg)
                 case Ok(p) => Ok(prev + [p]);
      } else {
        assert Rewritten(recs, condition, updateFunc) == written;
        assert Rebuild(recs, condition, updateFunc, embed, nameUuid) == before;
      }
    }
  }

  // ---------------------------------------------------------------- the retrieval pipeline

  /**
   * One step of a retrieval pipeline: a callable keeps the items it accepts; a list is a
   * `["search", k]` step when its first element is "search"; anything else is skipped.
   */
  datatype Step = Callable(keep: Doc -> bool) | ListStep(elems: seq<Value>) | Ignored

  const IndexError := "IndexError: list index out of range"
  const SliceTypeError := "TypeError: slice indices must be integers or None or have an __index__ method"

  /** `items[:k]` with Python's reading of a negative bound, counted from the end. */
  function SliceTo<T>(items: seq<T>, k: int): (r: seq<T>)
    ensures k >= 0 ==> |r| == if k < |items| then k else |items|
    ensures k < 0 ==> |r| == if |items| + k > 0 then |items| + k else 0
    ensures r == items[..|r|]
  {
    if k >= 0 then (if k < |items| then items[..k] else items)
    else if |items| + k > 0 then items[..|items| + k] else []
  }

  /** One pass of the loop body of `retrieve`'s pipeline. */
  function ApplyStep(items: seq<Doc>, step: Step): (r: Result<seq<Doc>>)
    ensures r.Ok? ==> |r.value| <= |items|
  {
    match step
    case Callable(keep) => Ok(Filter(items, keep))
    case ListStep(elems) =>
      if |elems| == 0 then Err(IndexError)
      else if elems[0] != Str("search") then Ok(items)
      else if |elems| < 2 then Err(IndexError)
      else
        (match elems[1]
         case Int(k) => Ok(SliceTo(items, k))
         case Bool(b) => Ok(SliceTo(items, if b then 1 else 0))
         case Null => Ok(items)
         case _ => Err(SliceTypeError))
    case Ignored => Ok(items)
  }

  /** The steps in order; the first that raises ends the pipeline. */
  function RunPipeline(items: seq<Doc>, steps: seq<Step>): (r: Result<seq<Doc>>)
    decreases |steps|
  {
    if |steps| == 0 then Ok(items)
    else
      match ApplyStep(items, steps[0])
      case Err(msg) => Err(msg)
      case Ok(next) => RunPipeline(next, steps[1..])
  }

  /** `xs` sits inside `ys` at the strictly increasing positions `idx`. */
  ghost predicate Embeds<T>(xs: seq<T>, ys: seq<T>, idx: seq<nat>)
  {
    && |idx| == |xs|
    && (forall i :: 0 <= i < |idx| ==> idx[i] < |ys| && xs[i] == ys[idx[i]])
    && (forall i, j :: 0 <= i < j < |idx| ==> idx[i] < idx[j])
  }

  /** `xs` is `ys` with some elements left out and the rest in their order. */
  ghost predicate IsSubsequence<T>(xs: seq<T>, ys: seq<T>)
  {
    exists idx :: Embeds(xs, ys, idx)
  }

  lemma EmbedsMembers<T>(xs: seq<T>, ys: seq<T>, idx: seq<nat>)
    requires Embeds(xs, ys, idx)
    ensures forall x :: x in xs ==> x in ys
  {
    forall x | x in xs
      ensures x in ys
    {
      var i :| 0 <= i < |xs| && xs[i] == x;
      assert ys[idx[i]] == x;
    }
  }

  lemma EmbedsCompose<T>(xs: seq<T>, ys: seq<T>, zs: seq<T>, a: seq<nat>, b: seq<nat>)
    requires Embeds(xs, ys, a) && Embeds(ys, zs, b)
    ensures Embeds(xs, zs, seq(|a|, i requires 0 <= i < |a| => b[a[i]]))
  {
  }

  /** Positions moved one place to the right. */
  function Shift(t: seq<nat>): (r: seq<nat>)
    ensures |r| == |t|
    ensures forall i :: 0 <= i < |t| ==> r[i] == t[i] + 1
  {
    seq(|t|, i requires 0 <= i < |t| => t[i] + 1)
  }

  lemma EmbedsShift<T>(xs: seq<T>, ys: seq<T>, t: seq<nat>)
    requires |ys| > 0 && Embeds(xs, ys[1..], t)
    ensures Embeds(xs, ys, Shift(t))
  {
  }

  lemma EmbedsCons<T>(x: T, xs: seq<T>, ys: seq<T>, t: seq<nat>)
    requires |ys| > 0 && ys[0] == x && Embeds(xs, ys, t)
    requires forall i :: 0 <= i < |t| ==> t[i] > 0
    ensures Embeds([x] + xs, ys, [0] + t)
  {
  }

  /** Where the items kept by a filter stood. */
  ghost function FilterIndices<T(!new)>(xs: seq<T>, keep: T -> bool): (idx: seq<nat>)
    ensures Embeds(Filter(xs, keep), xs, idx)
  {
    if |xs| == 0 then []
    else
      var t := FilterIndices(xs[1..], keep);
      EmbedsShift(Filter(xs[1..], keep), xs, t);
      if keep(xs[0]) then
        EmbedsCons(xs[0], Filter(xs[1..], keep), xs, Shift(t));
        [0] + Shift(t)
      else Shift(t)
  }

  /** A subsequence of points with unique ids has unique ids. */
  lemma EmbedsUniqueIds(xs: seq<Record>, ys: seq<Record>, idx: seq<nat>)
    requires Embeds(xs, ys, idx) && UniqueIds(ys)
    ensures UniqueIds(xs)
  {
    forall i, j | 0 <= i < j < |xs|
      ensures xs[i].id != xs[j].id
    {
      assert idx[i] < idx[j];
    }
  }

  /** Every position kept, in order. */
  function Identity(n: nat): (r: seq<nat>)
    ensures |r| == n
    ensures forall i :: 0 <= i < n ==> r[i] == i
  {
    seq(n, i requires 0 <= i < n => i)
  }

  /** Where the items a step keeps stood. */
  ghost function StepIndices(items: seq<Doc>, step: Step): (idx: seq<nat>)
    requires ApplyStep(items, step).Ok?
    ensures Embeds(ApplyStep(items, step).value, items, idx)
  {
    var out := ApplyStep(items, step).value;
    if step.Callable? then FilterIndices(items, step.keep)
    else Identity(|out|)
  }

  /** Where the items the whole pipeline keeps stood. */
  ghost function PipelineIndices(items: seq<Doc>, steps: seq<Step>): (idx: seq<nat>)
    requires RunPipeline(items, steps).Ok?
    ensures Embeds(RunPipeline(items, steps).value, items, idx)
    decreases |steps|
  {
    if |steps| == 0 then Identity(|items|)
    else
      var next := ApplyStep(items, steps[0]).value;
      var a := PipelineIndices(next, steps[1..]);
      var b := StepIndices(items, steps[0]);
      EmbedsCompose(RunPipeline(items, steps).value, next, items, a, b);
      seq(|a|, i requires 0 <= i < |a| => b[a[i]])
  }

  /** The pipeline's output is an order-preserving subsequence of its input. */
  lemma PipelineSubsequence(items: seq<Doc>, steps: seq<Step>)
    requires RunPipeline(items, steps).Ok?
    ensures IsSubsequence(RunPipeline(items, steps).value, items)
    ensures forall x :: x in RunPipeline(items, steps).value ==> x in items
  {
    var idx := PipelineIndices(items, steps);
    PipelineMembers(items, steps);
  }

  /** The pipeline invents no items. */
  lemma PipelineMembers(items: seq<Doc>, steps: seq<Step>)
    requires RunPipeline(items, steps).Ok?
    ensures forall x :: x in RunPipeline(items, steps).value ==> x in items
  {
    EmbedsMembers(RunPipeline(items, steps).value, items, PipelineIndices(items, steps));
  }

  /** Every item that survives the pipeline satisfies every callable step of it. */
  lemma {:induction false} PipelineSatisfiesFilters(items: seq<Doc>, steps: seq<Step>)
    requires RunPipeline(items, steps).Ok?
    ensures forall j, x :: 0 <= j < |steps| && steps[j].Callable? && x in RunPipeline(items, steps).value
                           ==> steps[j].keep(x)
    decreases |steps|
  {
    if |steps| > 0 {
      var next := ApplyStep(items, steps[0]).value;
      var out := RunPipeline(next, steps[1..]).value;
      assert out == RunPipeline(items, steps).value;
      PipelineSatisfiesFilters(next, steps[1..]);
      PipelineMembers(next, steps[1..]);
      forall j, x | 0 <= j < |steps| && steps[j].Callable? && x in out
        ensures steps[j].keep(x)
      {
        if j == 0 {
          assert x in next;
          assert next == Filter(items, steps[0].keep);
        } else {
          assert steps[1..][j - 1] == steps[j];
        }
      }
    }
  }

  /** The length of the output never exceeds that of the input. */
  lemma {:induction false} PipelineShrinks(items: seq<Doc>, steps: seq<Step>)
    requires RunPipeline(items, steps).Ok?
    ensures |RunPipeline(items, steps).value| <= |items|
    decreases |steps|
  {
    if |steps| > 0 {
      PipelineShrinks(ApplyStep(items, steps[0]).value, steps[1..]);
    }
  }

  /** A `["search", k]` step with `k >= 0` leaves at most `k` items, whatever follows it. */
  lemma {:induction false} SearchStepBounds(items: seq<Doc>, steps: seq<Step>, j: nat, k: int)
    requires j < |steps| && steps[j].ListStep? && |steps[j].elems| >= 2
    requires steps[j].elems[0] == Str("search") && steps[j].elems[1] == Int(k) && k >= 0
    requires RunPipeline(items, steps).Ok?
    ensures |RunPipeline(items, steps).value| <= k
    decreases j
  {
    var next := ApplyStep(items, steps[0]).value;
    if j == 0 {
      PipelineShrinks(next, steps[1..]);
    } else {
      SearchStepBounds(next, steps[1..], j - 1, k);
    }
  }

  /** A negative search bound keeps all but the last `-k` items, as Python slicing does. */
  lemma SearchStepNegative(items: seq<Doc>, k: int)
    requires k < 0
    ensures ApplyStep(items, ListStep([Str("search"), Int(k)])).value
         == items[..if |items| + k > 0 then |items| + k else 0]
  {
  }

  /** A step that is neither callable nor a list starting with "search", as the loop skips it. */
  predicate Inert(step: Step)
  {
    step.Ignored? || (step.ListStep? && |step.elems| > 0 && step.elems[0] != Str("search"))
  }

  /** Removing an inert step from the pipeline changes nothing. */
  lemma {:induction false} InertStepSkipped(items: seq<Doc>, steps: seq<Step>, j: nat)
    requires j < |steps| && Inert(steps[j])
    ensures RunPipeline(items, steps) == RunPipeline(items, steps[..j] + steps[j + 1..])
    decreases j
  {
    var shorter := steps[..j] + steps[j + 1..];
    if j == 0 {
      assert shorter == steps[1..];
    } else {
      assert shorter[0] == steps[0];
      assert shorter[1..] == steps[1..][..j - 1] + steps[1..][j..];
      if ApplyStep(items, steps[0]).Ok? {
        InertStepSkipped(ApplyStep(items, steps[0]).value, steps[1..], j - 1);
      }
    }
  }

  /** `retrieval_pipeline or []`. */
  function ConfiguredPipeline(given: Option<seq<Step>>): (r: seq<Step>)
    ensures given.None? ==> r == []
    ensures given.Some? ==> r == given.value
  {
    match given
    case None => []
    case Some(steps) => steps
  }

  /** A pipeline given to `retrieve` replaces the configured one, even when it is empty. */
  function EffectivePipeline(configured: seq<Step>, given: Option<seq<Step>>): (r: seq<Step>)
    ensures given.Some? ==> r == given.value
    ensures given.None? ==> r == configured
  {
    if given.None? then configured else given.value
  }

  /** `retrieve(..., retrieval_pipeline=[])` returns the hits unchanged, whatever the store was configured with. */
  lemma GivenEmptyPipelineKeepsHits(items: seq<Doc>, configured: seq<Step>)
    ensures RunPipeline(items, EffectivePipeline(configured, Some([]))) == Ok(items)
  {
  }

  /** A store built without a pipeline returns the hits unchanged when none is given. */
  lemma UnconfiguredKeepsHits(items: seq<Doc>)
    ensures RunPipeline(items, EffectivePipeline(ConfiguredPipeline(None), None)) == Ok(items)
  {
  }

  /** A hit of `query_points`. */
  datatype Scored = Scored(id: PointId, score: real, payload: Option<Doc>)

  /** `{"id": r.id, "score": r.score, **(r.payload or {})}`. */
  function ItemOf(s: Scored): Doc
  {
    Merge([("id", IdValue(s.id)), ("score", Real(s.score))], s.payload.GetOr([]))
  }

  function ItemsOf(hits: seq<Scored>): (r: seq<Doc>)
    ensures |r| == |hits|
    ensures forall i :: 0 <= i < |hits| ==> r[i] == ItemOf(hits[i])
  {
    if |hits| == 0 then [] else [ItemOf(hits[0])] + ItemsOf(hits[1..])
  }

  /** An item shows the hit's payload under its own keys, and its id and score otherwise. */
  lemma ItemOfGet(s: Scored, k: string)
    requires UniqueKeys(s.payload.GetOr([]))
    ensures Get(ItemOf(s), k)
         == if Has(s.payload.GetOr([]), k) then Get(s.payload.GetOr([]), k)
            else if k == "id" then Some(IdValue(s.id))
            else if k == "score" then Some(Real(s.score))
            else None
  {
    MergeGet([("id", IdValue(s.id)), ("score", Real(s.score))], s.payload.GetOr([]), k);
  }

  // ---------------------------------------------------------------- the store

  /** How the store was told to embed: by name, by a function, or by something else. */
  datatype EmbedderSpec = Named(name: string) | Custom | NotCallable

  /** The embedder `__init__` settles on. */
  datatype EmbedderChoice = OpenAI | Splade | CustomEmbedder

  const EmbedderNameError := "Embedder must be 'openai' or 'splade' or a callable function."
  const EmbedderTypeError := "Embedder must be a callable function or a string identifier."

  /** A name picks the OpenAI or the SPLADE embedder, case-insensitively; a function is used as given. */
  function ResolveEmbedder(spec: EmbedderSpec): (r: Result<EmbedderChoice>)
    ensures spec.Named? ==> (r == Ok(OpenAI) <==> Text.Lower(spec.name) == "openai")
    ensures spec.Named? ==> (r == Ok(Splade) <==> Text.Lower(spec.name) == "splade")
    ensures spec.Named? && r.Err? ==> r.msg == EmbedderNameError
    ensures spec.Custom? ==> r == Ok(CustomEmbedder)
    ensures spec.NotCallable? ==> r == Err(EmbedderTypeError)
  {
    match spec
    case Named(name) =>
      if Text.Lower(name) == "openai" then Ok(OpenAI)
      else if Text.Lower(name) == "splade" then Ok(Splade)
      else Err(EmbedderNameError)
    case Custom => Ok(CustomEmbedder)
    case NotCallable => Err(EmbedderTypeError)
  }

  /** Lower-casing twice is lower-casing once. */
  lemma {:induction false} LowerIdempotent(s: string)
    ensures Text.Lower(Text.Lower(s)) == Text.Lower(s)
  {
    if |s| > 0 {
      LowerIdempotent(s[1..]);
      assert Text.Lower(s)[1..] == Text.Lower(s[1..]);
    }
  }

  /** Only the letters' case is ignored: a name and its lower-case form pick the same embedder. */
  lemma ResolveEmbedderIgnoresCase(name: string)
    ensures ResolveEmbedder(Named(name)) == ResolveEmbedder(Named(Text.Lower(name)))
  {
    LowerIdempotent(name);
  }

  /**
   * `VectorEmbeddingStore`: the embedder it settled on, the configured pipeline and the
   * collection it writes to, whose points the methods below replace.
   */
  class EmbeddingStore {
    const embed: Value -> Vector
    const nameUuid: string -> Hex32
    const pipeline: seq<Step>
    var points: seq<Record>

    predicate Valid()
      reads this
    {
      UniqueIds(points)
    }

    /**
     * Connects to a collection holding `existing` (empty when it has just been created);
     * the server keeps one point per id.
     */
    constructor(embed: Value -> Vector, nameUuid: string -> Hex32, retrievalPipeline: Option<seq<Step>>,
                existing: seq<Record>)
      requires UniqueIds(existing)
      ensures Valid()
      ensures this.embed == embed && this.nameUuid == nameUuid
      ensures pipeline == ConfiguredPipeline(retrievalPipeline)
      ensures points == existing
    {
      this.embed := embed;
      this.nameUuid := nameUuid;
      pipeline := ConfiguredPipeline(retrievalPipeline);
      points := existing;
    }

    /** `insert`: the item's point is upserted; an item that does not format changes nothing. */
    method Insert(item: Doc) returns (r: Result<PointId>)
      requires Valid()
      modifies this
      ensures Valid()
      ensures r.Err? ==> FormatPoint(item, embed, nameUuid) == Err(r.msg) && points == old(points)
      ensures r.Ok? ==> FormatPoint(item, embed, nameUuid).Ok? && r.value == FormatPoint(item, embed, nameUuid).value.id
      ensures r.Ok? ==> points == UpsertAll(old(points), [FormatPoint(item, embed, nameUuid).value])
    {
      var p := FormatPoint(item, embed, nameUuid);
      if p.Err? {
        return Err(p.msg);
      }
      UpsertAllUnique(points, [p.value]);
      points := UpsertAll(points, [p.value]);
      r := Ok(p.value.id);
    }

    /** `inserts`: every item is formatted first, and all the points are upserted at once. */
    method Inserts(items: seq<Doc>) returns (r: Result<seq<Point>>)
      requires Valid()
      modifies this
      ensures Valid()
      ensures r == FormatAll(items, embed, nameUuid)
      ensures r.Err? ==> points == old(points)
      ensures r.Ok? ==> points == UpsertAll(old(points), r.value)
    {
      r := FormatAll(items, embed, nameUuid);
      if r.Ok? {
        UpsertAllUnique(points, r.value);
        points := UpsertAll(points, r.value);
      }
    }

    /**
     * `retrieve`: the query is embedded and searched with `top_k` (the collection's size
     * when absent); the hits become items, which pass through the given pipeline, or the
     * configured one when none is given.
     */
    method Retrieve(query: string, topK: Option<int>, given: Option<seq<Step>>,
                    search: (PointVector, int) -> seq<Scored>) returns (r: Result<seq<Doc>>)
      ensures var limit := if topK.Some? then topK.value else |points|;
              r == RunPipeline(ItemsOf(search(ToPointVector(embed(Str(query))), limit)),
                               EffectivePipeline(pipeline, given))
    {
      var limit := if topK.Some? then topK.value else |points|;
      var items := ItemsOf(search(ToPointVector(embed(Str(query))), limit));
      var steps := EffectivePipeline(pipeline, given);
      var i := 0;
      while i < |steps|
        invariant 0 <= i <= |steps|
        invariant RunPipeline(ItemsOf(search(ToPointVector(embed(Str(query))), limit)), steps)
               == RunPipeline(items, steps[i..])
      {
        assert steps[i..][1..] == steps[i + 1..];
        var step := steps[i];
        match step {
          case Callable(keep) =>
            items := Filter(items, keep);
          case ListStep(elems) =>
            if |elems| == 0 {
              return Err(IndexError);
            }
            if elems[0] == Str("search") {
              if |elems| < 2 {
                return Err(IndexError);
              }
              match elems[1] {
                case Int(k) => items := SliceTo(items, k);
                case Bool(b) => items := SliceTo(items, if b then 1 else 0);
                case Null =>
                case _ => return Err(SliceTypeError);
              }
            }
          case Ignored =>
        }
        i := i + 1;
      }
      r := Ok(items);
    }

    /**
     * `delete`: the first 10000 points are scrolled, those the condition selects are
     * deleted by id, and the server is called only when there are some.
     */
    method Delete(condition: Doc -> bool) returns (called: bool)
      requires Valid()
      modifies this
      ensures Valid()
      ensures called <==> |Matching(old(points), condition)| > 0
      ensures points == DeleteIds(old(points), IdsOf(Matching(old(points), condition)))
    {
      var ids := IdsOf(Matching(points, condition));
      called := |ids| > 0;
      if called {
        DeleteIdsUnique(points, ids);
        points := DeleteIds(points, ids);
      } else {
        assert DeleteIds(points, ids) == points by {
          FilterAll(points, NotIn(ids));
        }
      }
    }

    /**
     * `update`: every scrolled point the condition selects is rebuilt from `update_func`'s
     * output, and the rebuilt points are upserted together, only when there are some; a
     * point that does not format leaves the collection as it was.
     */
    method Update(condition: Doc -> bool, updateFunc: Doc -> Doc) returns (r: Result<seq<Point>>)
      requires Valid()
      modifies this
      ensures Valid()
      ensures r == Rebuild(Scroll(old(points)), condition, updateFunc, embed, nameUuid)
      ensures r.Err? ==> points == old(points)
      ensures r.Ok? ==> points == UpsertAll(old(points), r.value)
    {
      var scrolled := Scroll(points);
      var updated: seq<Point> := [];
      var i := 0;
      while i < |scrolled|
        invariant 0 <= i <= |scrolled|
        invariant Rebuild(scrolled[..i], condition, updateFunc, embed, nameUuid) == Ok(updated)
      {
        assert scrolled[..i + 1][..i] == scrolled[..i];
        var full := Full(scrolled[i]);
        if condition(full) {
          var p := FormatPoint(updateFunc(full), embed, nameUuid);
          if p.Err? {
            RebuildErrSticks(scrolled, i + 1, condition, updateFunc, embed, nameUuid);
            return Err(p.msg);
          }
          updated := updated + [p.value];
        }
        i := i + 1;
      }
      assert scrolled[..i] == scrolled;
      if |updated| > 0 {
        UpsertAllUnique(points, updated);
        points := UpsertAll(points, updated);
      }
      r := Ok(updated);
    }
  }

  /** A filter that keeps everything is the identity. */
  lemma {:induction false} FilterAll<T(!new)>(xs: seq<T>, keep: T -> bool)
    requires forall x :: x in xs ==> keep(x)
    ensures Filter(xs, keep) == xs
  {
    if |xs| > 0 {
      FilterAll(xs[1..], keep);
    }
  }
}
