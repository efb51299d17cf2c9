/**
 * The generic document-store layer every Mongo handler inherits: a collection is the
 * sequence of its documents in natural (insertion) order.
 */
module DocStore {
  import opened Wrappers
  import opened Json
  import Text

  /**
   * A single-field equality filter `{field: value}`, read as plain equality of the stored
   * value: the callers filter on scalar ids and names, where the two agree.
   */
  predicate Matches(d: Doc, field: string, value: Value)
  {
    Get(d, field) == Some(value)
  }

  /** How many documents the filter `{field: value}` selects. */
  function CountMatching(docs: seq<Doc>, field: string, value: Value): nat
  {
    if |docs| == 0 then 0
    else (if Matches(docs[0], field, value) then 1 else 0) + CountMatching(docs[1..], field, value)
  }

  lemma {:induction false} CountMatchingAppend(docs: seq<Doc>, d: Doc, field: string, value: Value)
    ensures CountMatching(docs + [d], field, value)
         == CountMatching(docs, field, value) + (if Matches(d, field, value) then 1 else 0)
  {
    if |docs| == 0 {
      assert docs + [d] == [d];
    } else {
      assert (docs + [d])[1..] == docs[1..] + [d];
      CountMatchingAppend(docs[1..], d, field, value);
    }
  }

  /** Index of the first document `find_one({field: value})` returns, or -1. */
  function FirstMatch(docs: seq<Doc>, field: string, value: Value): (k: int)
    ensures -1 <= k < |docs|
    ensures k >= 0 ==> Matches(docs[k], field, value)
    ensures forall j :: 0 <= j < |docs| && (k < 0 || j < k) ==> !Matches(docs[j], field, value)
  {
    if |docs| == 0 then -1
    else if Matches(docs[0], field, value) then 0
    else var k := FirstMatch(docs[1..], field, value); if k < 0 then -1 else k + 1
  }

  /** The collection after `delete_one({field: value})`. */
  function DeleteFirst(docs: seq<Doc>, field: string, value: Value): (r: seq<Doc>)
  {
    var k := FirstMatch(docs, field, value);
    if k < 0 then docs else docs[..k] + docs[k + 1..]
  }

  /** Removing index `k + 1` from `[x] + t` keeps `x` in front of `t` without index `k`. */
  lemma SpliceCons<T>(x: T, t: seq<T>, k: int)
    requires 0 <= k < |t|
    ensures ([x] + t)[..k + 1] + ([x] + t)[k + 2..] == [x] + (t[..k] + t[k + 1..])
  {
    var s := [x] + t;
    assert s[..k + 1] == [x] + t[..k];
    assert s[k + 2..] == t[k + 1..];
  }

  /** Past a first document that does not match, `delete_one` acts on the rest. */
  lemma DeleteFirstCons(docs: seq<Doc>, field: string, value: Value)
    requires |docs| > 0 && !Matches(docs[0], field, value)
    ensures DeleteFirst(docs, field, value) == [docs[0]] + DeleteFirst(docs[1..], field, value)
  {
    var tail := docs[1..];
    assert docs == [docs[0]] + tail;
    var k := FirstMatch(tail, field, value);
    if k >= 0 {
      assert FirstMatch(docs, field, value) == k + 1;
      SpliceCons(docs[0], tail, k);
    } else {
      assert FirstMatch(docs, field, value) == -1;
    }
  }

  lemma {:induction false} DeleteFirstCount(docs: seq<Doc>, field: string, value: Value)
    ensures CountMatching(DeleteFirst(docs, field, value), field, value)
         == if CountMatching(docs, field, value) == 0 then 0 else CountMatching(docs, field, value) - 1
  {
    if |docs| > 0 {
      if Matches(docs[0], field, value) {
        assert FirstMatch(docs, field, value) == 0;
        assert DeleteFirst(docs, field, value) == docs[1..];
      } else {
        var rest := DeleteFirst(docs[1..], field, value);
        DeleteFirstCount(docs[1..], field, value);
        DeleteFirstCons(docs, field, value);
        assert ([docs[0]] + rest)[1..] == rest;
        assert CountMatching([docs[0]] + rest, field, value) == CountMatching(rest, field, value);
      }
    }
  }

  /** Values of the listed fields present in `item`, in list order; None when one is not a string. */
  function PresentTexts(item: Doc, fields: seq<string>): Option<seq<string>>
  {
    if |fields| == 0 then Some([])
    else
      var rest := PresentTexts(item, fields[1..]);
      match Get(item, fields[0])
      case None => rest
      case Some(Str(s)) => if rest.Some? then Some([s] + rest.value) else None
      case Some(_) => None
  }

  predicate IsStrField(item: Doc, f: string)
  {
    Get(item, f).Some? && Get(item, f).value.Str?
  }

  /** The fields of `fields` that `item` holds, in list order. */
  function PresentFields(item: Doc, fields: seq<string>): seq<string>
  {
    if |fields| == 0 then []
    else (if Has(item, fields[0]) then [fields[0]] else []) + PresentFields(item, fields[1..])
  }

  /**
   * The embedded text collects exactly the present fields, in list order; it fails
   * exactly when one of them is not a string (`" ".join` raises TypeError).
   */
  lemma PresentTextsSpec(item: Doc, fields: seq<string>)
    ensures PresentTexts(item, fields).Some? <==>
              forall j :: 0 <= j < |PresentFields(item, fields)| ==>
                IsStrField(item, PresentFields(item, fields)[j])
    ensures PresentTexts(item, fields).Some? ==>
              var ts := PresentTexts(item, fields).value;
              |ts| == |PresentFields(item, fields)| &&
              forall j :: 0 <= j < |ts| ==> Get(item, PresentFields(item, fields)[j]) == Some(Str(ts[j]))
  {
    PresentTextsOk(item, fields);
    PresentTextsValues(item, fields);
  }

  /** Every field of `fs` holds a string in `item`. */
  predicate AllStr(item: Doc, fs: seq<string>)
  {
    forall j :: 0 <= j < |fs| ==> IsStrField(item, fs[j])
  }

  lemma AllStrCons(item: Doc, f: string, fs: seq<string>)
    ensures AllStr(item, [f] + fs) <==> IsStrField(item, f) && AllStr(item, fs)
  {
    var all := [f] + fs;
    if IsStrField(item, f) && AllStr(item, fs) {
      forall j | 0 <= j < |all| ensures IsStrField(item, all[j]) {
        if j > 0 { assert all[j] == fs[j - 1]; }
      }
    }
    if AllStr(item, all) {
      assert IsStrField(item, all[0]);
      forall j | 0 <= j < |fs| ensures IsStrField(item, fs[j]) {
        assert all[j + 1] == fs[j];
      }
    }
  }

  lemma {:induction false} PresentTextsOk(item: Doc, fields: seq<string>)
    ensures PresentTexts(item, fields).Some? <==> AllStr(item, PresentFields(item, fields))
  {
    if |fields| > 0 {
      var f := fields[0];
      var ps := PresentFields(item, fields[1..]);
      PresentTextsOk(item, fields[1..]);
      GetHas(item, f);
      match Get(item, f)
      case None =>
        assert PresentFields(item, fields) == ps;
      case Some(v) =>
        assert PresentFields(item, fields) == [f] + ps;
        AllStrCons(item, f, ps);
    }
  }

  lemma {:induction false} PresentTextsValues(item: Doc, fields: seq<string>)
    ensures PresentTexts(item, fields).Some? ==>
              var ts := PresentTexts(item, fields).value;
              |ts| == |PresentFields(item, fields)| &&
              forall j :: 0 <= j < |ts| ==> Get(item, PresentFields(item, fields)[j]) == Some(Str(ts[j]))
  {
    if |fields| > 0 && PresentTexts(item, fields).Some? {
      PresentTextsValues(item, fields[1..]);
      GetHas(item, fields[0]);
      var ps := PresentFields(item, fields[1..]);
      var rest := PresentTexts(item, fields[1..]);
      if Has(item, fields[0]) {
        var all := PresentFields(item, fields);
        assert all == [fields[0]] + ps;
        var ts := PresentTexts(item, fields).value;
        assert ts == [Get(item, fields[0]).value.s] + rest.value;
        forall j | 0 <= j < |ts| ensures Get(item, all[j]) == Some(Str(ts[j])) {
          if j > 0 { assert all[j] == ps[j - 1] && ts[j] == rest.value[j - 1]; }
        }
      } else {
        assert PresentFields(item, fields) == ps;
      }
    }
  }

  /** `embedding.tolist()`: the vector as a JSON list of floats. */
  function VectorValue(xs: seq<real>): (v: Value)
    ensures v.Arr? && |v.items| == |xs|
    ensures forall i :: 0 <= i < |xs| ==> v.items[i] == Real(xs[i])
  {
    if |xs| == 0 then Arr([]) else Arr([Real(xs[0])] + VectorValue(xs[1..]).items)
  }

  /**
   * The document `add_item` inserts: the item itself, with a `vector` key holding the
   * embedding of its present listed fields joined by single spaces when `vectorFields`
   * is non-empty.
   */
  function StoredItem(item: Doc, vectorFields: seq<string>, embed: string -> seq<real>): (r: Result<Doc>)
    ensures |vectorFields| == 0 ==> r == Ok(item)
    ensures r.Ok? && |vectorFields| > 0 ==>
              PresentTexts(item, vectorFields).Some? &&
              r.value == Put(item, "vector", VectorValue(embed(Text.Join(" ", PresentTexts(item, vectorFields).value))))
    ensures r.Err? <==> |vectorFields| > 0 && PresentTexts(item, vectorFields).None?
    ensures r.Ok? ==> forall k :: k != "vector" ==> Get(r.value, k) == Get(item, k)
  {
    if |vectorFields| == 0 then Ok(item)
    else match PresentTexts(item, vectorFields)
      case None => Err("sequence item: expected str instance")
      case Some(texts) => Ok(Put(item, "vector", VectorValue(embed(Text.Join(" ", texts)))))
  }

  /** Documents that hold `field`, in store order. */
  function Eligible(docs: seq<Doc>, field: string): seq<Doc>
  {
    if |docs| == 0 then [] else (if Has(docs[0], field) then [docs[0]] else []) + Eligible(docs[1..], field)
  }

  lemma {:induction false} EligibleAppend(docs: seq<Doc>, d: Doc, field: string)
    ensures Eligible(docs + [d], field) == Eligible(docs, field) + (if Has(d, field) then [d] else [])
  {
    if |docs| == 0 {
      assert docs + [d] == [d];
    } else {
      var h := if Has(docs[0], field) then [docs[0]] else [];
      assert (docs + [d])[0] == docs[0] && (docs + [d])[1..] == docs[1..] + [d];
      EligibleAppend(docs[1..], d, field);
      assert Eligible(docs + [d], field) == h + Eligible(docs[1..] + [d], field);
      assert h + (Eligible(docs[1..], field) + (if Has(d, field) then [d] else []))
          == (h + Eligible(docs[1..], field)) + (if Has(d, field) then [d] else []);
    }
  }

  /** The documents of `xs` whose similarity is exactly `v`, in their order in `xs`. */
  function WithScore(xs: seq<Doc>, score: Doc -> real, v: real): seq<Doc>
  {
    if |xs| == 0 then [] else (if score(xs[0]) == v then [xs[0]] else []) + WithScore(xs[1..], score, v)
  }

  lemma {:induction false} WithScoreAppend(xs: seq<Doc>, ys: seq<Doc>, score: Doc -> real, v: real)
    ensures WithScore(xs + ys, score, v) == WithScore(xs, score, v) + WithScore(ys, score, v)
  {
    if |xs| == 0 {
      assert xs + ys == ys;
    } else {
      var h := if score(xs[0]) == v then [xs[0]] else [];
      assert (xs + ys)[0] == xs[0] && (xs + ys)[1..] == xs[1..] + ys;
      WithScoreAppend(xs[1..], ys, score, v);
      assert WithScore(xs + ys, score, v) == h + WithScore(xs[1..] + ys, score, v);
      assert h + (WithScore(xs[1..], score, v) + WithScore(ys, score, v))
          == (h + WithScore(xs[1..], score, v)) + WithScore(ys, score, v);
    }
  }

  /** Non-increasing similarity: the order `sort(key=sim, reverse=True)` produces. */
  predicate SortedDesc(xs: seq<Doc>, score: Doc -> real)
  {
    forall i, j :: 0 <= i < j < |xs| ==> score(xs[i]) >= score(xs[j])
  }

  lemma {:induction false} NoneAboveHead(xs: seq<Doc>, score: Doc -> real, v: real)
    requires SortedDesc(xs, score)
    requires |xs| > 0 ==> score(xs[0]) < v
    ensures WithScore(xs, score, v) == []
  {
    if |xs| > 0 {
      NoneAboveHead(xs[1..], score, v);
    }
  }

  /** One step of a stable descending insertion sort: `x` goes after every element scoring at least as high. */
  function InsertDesc(xs: seq<Doc>, x: Doc, score: Doc -> real): (r: seq<Doc>)
    ensures |r| == |xs| + 1
    ensures forall d :: d in r <==> d in xs || d == x
  {
    if |xs| == 0 then [x]
    else if score(xs[0]) >= score(x) then [xs[0]] + InsertDesc(xs[1..], x, score)
    else [x] + xs
  }

  lemma {:induction false} InsertDescSorted(xs: seq<Doc>, x: Doc, score: Doc -> real)
    requires SortedDesc(xs, score)
    ensures SortedDesc(InsertDesc(xs, x, score), score)
  {
    if |xs| > 0 && score(xs[0]) >= score(x) {
      InsertDescSorted(xs[1..], x, score);
      var r := InsertDesc(xs, x, score);
      forall j | 0 < j < |r| ensures score(r[0]) >= score(r[j]) {
        assert r[j] in InsertDesc(xs[1..], x, score);
      }
    }
  }

  /** Stability: among equal similarities the inserted element comes last. */
  lemma {:induction false} InsertDescStable(xs: seq<Doc>, x: Doc, score: Doc -> real, v: real)
    requires SortedDesc(xs, score)
    ensures WithScore(InsertDesc(xs, x, score), score, v)
         == WithScore(xs, score, v) + (if score(x) == v then [x] else [])
  {
    if |xs| == 0 {
    } else if score(xs[0]) >= score(x) {
      InsertDescStable(xs[1..], x, score, v);
      StableStep(xs[0], xs[1..], InsertDesc(xs[1..], x, score), if score(x) == v then [x] else [], score, v);
      assert [xs[0]] + xs[1..] == xs;
    } else {
      WithScoreCons(x, xs, score, v);
      if score(x) == v {
        NoneAboveHead(xs, score, v);
      }
    }
  }

  /** Putting the same document in front of both sides keeps an appended-tail relation between the score groups. */
  lemma StableStep(h: Doc, before: seq<Doc>, after: seq<Doc>, last: seq<Doc>, score: Doc -> real, v: real)
    requires WithScore(after, score, v) == WithScore(before, score, v) + last
    ensures WithScore([h] + after, score, v) == WithScore([h] + before, score, v) + last
  {
    var hv := if score(h) == v then [h] else [];
    WithScoreCons(h, after, score, v);
    WithScoreCons(h, before, score, v);
    assert hv + (WithScore(before, score, v) + last) == (hv + WithScore(before, score, v)) + last;
  }

  lemma WithScoreCons(x: Doc, xs: seq<Doc>, score: Doc -> real, v: real)
    ensures WithScore([x] + xs, score, v) == (if score(x) == v then [x] else []) + WithScore(xs, score, v)
  {
    assert ([x] + xs)[0] == x && ([x] + xs)[1..] == xs;
  }

  /** The pairs kept by `if sim > similarity_threshold`, in order. */
  function Above(xs: seq<Doc>, score: Doc -> real, threshold: real): seq<Doc>
  {
    if |xs| == 0 then [] else (if score(xs[0]) > threshold then [xs[0]] else []) + Above(xs[1..], score, threshold)
  }

  lemma {:induction false} AboveAppend(xs: seq<Doc>, d: Doc, score: Doc -> real, threshold: real)
    ensures Above(xs + [d], score, threshold) == Above(xs, score, threshold) + (if score(d) > threshold then [d] else [])
  {
    if |xs| == 0 {
      assert xs + [d] == [d];
    } else {
      assert (xs + [d])[1..] == xs[1..] + [d];
      AboveAppend(xs[1..], d, score, threshold);
    }
  }

  lemma {:induction false} AboveWithScore(xs: seq<Doc>, score: Doc -> real, threshold: real, v: real)
    ensures WithScore(Above(xs, score, threshold), score, v)
         == if v > threshold then WithScore(xs, score, v) else []
  {
    if |xs| > 0 {
      AboveWithScore(xs[1..], score, threshold, v);
      WithScoreAppend(if score(xs[0]) > threshold then [xs[0]] else [], Above(xs[1..], score, threshold), score, v);
    }
  }

  /** Documents of a sorted sequence keep their order and are all above the threshold once filtered. */
  lemma {:induction false} AboveSorted(xs: seq<Doc>, score: Doc -> real, threshold: real)
    requires SortedDesc(xs, score)
    ensures SortedDesc(Above(xs, score, threshold), score)
    ensures forall d :: d in Above(xs, score, threshold) ==> d in xs && score(d) > threshold
  {
    if |xs| > 0 {
      AboveSorted(xs[1..], score, threshold);
      var r := Above(xs, score, threshold);
      if score(xs[0]) > threshold {
        forall j | 0 < j < |r| ensures score(r[0]) >= score(r[j]) {
          assert r[j] in Above(xs[1..], score, threshold);
        }
      }
    }
  }

  class DocumentStore {
    /** The collection's documents in natural order. */
    var docs: seq<Doc>

    constructor ()
      ensures docs == []
    {
      docs := [];
    }

    /**
     * `add_item`: inserts without any uniqueness check (it is commented out in the
     * source) and returns the document it inserted; a non-string listed field raises
     * before anything is written.
     */
    method AddItem(item: Doc, uniqueField: string, vectorFields: seq<string>, embed: string -> seq<real>)
      returns (r: Result<Doc>)
      modifies this
      ensures r == StoredItem(item, vectorFields, embed)
      ensures r.Ok? ==> docs == old(docs) + [r.value]
      ensures r.Err? ==> docs == old(docs)
    {
      r := StoredItem(item, vectorFields, embed);
      if r.Ok? {
        docs := docs + [r.value];
      }
    }

    /** `delete_by_id`: `delete_one` removes the first match; the count removed is returned. */
    method DeleteById(field: string, value: Value) returns (n: nat)
      modifies this
      ensures n <= 1
      ensures n == 1 <==> CountMatching(old(docs), field, value) > 0
      ensures docs == DeleteFirst(old(docs), field, value)
      ensures |docs| == |old(docs)| - n
    {
      var k := FirstMatch(docs, field, value);
      if k >= 0 {
        CountMatchingPositive(docs, field, value, k);
        docs := docs[..k] + docs[k + 1..];
        n := 1;
      } else {
        CountMatchingZero(docs, field, value);
        n := 0;
      }
    }

    /** `delete_all`: empties the collection and reports whether anything was removed. */
    method DeleteAll() returns (removed: bool)
      modifies this
      ensures docs == []
      ensures removed <==> |old(docs)| > 0
    {
      removed := |docs| > 0;
      docs := [];
    }

    /**
     * `update_one({field: value}, {"$set": {key: newValue}})` and `modified_count > 0`:
     * the first match gets the new value; Mongo counts it as modified only when the
     * value actually changes.
     */
    method SetOnFirst(field: string, value: Value, key: string, newValue: Value) returns (modified: bool)
      modifies this
      ensures (docs, modified) == SetFirst(old(docs), field, value, key, newValue)
    {
      var k := FirstMatch(docs, field, value);
      if k >= 0 {
        modified := Get(docs[k], key) != Some(newValue);
        docs := docs[k := Put(docs[k], key, newValue)];
      } else {
        modified := false;
      }
    }

    /**
     * `update_one({field: value}, {"$push": {key: elem}})`: appends to the first match's
     * array, creating it when absent; Mongo refuses to push onto a non-array.
     */
    method PushOnFirst(field: string, value: Value, key: string, elem: Value) returns (r: Result<bool>)
      modifies this
      ensures (docs, r) == PushFirst(old(docs), field, value, key, elem)
    {
      var k := FirstMatch(docs, field, value);
      if k < 0 {
        r := Ok(false);
      } else {
        match Get(docs[k], key)
        case None =>
          docs := docs[k := Put(docs[k], key, Arr([elem]))];
          r := Ok(true);
        case Some(Arr(xs)) =>
          docs := docs[k := Put(docs[k], key, Arr(xs + [elem]))];
          r := Ok(true);
        case Some(_) =>
          r := Err("The field '" + key + "' must be an array");
      }
    }

    /**
     * `search`: collects every document holding `vectorField` with its similarity to the
     * query (`score`), sorts by similarity, highest first and stably, and keeps those
     * strictly above the threshold. The result is sorted, and for every similarity value
     * it holds exactly the eligible documents with that value, in store order.
     */
    method Search(vectorField: string, threshold: real, score: Doc -> real) returns (r: seq<Doc>)
      ensures SortedDesc(r, score)
      ensures forall v :: WithScore(r, score, v)
                       == if v > threshold then WithScore(Eligible(docs, vectorField), score, v) else []
      ensures forall d :: d in r ==> d in docs && Has(d, vectorField) && score(d) > threshold
    {
      var results: seq<Doc> := [];
      var i := 0;
      while i < |docs|
        invariant 0 <= i <= |docs|
        invariant results == Eligible(docs[..i], vectorField)
      {
        EligibleAppend(docs[..i], docs[i], vectorField);
        assert docs[..i + 1] == docs[..i] + [docs[i]];
        if Has(docs[i], vectorField) {
          results := results + [docs[i]];
        }
        i := i + 1;
      }
      assert docs[..i] == docs;

      var sorted := SortByScore(results, score);
      r := KeepAbove(sorted, score, threshold);
      AboveSorted(sorted, score, threshold);
      forall v ensures WithScore(r, score, v) == if v > threshold then WithScore(Eligible(docs, vectorField), score, v) else [] {
        AboveWithScore(sorted, score, threshold, v);
      }
      forall d | d in r ensures Has(d, vectorField) && d in docs {
        EligibleMember(docs, vectorField, d);
      }
    }
  }

  /** `sorted(..., key=score, reverse=True)` by insertion: stable, highest score first. */
  method SortByScore(xs: seq<Doc>, score: Doc -> real) returns (sorted: seq<Doc>)
    ensures SortedDesc(sorted, score)
    ensures forall v :: WithScore(sorted, score, v) == WithScore(xs, score, v)
    ensures forall d :: d in sorted ==> d in xs
  {
    sorted := [];
    var j := 0;
    while j < |xs|
      invariant 0 <= j <= |xs|
      invariant SortedDesc(sorted, score)
      invariant forall v :: WithScore(sorted, score, v) == WithScore(xs[..j], score, v)
      invariant forall d :: d in sorted ==> d in xs
    {
      InsertDescSorted(sorted, xs[j], score);
      forall v ensures WithScore(InsertDesc(sorted, xs[j], score), score, v) == WithScore(xs[..j + 1], score, v) {
        InsertDescStable(sorted, xs[j], score, v);
        assert xs[..j + 1] == xs[..j] + [xs[j]];
        WithScoreAppend(xs[..j], [xs[j]], score, v);
      }
      sorted := InsertDesc(sorted, xs[j], score);
      j := j + 1;
    }
    assert xs[..j] == xs;
  }

  /** The list comprehension keeping the scored documents strictly above the threshold. */
  method KeepAbove(xs: seq<Doc>, score: Doc -> real, threshold: real) returns (r: seq<Doc>)
    ensures r == Above(xs, score, threshold)
  {
    r := [];
    var k := 0;
    while k < |xs|
      invariant 0 <= k <= |xs|
      invariant r == Above(xs[..k], score, threshold)
    {
      AboveAppend(xs[..k], xs[k], score, threshold);
      assert xs[..k + 1] == xs[..k] + [xs[k]];
      if score(xs[k]) > threshold {
        r := r + [xs[k]];
      }
      k := k + 1;
    }
    assert xs[..k] == xs;
  }

  lemma {:induction false} EligibleMember(docs: seq<Doc>, field: string, d: Doc)
    requires d in Eligible(docs, field)
    ensures d in docs && Has(d, field)
  {
    if |docs| > 0 && d in Eligible(docs[1..], field) {
      EligibleMember(docs[1..], field, d);
    }
  }

  lemma {:induction false} CountMatchingPositive(docs: seq<Doc>, field: string, value: Value, k: nat)
    requires k < |docs| && Matches(docs[k], field, value)
    ensures CountMatching(docs, field, value) > 0
  {
    if k > 0 {
      CountMatchingPositive(docs[1..], field, value, k - 1);
    }
  }

  lemma {:induction false} CountMatchingZero(docs: seq<Doc>, field: string, value: Value)
    requires forall j :: 0 <= j < |docs| ==> !Matches(docs[j], field, value)
    ensures CountMatching(docs, field, value) == 0
  {
    if |docs| > 0 {
      CountMatchingZero(docs[1..], field, value);
    }
  }

  /** Two `add_item` calls with the same key leave two documents under it: nothing deduplicates. */
  lemma AddItemTwiceDuplicates(docs: seq<Doc>, item: Doc, field: string, value: Value, embed: string -> seq<real>)
    requires Matches(item, field, value) && field != "vector"
    requires StoredItem(item, [], embed).Ok?
    ensures var d := StoredItem(item, [], embed).value;
            CountMatching(docs + [d] + [d], field, value) == CountMatching(docs, field, value) + 2
  {
    var d := StoredItem(item, [], embed).value;
    CountMatchingAppend(docs, d, field, value);
    CountMatchingAppend(docs + [d], d, field, value);
  }
  /** The collection after `$set` of `key` on the first match, and whether Mongo counts a modification. */
  function SetFirst(docs: seq<Doc>, field: string, value: Value, key: string, newValue: Value): (seq<Doc>, bool)
  {
    var k := FirstMatch(docs, field, value);
    if k < 0 then (docs, false)
    else (docs[k := Put(docs[k], key, newValue)], Get(docs[k], key) != Some(newValue))
  }

  /** The first match is found by the filter alone: rewriting one document without changing whether it matches keeps it. */
  lemma FirstMatchUpdate(docs: seq<Doc>, field: string, value: Value, j: nat, d: Doc)
    requires j < |docs|
    requires Matches(d, field, value) == Matches(docs[j], field, value)
    ensures FirstMatch(docs[j := d], field, value) == FirstMatch(docs, field, value)
  {
    var k := FirstMatch(docs, field, value);
    var k' := FirstMatch(docs[j := d], field, value);
    if k' >= 0 {
      var m := Matches(docs[k'], field, value);
    }
    if k >= 0 {
      var m := Matches(docs[j := d][k], field, value);
    }
  }

  /**
   * Setting a field other than the filter's twice is the same as once, and the repeated
   * update reports no modification.
   */
  lemma SetFirstIdempotent(docs: seq<Doc>, field: string, value: Value, key: string, newValue: Value)
    requires key != field
    ensures var once := SetFirst(docs, field, value, key, newValue);
            SetFirst(once.0, field, value, key, newValue) == (once.0, false)
  {
    var k := FirstMatch(docs, field, value);
    if k >= 0 {
      var d := Put(docs[k], key, newValue);
      FirstMatchUpdate(docs, field, value, k, d);
      PutIdempotent(docs[k], key, newValue);
      assert docs[k := d][k := Put(d, key, newValue)] == docs[k := d];
    }
  }

  /** The array `$push` appends to: the stored one, or a fresh one when the key is absent. */
  function PushTarget(d: Doc, key: string): Option<seq<Value>>
  {
    match Get(d, key)
    case None => Some([])
    case Some(Arr(xs)) => Some(xs)
    case Some(_) => None
  }

  /** The collection after `$push` of `elem` onto `key` of the first match, and `modified_count > 0`. */
  function PushFirst(docs: seq<Doc>, field: string, value: Value, key: string, elem: Value): (seq<Doc>, Result<bool>)
  {
    var k := FirstMatch(docs, field, value);
    if k < 0 then (docs, Ok(false))
    else match Get(docs[k], key)
      case None => (docs[k := Put(docs[k], key, Arr([elem]))], Ok(true))
      case Some(Arr(xs)) => (docs[k := Put(docs[k], key, Arr(xs + [elem]))], Ok(true))
      case Some(_) => (docs, Err("The field '" + key + "' must be an array"))
  }

  /**
   * A push reports a modification exactly when some document matches and its field is an
   * array or absent; then that array grows by `elem` at its end and every other field and
   * every other document is left alone. Otherwise nothing changes.
   */
  lemma PushFirstSpec(docs: seq<Doc>, field: string, value: Value, key: string, elem: Value)
    ensures var (after, r) := PushFirst(docs, field, value, key, elem);
            var k := FirstMatch(docs, field, value);
            (r == Ok(true) <==> k >= 0 && PushTarget(docs[k], key).Some?) &&
            (r != Ok(true) ==> after == docs) &&
            (r == Ok(true) ==>
              |after| == |docs| &&
              Get(after[k], key) == Some(Arr(PushTarget(docs[k], key).value + [elem])) &&
              (forall k' :: k' != key ==> Get(after[k], k') == Get(docs[k], k')) &&
              (forall j :: 0 <= j < |docs| && j != k ==> after[j] == docs[j]))
  {
    var k := FirstMatch(docs, field, value);
    if k >= 0 {
      match Get(docs[k], key)
      case None =>
        assert [] + [elem] == [elem];
      case Some(Arr(xs)) =>
      case Some(_) =>
    }
  }

  /** A document eligible for the search with a similarity above the threshold. */
  predicate Hit(d: Doc, field: string, threshold: real, score: Doc -> real)
  {
    Has(d, field) && score(d) > threshold
  }

  /**
   * `d` is a hit of `docs` that no other eligible document of `docs` beats, and in store
   * order it comes no later than any eligible document of the same score.
   */
  predicate IsTopHit(docs: seq<Doc>, field: string, threshold: real, score: Doc -> real, d: Doc)
  {
    && d in docs && Hit(d, field, threshold, score)
    && (forall e :: e in docs && Has(e, field) ==> score(e) <= score(d))
    && (forall j :: 0 <= j < |docs| && Has(docs[j], field) && score(docs[j]) == score(d) ==> FirstIndex(docs, d) <= j)
  }

  /** The position of the first occurrence of `d`. */
  function FirstIndex(docs: seq<Doc>, d: Doc): (i: nat)
    requires d in docs
    ensures i < |docs| && docs[i] == d && d !in docs[..i]
  {
    if docs[0] == d then 0
    else
      var i := FirstIndex(docs[1..], d);
      assert docs[..i + 1] == [docs[0]] + docs[1..][..i];
      i + 1
  }

  /** A collection has at most one top hit: the search head is determined. */
  lemma TopHitUnique(docs: seq<Doc>, field: string, threshold: real, score: Doc -> real, d1: Doc, d2: Doc)
    requires IsTopHit(docs, field, threshold, score, d1)
    requires IsTopHit(docs, field, threshold, score, d2)
    ensures d1 == d2
  {
    assert score(d1) == score(d2);
    assert docs[FirstIndex(docs, d1)] == d1 && docs[FirstIndex(docs, d2)] == d2;
  }

  /** Found among the first `i + 1` documents, `d` first occurs at or before `i`. */
  lemma EarlierPrefix(docs: seq<Doc>, d: Doc, i: nat, first: nat)
    requires i < |docs| && first < |docs|
    requires d in docs[..i + 1] && d !in docs[..first]
    ensures first <= i
  {
  }

  /**
   * Among the eligible documents of score `v`, the first one lies no later than any
   * eligible document of `docs` with that score.
   */
  lemma {:induction false} FirstOfScore(docs: seq<Doc>, field: string, score: Doc -> real, v: real, j: nat)
    requires j < |docs| && Has(docs[j], field) && score(docs[j]) == v
    ensures |WithScore(Eligible(docs, field), score, v)| > 0
    ensures WithScore(Eligible(docs, field), score, v)[0] in docs[..j + 1]
  {
    var h := docs[0];
    var rest := Eligible(docs[1..], field);
    assert Eligible(docs, field) == (if Has(h, field) then [h] else []) + rest;
    if Has(h, field) && score(h) == v {
      assert WithScore([h] + rest, score, v) == [h] + WithScore(rest, score, v);
      assert docs[..j + 1][0] == h;
    } else {
      FirstOfScore(docs[1..], field, score, v, j - 1);
      if Has(h, field) {
        assert WithScore([h] + rest, score, v) == WithScore(rest, score, v);
      } else {
        assert [] + rest == rest;
      }
      assert docs[1..][..j] == docs[1..j + 1];
    }
  }

  /** No document of `docs` is a hit. */
  predicate NoHit(docs: seq<Doc>, field: string, threshold: real, score: Doc -> real)
  {
    forall e :: e in docs ==> !Hit(e, field, threshold, score)
  }

  lemma {:induction false} WithScoreHas(xs: seq<Doc>, score: Doc -> real, d: Doc)
    requires d in xs
    ensures d in WithScore(xs, score, score(d))
  {
    if xs[0] != d {
      WithScoreHas(xs[1..], score, d);
    }
  }

  lemma {:induction false} WithScoreIn(xs: seq<Doc>, score: Doc -> real, v: real, d: Doc)
    requires d in WithScore(xs, score, v)
    ensures d in xs
  {
    if |xs| > 0 && d != xs[0] {
      WithScoreIn(xs[1..], score, v, d);
    }
  }

  lemma {:induction false} EligibleHas(docs: seq<Doc>, field: string, d: Doc)
    requires d in docs && Has(d, field)
    ensures d in Eligible(docs, field)
  {
    if docs[0] != d {
      EligibleHas(docs[1..], field, d);
    }
  }

  /**
   * What `search(...)[:1]` yields, from `search`'s guarantees: its head is the top hit of
   * the collection (the earliest stored one among equal scores, as the sort is stable), and
   * it is empty exactly when the collection has no hit.
   */
  lemma SearchHead(docs: seq<Doc>, field: string, threshold: real, score: Doc -> real, r: seq<Doc>)
    requires SortedDesc(r, score)
    requires forall v :: WithScore(r, score, v)
                      == if v > threshold then WithScore(Eligible(docs, field), score, v) else []
    requires forall d :: d in r ==> d in docs && Has(d, field) && score(d) > threshold
    ensures |r| > 0 ==> IsTopHit(docs, field, threshold, score, r[0])
    ensures |r| == 0 <==> NoHit(docs, field, threshold, score)
  {
    forall e | e in docs && Hit(e, field, threshold, score)
      ensures e in r
    {
      EligibleHas(docs, field, e);
      WithScoreHas(Eligible(docs, field), score, e);
      WithScoreIn(r, score, score(e), e);
    }
    if |r| > 0 {
      forall e | e in docs && Has(e, field)
        ensures score(e) <= score(r[0])
      {
        if score(e) > threshold {
          assert e in r;
          var j :| 0 <= j < |r| && r[j] == e;
          assert j == 0 || score(r[0]) >= score(r[j]);
        }
      }
      var v := score(r[0]);
      assert WithScore(r, score, v) == [r[0]] + WithScore(r[1..], score, v);
      forall j | 0 <= j < |docs| && Has(docs[j], field) && score(docs[j]) == v
        ensures FirstIndex(docs, r[0]) <= j
      {
        FirstOfScore(docs, field, score, v, j);
        EarlierPrefix(docs, r[0], j, FirstIndex(docs, r[0]));
      }
    }
  }
}
