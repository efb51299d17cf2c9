/**
 * The agricultural side of the document store: product and service suggestions turned
 * into message text, the suggestion and farm-alert collections with their guarded
 * updates, and the pipeline that turns one day's severe alerts into validated
 * suggestions. The language-model calls (requirement generation and validation) and
 * the embedding similarity are parameters.
 */
module Agri {
  import opened Wrappers
  import opened Json
  import Text
  import opened DocStore

  // ------------------------------------------------------------ format_suggestions

  /** The two kinds of suggestion the formatter lists. */
  datatype Kind = Product | Service

  /** The key of a suggestion dict under which the kind's list is found. */
  function SectionKey(kind: Kind): string
  {
    if kind == Product then "products" else "services"
  }

  /** f"{d.get(k, '')}". */
  function Field(d: Doc, k: string, render: Value -> string): string
  {
    Display(GetOr(d, k, Str("")), render)
  }

  /** An item the formatter can read: a dict whose `product_service` is a dict. */
  predicate Readable(item: Value)
  {
    item.Obj? && Get(item.fields, "product_service").Some? && Get(item.fields, "product_service").value.Obj?
  }

  predicate AllReadable(items: seq<Value>)
  {
    forall i :: 0 <= i < |items| ==> Readable(items[i])
  }

  /** How many lines one item contributes. */
  function Width(kind: Kind): nat
  {
    if kind == Product then 8 else 5
  }

  /** The line prefixes of one item; the last line carries the reason. */
  const ProductLabels: seq<string> :=
    ["- Product Name: ", "  Category: ", "  Description: ", "  Usage: ", "  Price: ", "  Image: ",
     "  Contact: ", "  Why this product is suggested: "]
  const ProductFields: seq<string> := ["name", "category", "description", "usage", "price", "image_url", "provider"]
  const ServiceLabels: seq<string> :=
    ["- Service Name: ", "  Description: ", "  Price: ", "  Provider: ", "  Why this service is suggested: "]
  const ServiceFields: seq<string> := ["name", "description", "price", "provider"]

  function Labels(kind: Kind): (r: seq<string>)
    ensures |r| == Width(kind)
  {
    if kind == Product then ProductLabels else ServiceLabels
  }

  /** The `product_service` fields shown, one per line before the reason. */
  function FieldsShown(kind: Kind): (r: seq<string>)
    ensures |r| == Width(kind) - 1
  {
    if kind == Product then ProductFields else ServiceFields
  }

  /** Each label followed by the field it names, the last one by the reason. */
  function Block(labels: seq<string>, fields: seq<string>, ps: Doc, reason: string, render: Value -> string): (r: seq<string>)
    requires |labels| == |fields| + 1
    ensures |r| == |labels|
    decreases |fields|
  {
    if |fields| == 0 then [labels[0] + reason]
    else [labels[0] + Field(ps, fields[0], render)] + Block(labels[1..], fields[1..], ps, reason, render)
  }

  /**
   * The lines of one item, read as a readable item is read; an item that is not readable
   * never gets this far, since its section raises first.
   */
  function ItemLines(kind: Kind, item: Value, render: Value -> string): (r: seq<string>)
    ensures |r| == Width(kind)
  {
    var d := if item.Obj? then item.fields else [];
    var ps := GetOr(d, "product_service", Obj([]));
    Block(Labels(kind), FieldsShown(kind), if ps.Obj? then ps.fields else [], Field(d, "reason", render), render)
  }

  /** The blocks of lines laid one after another. */
  function Concat(bs: seq<seq<string>>): seq<string>
    decreases |bs|
  {
    if |bs| == 0 then [] else Concat(bs[..|bs| - 1]) + bs[|bs| - 1]
  }

  /** Where block `j` starts when every block is `w` lines long: after `j` blocks. */
  function Offset(w: nat, j: nat): nat
  {
    if j == 0 then 0 else Offset(w, j - 1) + w
  }

  lemma MulStep(w: nat, n: nat)
    ensures w * (n + 1) == w * n + w
  {
  }

  /** The offset is `w * j`. */
  lemma {:induction false} OffsetIsProduct(w: nat, j: nat)
    ensures Offset(w, j) == w * j
  {
    if j > 0 {
      OffsetIsProduct(w, j - 1);
      MulStep(w, j - 1);
    }
  }

  /** Line `t` of block `j` stands at `Offset(w, j) + t` when every block has `w` lines. */
  lemma {:induction false} ConcatBlock(bs: seq<seq<string>>, w: nat, j: nat, t: nat)
    requires forall i :: 0 <= i < |bs| ==> |bs[i]| == w
    ensures |Concat(bs)| == Offset(w, |bs|)
    ensures j < |bs| && t < w ==> Offset(w, j) + t < |Concat(bs)| && Concat(bs)[Offset(w, j) + t] == bs[j][t]
    decreases |bs|
  {
    if |bs| > 0 {
      var n := |bs| - 1;
      var front := bs[..n];
      ConcatBlock(front, w, j, t);
      assert Concat(bs) == Concat(front) + bs[n];
      if j < n && t < w {
        assert front[j] == bs[j];
        assert (Concat(front) + bs[n])[Offset(w, j) + t] == Concat(front)[Offset(w, j) + t];
      } else if j == n && t < w {
        assert (Concat(front) + bs[n])[|Concat(front)| + t] == bs[n][t];
      }
    }
  }

  /** Appending a block appends its lines. */
  lemma ConcatSnoc(bs: seq<seq<string>>, b: seq<string>)
    ensures Concat(bs + [b]) == Concat(bs) + b
  {
    assert (bs + [b])[..|bs|] == bs;
  }

  /** The line blocks `f` gives a list's items, one per item and in order. */
  function MapLines(f: Value -> seq<string>, items: seq<Value>): (r: seq<seq<string>>)
    ensures |r| == |items|
    decreases |items|
  {
    if |items| == 0 then [] else MapLines(f, items[..|items| - 1]) + [f(items[|items| - 1])]
  }

  lemma {:induction false} MapLinesAt(f: Value -> seq<string>, items: seq<Value>, j: nat)
    requires j < |items|
    ensures MapLines(f, items)[j] == f(items[j])
    decreases |items|
  {
    var n := |items| - 1;
    if j < n {
      MapLinesAt(f, items[..n], j);
    }
  }

  lemma MapLinesSnoc(f: Value -> seq<string>, items: seq<Value>, x: Value)
    ensures MapLines(f, items + [x]) == MapLines(f, items) + [f(x)]
  {
    assert (items + [x])[..|items|] == items;
  }

  function ItemLinesOf(kind: Kind, render: Value -> string): Value -> seq<string>
  {
    x => ItemLines(kind, x, render)
  }

  /** The item lines of a whole list. */
  function ItemsLines(kind: Kind, items: seq<Value>, render: Value -> string): seq<string>
  {
    Concat(MapLines(ItemLinesOf(kind, render), items))
  }

  /** Line `t` of item `j` stands at `Offset(Width(kind), j) + t`: the items' blocks follow one another in order. */
  lemma ItemsLinesBlock(kind: Kind, items: seq<Value>, render: Value -> string, j: nat, t: nat)
    ensures |ItemsLines(kind, items, render)| == Offset(Width(kind), |items|)
    ensures j < |items| && t < Width(kind) ==>
              Offset(Width(kind), j) + t < |ItemsLines(kind, items, render)| &&
              ItemsLines(kind, items, render)[Offset(Width(kind), j) + t] == ItemLines(kind, items[j], render)[t]
  {
    var f := ItemLinesOf(kind, render);
    ItemBlocksWidth(kind, items, render);
    ConcatBlock(MapLines(f, items), Width(kind), j, t);
    if j < |items| && t < Width(kind) {
      MapLinesAt(f, items, j);
    }
  }

  /** Every item contributes `Width(kind)` lines. */
  lemma ItemBlocksWidth(kind: Kind, items: seq<Value>, render: Value -> string)
    ensures forall i :: 0 <= i < |items| ==> |MapLines(ItemLinesOf(kind, render), items)[i]| == Width(kind)
  {
    forall i | 0 <= i < |items|
      ensures |MapLines(ItemLinesOf(kind, render), items)[i]| == Width(kind)
    {
      MapLinesAt(ItemLinesOf(kind, render), items, i);
    }
  }

  /** Appending an item appends its lines. */
  lemma ItemsLinesSnoc(kind: Kind, items: seq<Value>, x: Value, render: Value -> string)
    ensures ItemsLines(kind, items + [x], render) == ItemsLines(kind, items, render) + ItemLines(kind, x, render)
  {
    var f := ItemLinesOf(kind, render);
    MapLinesSnoc(f, items, x);
    ConcatSnoc(MapLines(f, items), f(x));
  }

  lemma AllReadableSnoc(items: seq<Value>, x: Value)
    requires AllReadable(items) && Readable(x)
    ensures AllReadable(items + [x])
  {
    forall i | 0 <= i < |items| + 1
      ensures Readable((items + [x])[i])
    {
      if i < |items| {
        assert (items + [x])[i] == items[i];
      }
    }
  }

  lemma TakeSnoc<T>(s: seq<T>, i: nat)
    requires i < |s|
    ensures s[..i + 1] == s[..i] + [s[i]]
  {
  }

  lemma AppendAssoc<T>(a: seq<T>, b: seq<T>, c: seq<T>)
    ensures (a + b) + c == a + (b + c)
  {
  }

  function Heading(kind: Kind, date: string): string
  {
    (if kind == Product then "Product" else "Service") + " suggestions for " + date + ":"
  }

  /** The products text ends with an empty line; the services text does not. */
  function Trailer(kind: Kind): seq<string>
  {
    if kind == Product then [""] else []
  }

  /** `'key' in suggestions and suggestions['key']`. */
  predicate Listed(s: Doc, key: string)
  {
    Get(s, key).Some? && Truthy(Get(s, key).value)
  }

  /**
   * The lines of one section, or None when its list is absent or empty. A truthy value
   * that is not a list cannot be read as suggestions and raises.
   */
  function SectionLines(s: Doc, kind: Kind, render: Value -> string): Result<Option<seq<string>>>
  {
    var date := Display(GetOr(s, "date", Str("N/A")), render);
    match Get(s, SectionKey(kind))
    case None => Ok(None)
    case Some(v) =>
      if !Truthy(v) then Ok(None)
      else if !v.Arr? then Err(NotAList)
      else if !AllReadable(v.items) then Err(Unreadable)
      else Ok(Some([Heading(kind, date)] + ItemsLines(kind, v.items, render) + Trailer(kind)))
  }

  /** Iterating a non-list, or reading an item that is not a dict holding a dict `product_service`, raises. */
  const NotAList := "TypeError: suggestions are not a list of dicts"
  const Unreadable := "suggestion item is not a dict with a dict 'product_service'"

  /**
   * A listed section is its heading, `Width(kind)` lines per item and, for products, a
   * final empty line; the services lines come from a fresh list, so they never hold the
   * products heading.
   */
  lemma SectionShape(s: Doc, kind: Kind, render: Value -> string)
    ensures var r := SectionLines(s, kind, render);
            (r == Ok(None) <==> !Listed(s, SectionKey(kind))) &&
            (r.Ok? && r.value.Some? ==>
              var ls := r.value.value;
              var items := Get(s, SectionKey(kind)).value.items;
              ls[0] == Heading(kind, Display(GetOr(s, "date", Str("N/A")), render)) &&
              |ls| == 1 + Width(kind) * |items| + |Trailer(kind)| &&
              (kind == Product ==> ls[|ls| - 1] == ""))
  {
    SectionAbsent(s, kind, render);
    var r := SectionLines(s, kind, render);
    if r.Ok? && r.value.Some? {
      SectionPresent(s, kind, render);
    }
  }

  /** A section is left out exactly when its list is absent or falsy. */
  lemma SectionAbsent(s: Doc, kind: Kind, render: Value -> string)
    ensures SectionLines(s, kind, render) == Ok(None) <==> !Listed(s, SectionKey(kind))
  {
  }

  /** A formatted section: its heading, one block per item and the trailer. */
  lemma SectionPresent(s: Doc, kind: Kind, render: Value -> string)
    requires SectionLines(s, kind, render).Ok? && SectionLines(s, kind, render).value.Some?
    ensures var ls := SectionLines(s, kind, render).value.value;
            var items := Get(s, SectionKey(kind)).value.items;
            ls[0] == Heading(kind, Display(GetOr(s, "date", Str("N/A")), render)) &&
            |ls| == 1 + Width(kind) * |items| + |Trailer(kind)| &&
            (kind == Product ==> ls[|ls| - 1] == "")
  {
    var v := Get(s, SectionKey(kind)).value;
    var date := Display(GetOr(s, "date", Str("N/A")), render);
    var body := ItemsLines(kind, v.items, render);
    ItemsLinesBlock(kind, v.items, render, 0, 0);
    OffsetIsProduct(Width(kind), |v.items|);
    SectionFrame(Heading(kind, date), body, kind);
    assert SectionLines(s, kind, render) == Ok(Some([Heading(kind, date)] + body + Trailer(kind)));
  }

  /** A heading, a body and the kind's trailer: the heading leads, and a products section ends empty. */
  lemma SectionFrame(heading: string, body: seq<string>, kind: Kind)
    ensures var ls := [heading] + body + Trailer(kind);
            ls[0] == heading && |ls| == 1 + |body| + |Trailer(kind)| && (kind == Product ==> ls[|ls| - 1] == "")
  {
  }

  /** A section's lines joined into its text. */
  function SectionText(lines: Option<seq<string>>): Option<string>
  {
    if lines.Some? then Some(Text.Join("\n", lines.value)) else None
  }

  /** The formatted dict: the date first, then each section's text that is present. */
  function Assembled(date: Value, products: Option<string>, services: Option<string>): Doc
  {
    var withDate := [("date", date)];
    var withProducts := if products.Some? then Put(withDate, "products", Str(products.value)) else withDate;
    if services.Some? then Put(withProducts, "services", Str(services.value)) else withProducts
  }

  lemma AssembledSpec(date: Value, products: Option<string>, services: Option<string>)
    ensures var d := Assembled(date, products, services);
            Get(d, "date") == Some(date) &&
            Get(d, "products") == (if products.Some? then Some(Str(products.value)) else None) &&
            Get(d, "services") == (if services.Some? then Some(Str(services.value)) else None) &&
            (Has(d, "products") <==> products.Some?) && (Has(d, "services") <==> services.Some?)
  {
    var d := Assembled(date, products, services);
    GetAt([("date", date)], 0, "date");
    GetHas(d, "products");
    GetHas(d, "services");
  }

  /** `format_suggestions`: the date (default 'N/A') and the text of each listed section. */
  function FormattedSuggestions(s: Doc, render: Value -> string): Result<Doc>
  {
    match SectionLines(s, Product, render)
    case Err(e) => Err(e)
    case Ok(p) =>
      match SectionLines(s, Service, render)
      case Err(e) => Err(e)
      case Ok(v) => Ok(Assembled(GetOr(s, "date", Str("N/A")), SectionText(p), SectionText(v)))
  }

  /** A section that reads without error has lines exactly when its list is present and non-empty. */
  lemma SectionListed(s: Doc, kind: Kind, render: Value -> string)
    ensures SectionLines(s, kind, render).Ok? ==>
              (SectionLines(s, kind, render).value.Some? <==> Listed(s, SectionKey(kind)))
  {
  }

  /**
   * The formatted dict always carries the date, and holds "products" (resp. "services")
   * exactly when that list is present and non-empty, as the joined lines of its section.
   */
  lemma FormattedSuggestionsSpec(s: Doc, render: Value -> string)
    ensures var r := FormattedSuggestions(s, render);
            var p := SectionLines(s, Product, render);
            var v := SectionLines(s, Service, render);
            (r.Ok? <==> p.Ok? && v.Ok?) &&
            (r.Ok? ==>
              Get(r.value, "date") == Some(GetOr(s, "date", Str("N/A"))) &&
              (p.value.Some? <==> Listed(s, "products")) &&
              (v.value.Some? <==> Listed(s, "services")) &&
              (Has(r.value, "products") <==> Listed(s, "products")) &&
              (Has(r.value, "services") <==> Listed(s, "services")) &&
              (p.value.Some? ==> Get(r.value, "products") == Some(Str(Text.Join("\n", p.value.value)))) &&
              (v.value.Some? ==> Get(r.value, "services") == Some(Str(Text.Join("\n", v.value.value)))))
  {
    var p := SectionLines(s, Product, render);
    var v := SectionLines(s, Service, render);
    if p.Ok? && v.Ok? {
      SectionListed(s, Product, render);
      SectionListed(s, Service, render);
      AssembledSpec(GetOr(s, "date", Str("N/A")), SectionText(p.value), SectionText(v.value));
    }
  }

  /** The item lines of a section, appended item after item; None when an item cannot be read. */
  method SectionItemLines(kind: Kind, items: seq<Value>, render: Value -> string) returns (r: Option<seq<string>>)
    ensures r == if AllReadable(items) then Some(ItemsLines(kind, items, render)) else None
  {
    var lines := [];
    var i := 0;
    while i < |items|
      invariant 0 <= i <= |items|
      invariant AllReadable(items[..i])
      invariant lines == ItemsLines(kind, items[..i], render)
    {
      if !Readable(items[i]) {
        return None;
      }
      TakeSnoc(items, i);
      AllReadableSnoc(items[..i], items[i]);
      ItemsLinesSnoc(kind, items[..i], items[i], render);
      lines := lines + ItemLines(kind, items[i], render);
      i := i + 1;
    }
    assert items[..i] == items;
    return Some(lines);
  }

  /** The lines of one section: heading, the lines of every item, trailer. */
  method FormatSection(s: Doc, kind: Kind, render: Value -> string) returns (r: Result<Option<seq<string>>>)
    ensures r == SectionLines(s, kind, render)
  {
    var date := Display(GetOr(s, "date", Str("N/A")), render);
    var v := Get(s, SectionKey(kind));
    if v.None? || !Truthy(v.value) {
      return Ok(None);
    }
    if !v.value.Arr? {
      return Err(NotAList);
    }
    var body := SectionItemLines(kind, v.value.items, render);
    if body.None? {
      return Err(Unreadable);
    }
    return Ok(Some([Heading(kind, date)] + body.value + Trailer(kind)));
  }

  /** `format_suggestions`, section by section. */
  method FormatSuggestions(s: Doc, render: Value -> string) returns (r: Result<Doc>)
    ensures r == FormattedSuggestions(s, render)
  {
    var formatted := [("date", GetOr(s, "date", Str("N/A")))];
    var p := FormatSection(s, Product, render);
    if p.Err? {
      return Err(p.msg);
    }
    if p.value.Some? {
      formatted := Put(formatted, "products", Str(Text.Join("\n", p.value.value)));
    }
    var v := FormatSection(s, Service, render);
    if v.Err? {
      return Err(v.msg);
    }
    if v.value.Some? {
      formatted := Put(formatted, "services", Str(Text.Join("\n", v.value.value)));
    }
    return Ok(formatted);
  }

  // ------------------------------------------------------ product_service_suggestions

  function SuggestionId(hub: Value, timestamp: Value, render: Value -> string): string
  {
    "suggestion_" + Display(hub, render) + "_" + Display(timestamp, render)
  }

  /** The record `add_suggestions` stores for the request `s` and its formatted suggestions `f`. */
  function SuggestionPayload(s: Doc, f: Doc, render: Value -> string): Doc
  {
    var hub := GetOr(s, "sensor_hub_id", Str(""));
    var timestamp := GetOr(s, "timestamp", Str(""));
    [("suggestion_id", Str(SuggestionId(hub, timestamp, render))),
     ("sensor_hub_id", hub),
     ("suggestions", Obj(f)),
     ("timestamp", timestamp),
     ("delivery_status", Str("pending"))]
  }

  /**
   * What `add_suggestions` stores: None when the formatted suggestions hold neither
   * section; a missing or non-dict "suggestions" raises.
   */
  function SuggestionRecord(s: Doc, render: Value -> string): Result<Option<Doc>>
  {
    match Get(s, "suggestions")
    case None => Err("KeyError: 'suggestions'")
    case Some(Obj(inner)) =>
      (match FormattedSuggestions(inner, render)
       case Err(e) => Err(e)
       case Ok(f) =>
         if Has(f, "products") || Has(f, "services") then Ok(Some(SuggestionPayload(s, f, render))) else Ok(None))
    case Some(_) => Err("AttributeError: 'suggestions' has no attribute 'get'")
  }

  /**
   * A suggestion record is written exactly when one of the two lists is present and
   * non-empty; it then carries the id "suggestion_<hub>_<timestamp>", the formatted
   * suggestions and the delivery status "pending".
   */
  lemma SuggestionRecordSpec(s: Doc, render: Value -> string)
    requires Get(s, "suggestions").Some? && Get(s, "suggestions").value.Obj?
    ensures var inner := Get(s, "suggestions").value.fields;
            var f := FormattedSuggestions(inner, render);
            var r := SuggestionRecord(s, render);
            (r.Ok? <==> f.Ok?) &&
            (r.Ok? ==> (r.value.Some? <==> Listed(inner, "products") || Listed(inner, "services"))) &&
            (r.Ok? && r.value.Some? ==>
              var p := r.value.value;
              Get(p, "suggestion_id") == Some(Str(SuggestionId(GetOr(s, "sensor_hub_id", Str("")), GetOr(s, "timestamp", Str("")), render))) &&
              Get(p, "suggestions") == Some(Obj(f.value)) &&
              Get(p, "delivery_status") == Some(Str("pending")))
  {
    var inner := Get(s, "suggestions").value.fields;
    FormattedSuggestionsSpec(inner, render);
    var f := FormattedSuggestions(inner, render);
    SuggestionRecordOf(s, inner, f, render);
    if f.Ok? {
      PayloadSpec(s, f.value, render);
    }
  }

  lemma SuggestionRecordOf(s: Doc, inner: Doc, f: Result<Doc>, render: Value -> string)
    requires Get(s, "suggestions") == Some(Obj(inner)) && f == FormattedSuggestions(inner, render)
    ensures SuggestionRecord(s, render)
         == if f.Err? then Err(f.msg)
            else if Has(f.value, "products") || Has(f.value, "services") then Ok(Some(SuggestionPayload(s, f.value, render)))
            else Ok(None)
  {
  }

  lemma PayloadSpec(s: Doc, f: Doc, render: Value -> string)
    ensures var p := SuggestionPayload(s, f, render);
            Get(p, "suggestion_id") == Some(Str(SuggestionId(GetOr(s, "sensor_hub_id", Str("")), GetOr(s, "timestamp", Str("")), render))) &&
            Get(p, "suggestions") == Some(Obj(f)) &&
            Get(p, "delivery_status") == Some(Str("pending"))
  {
    var p := SuggestionPayload(s, f, render);
    GetAt(p, 0, "suggestion_id");
    GetAt(p, 2, "suggestions");
    GetAt(p, 4, "delivery_status");
  }

  /** `ProductServiceSuggestionHandler`: the suggestion collection. */
  class SuggestionHandler {
    /** The `product_service_suggestions` collection. */
    const store: DocumentStore

    constructor (store: DocumentStore)
      ensures this.store == store
    {
      this.store := store;
    }

    /** `add_suggestions`: formats, then inserts the record when there is anything to store. */
    method AddSuggestions(s: Doc, render: Value -> string) returns (r: Result<Option<Doc>>)
      modifies store
      ensures r == SuggestionRecord(s, render)
      ensures r.Ok? && r.value.Some? ==> store.docs == old(store.docs) + [r.value.value]
      ensures !(r.Ok? && r.value.Some?) ==> store.docs == old(store.docs)
    {
      var inner := Get(s, "suggestions");
      if inner.None? {
        return Err("KeyError: 'suggestions'");
      }
      if !inner.value.Obj? {
        return Err("AttributeError: 'suggestions' has no attribute 'get'");
      }
      var f := FormatSuggestions(inner.value.fields, render);
      if f.Err? {
        return Err(f.msg);
      }
      if Has(f.value, "products") || Has(f.value, "services") {
        var noEmbedding: string -> seq<real> := _ => [];
        var added := store.AddItem(SuggestionPayload(s, f.value, render), "suggestion_id", [], noEmbedding);
        return Ok(Some(added.value));
      }
      return Ok(None);
    }

    /** `update_delivery_status`: an empty id or status is refused without touching the store. */
    method UpdateDeliveryStatus(id: string, status: string) returns (modified: bool)
      modifies store
      ensures id == "" || status == "" ==> !modified && store.docs == old(store.docs)
      ensures id != "" && status != "" ==>
                (store.docs, modified) == SetFirst(old(store.docs), "suggestion_id", Str(id), "delivery_status", Str(status))
    {
      if id == "" || status == "" {
        return false;
      }
      modified := store.SetOnFirst("suggestion_id", Str(id), "delivery_status", Str(status));
    }
  }

  // ------------------------------------------------------------------ farm alerts

  /** `{**alert, "delivery_status": "pending", "comments": [], "resolved": False}`. */
  function WithAlertDefaults(alert: Doc): (r: Doc)
    ensures Get(r, "delivery_status") == Some(Str("pending"))
    ensures Get(r, "comments") == Some(Arr([]))
    ensures Get(r, "resolved") == Some(Bool(false))
    ensures forall k :: k != "delivery_status" && k != "comments" && k != "resolved" ==> Get(r, k) == Get(alert, k)
  {
    assert "comments"[0] != "resolved"[0] && |"delivery_status"| != |"comments"| && |"delivery_status"| != |"resolved"|;
    PutThree(alert, "delivery_status", Str("pending"), "comments", Arr([]), "resolved", Bool(false));
    Put(Put(Put(alert, "delivery_status", Str("pending")), "comments", Arr([])), "resolved", Bool(false))
  }

  /** The filter of `generate_requirement`: the hub's alerts stamped on `date` with severity high or critical. */
  predicate Severe(d: Doc, date: string, hub: string)
  {
    (match Get(d, "timestamp") case Some(Str(t)) => Text.StartsWith(t, date) case _ => false) &&
    (Get(d, "action_severity") == Some(Str("high")) || Get(d, "action_severity") == Some(Str("critical"))) &&
    Get(d, "sensor_hub_id") == Some(Str(hub))
  }

  /** The alerts the filter selects, in store order. */
  function SevereAlerts(docs: seq<Doc>, date: string, hub: string): (r: seq<Doc>)
    ensures |r| <= |docs|
    ensures forall d :: d in r <==> d in docs && Severe(d, date, hub)
  {
    if |docs| == 0 then []
    else (if Severe(docs[0], date, hub) then [docs[0]] else []) + SevereAlerts(docs[1..], date, hub)
  }

  const PromptHeader := "The following are the alerts received:\n"
  const PromptFooter := "\nBased on these alerts, please generate the agricultural product and service requirements needed to address the issues raised in the alerts."

  function AlertLine(alert: Doc, render: Value -> string): string
  {
    "- " + Display(GetOr(alert, "action_body", Str("N/A")), render) + "\n"
  }

  /** One line per alert, in order. */
  function AlertLines(alerts: seq<Doc>, render: Value -> string): string
    decreases |alerts|
  {
    if |alerts| == 0 then "" else AlertLines(alerts[..|alerts| - 1], render) + AlertLine(alerts[|alerts| - 1], render)
  }

  lemma AlertLinesSnoc(alerts: seq<Doc>, x: Doc, render: Value -> string)
    ensures AlertLines(alerts + [x], render) == AlertLines(alerts, render) + AlertLine(x, render)
  {
    assert (alerts + [x])[..|alerts|] == alerts;
  }

  /** The lines of consecutive alert lists follow one another. */
  lemma {:induction false} AlertLinesAppend(xs: seq<Doc>, ys: seq<Doc>, render: Value -> string)
    ensures AlertLines(xs + ys, render) == AlertLines(xs, render) + AlertLines(ys, render)
    decreases |ys|
  {
    if |ys| == 0 {
      assert xs + ys == xs;
    } else {
      var n := |ys| - 1;
      var init, last := ys[..n], ys[n];
      assert ys == init + [last];
      assert xs + ys == (xs + init) + [last];
      AlertLinesAppend(xs, init, render);
      AlertLinesSnoc(xs + init, last, render);
      AlertLinesSnoc(init, last, render);
      var a, b, c := AlertLines(xs, render), AlertLines(init, render), AlertLine(last, render);
      AppendAssoc(a, b, c);
      calc {
        AlertLines(xs + ys, render);
        AlertLines((xs + init) + [last], render);
        (a + b) + c;
        a + (b + c);
        a + AlertLines(init + [last], render);
        a + AlertLines(ys, render);
      }
    }
  }

  /** `_generate_input_prompt`. */
  function RequirementPrompt(alerts: seq<Doc>, render: Value -> string): string
  {
    PromptHeader + AlertLines(alerts, render) + PromptFooter
  }

  /** What the requirement engine answers. */
  datatype Requirements = Requirements(products: seq<string>, services: seq<string>)

  /** `generate_requirement`: no severe alert means no requirement, and no model call. */
  function RequirementsFor(docs: seq<Doc>, date: string, hub: string, llm: string -> Requirements, render: Value -> string): Requirements
  {
    var alerts := SevereAlerts(docs, date, hub);
    if |alerts| == 0 then Requirements([], []) else llm(RequirementPrompt(alerts, render))
  }

  /**
   * The model is asked exactly when some stored alert of the hub is severe on that date,
   * and its prompt lists precisely those alerts.
   */
  lemma RequirementsForSpec(docs: seq<Doc>, date: string, hub: string, llm: string -> Requirements, render: Value -> string)
    ensures (forall d :: d in docs ==> !Severe(d, date, hub)) ==>
              RequirementsFor(docs, date, hub, llm, render) == Requirements([], [])
    ensures forall d :: d in docs && Severe(d, date, hub) ==>
              RequirementsFor(docs, date, hub, llm, render) == llm(RequirementPrompt(SevereAlerts(docs, date, hub), render))
  {
    var alerts := SevereAlerts(docs, date, hub);
    if |alerts| > 0 {
      assert alerts[0] in alerts;
    }
  }

  /** What the validator answers. */
  datatype Validation = Validation(isValid: bool, reason: string)

  const ValidateHead := "Validate the following combination against the requirements:\n\nCombination:\n"
  const ValidateTail := "\n\nIs this combination valid? Provide a reason."

  /** `"\n".join(f"- {req}" for req in requirements)`. */
  function Combined(reqs: seq<string>): string
  {
    Text.Join("\n", seq(|reqs|, i requires 0 <= i < |reqs| => "- " + reqs[i]))
  }

  function ValidationPrompt(c: Doc, combined: string, render: Value -> string): string
  {
    ValidateHead
    + "Name: " + Display(GetOr(c, "name", Str("N/A")), render)
    + ", Description: " + Display(GetOr(c, "description", Str("N/A")), render)
    + ", Usage: " + Display(GetOr(c, "usage", Str("N/A")), render)
    + "\n\nRequirements:\n" + combined + ValidateTail
  }

  /** The validator's verdict on each combination, asked with the requirements combined. */
  function Judge(reqs: seq<string>, validator: string -> Validation, render: Value -> string): Doc -> Validation
  {
    c => validator(ValidationPrompt(c, Combined(reqs), render))
  }

  /** A kept combination, with the validator's reason. */
  function Kept(c: Doc, reason: string): Doc
  {
    [("reason", Str(reason)), ("product_service", Obj(c))]
  }

  /** `validate_combination`'s result. */
  function Validated(combos: seq<Doc>, judge: Doc -> Validation): seq<Doc>
    decreases |combos|
  {
    if |combos| == 0 then []
    else
      var n := |combos| - 1;
      var v := judge(combos[n]);
      Validated(combos[..n], judge) + (if v.isValid then [Kept(combos[n], v.reason)] else [])
  }

  /**
   * The kept entries are exactly the combinations the validator accepts, each wrapped
   * with its reason, never more than the input.
   */
  lemma {:induction false} ValidatedSpec(combos: seq<Doc>, judge: Doc -> Validation)
    ensures |Validated(combos, judge)| <= |combos|
    ensures forall c :: c in combos && judge(c).isValid ==> Kept(c, judge(c).reason) in Validated(combos, judge)
    ensures forall e :: e in Validated(combos, judge) ==>
              exists c :: c in combos && judge(c).isValid && e == Kept(c, judge(c).reason)
    decreases |combos|
  {
    if |combos| > 0 {
      var n := |combos| - 1;
      ValidatedSpec(combos[..n], judge);
      assert combos == combos[..n] + [combos[n]];
    }
  }

  /** Order is kept: validating two lists in a row is validating their concatenation. */
  lemma {:induction false} ValidatedAppend(xs: seq<Doc>, ys: seq<Doc>, judge: Doc -> Validation)
    ensures Validated(xs + ys, judge) == Validated(xs, judge) + Validated(ys, judge)
    decreases |ys|
  {
    if |ys| == 0 {
      assert xs + ys == xs;
    } else {
      var n := |ys| - 1;
      assert (xs + ys)[..|xs + ys| - 1] == xs + ys[..n];
      assert (xs + ys)[|xs + ys| - 1] == ys[n];
      ValidatedAppend(xs, ys[..n], judge);
    }
  }

  /** `search`'s default threshold. */
  const Threshold: real := 0.5

  /**
   * `for req in reqs: suggestions.extend(search(req)[:1])`: each requirement in turn
   * contributes a top hit of its search, or nothing when its search has no hit.
   */
  predicate TopHits(docs: seq<Doc>, reqs: seq<string>, similarity: string -> Doc -> real, hits: seq<Doc>)
    decreases |reqs|
  {
    if |reqs| == 0 then hits == []
    else
      var n := |reqs| - 1;
      var score := similarity(reqs[n]);
      (NoHit(docs, "vector", Threshold, score) && TopHits(docs, reqs[..n], similarity, hits)) ||
      (|hits| > 0 && IsTopHit(docs, "vector", Threshold, score, hits[|hits| - 1]) &&
       TopHits(docs, reqs[..n], similarity, hits[..|hits| - 1]))
  }

  /** At most one suggestion per requirement, each a stored, embedded document. */
  lemma {:induction false} TopHitsBound(docs: seq<Doc>, reqs: seq<string>, similarity: string -> Doc -> real, hits: seq<Doc>)
    requires TopHits(docs, reqs, similarity, hits)
    ensures |hits| <= |reqs|
    ensures forall h :: h in hits ==> h in docs && Has(h, "vector")
    decreases |reqs|
  {
    if |reqs| > 0 {
      var n := |reqs| - 1;
      if NoHit(docs, "vector", Threshold, similarity(reqs[n])) && TopHits(docs, reqs[..n], similarity, hits) {
        TopHitsBound(docs, reqs[..n], similarity, hits);
      } else {
        var m := |hits| - 1;
        TopHitsBound(docs, reqs[..n], similarity, hits[..m]);
        assert hits == hits[..m] + [hits[m]];
      }
    }
  }

  /** The hits are determined by the collection and the requirements: at most one list qualifies. */
  lemma {:induction false} TopHitsUnique(docs: seq<Doc>, reqs: seq<string>, similarity: string -> Doc -> real,
                                         hits: seq<Doc>, hits': seq<Doc>)
    requires TopHits(docs, reqs, similarity, hits) && TopHits(docs, reqs, similarity, hits')
    ensures hits == hits'
    decreases |reqs|
  {
    if |reqs| > 0 {
      var n := |reqs| - 1;
      var score := similarity(reqs[n]);
      if NoHit(docs, "vector", Threshold, score) {
        NoHitNoTop(docs, score, hits);
        NoHitNoTop(docs, score, hits');
        TopHitsUnique(docs, reqs[..n], similarity, hits, hits');
      } else {
        var m, m' := |hits| - 1, |hits'| - 1;
        TopHitUnique(docs, "vector", Threshold, score, hits[m], hits'[m']);
        TopHitsUnique(docs, reqs[..n], similarity, hits[..m], hits'[..m']);
        assert hits == hits[..m] + [hits[m]] && hits' == hits'[..m'] + [hits'[m']];
      }
    }
  }

  /** A collection without a hit has no top hit. */
  lemma NoHitNoTop(docs: seq<Doc>, score: Doc -> real, hits: seq<Doc>)
    requires NoHit(docs, "vector", Threshold, score)
    ensures |hits| > 0 ==> !IsTopHit(docs, "vector", Threshold, score, hits[|hits| - 1])
  {
  }

  /** Searches `handler` once per requirement and keeps each search's head. */
  method SearchEach(handler: DocumentStore, reqs: seq<string>, similarity: string -> Doc -> real) returns (hits: seq<Doc>)
    ensures TopHits(handler.docs, reqs, similarity, hits)
  {
    hits := [];
    var i := 0;
    while i < |reqs|
      invariant 0 <= i <= |reqs|
      invariant TopHits(handler.docs, reqs[..i], similarity, hits)
    {
      var found := handler.Search("vector", Threshold, similarity(reqs[i]));
      SearchHead(handler.docs, "vector", Threshold, similarity(reqs[i]), found);
      assert reqs[..i + 1][..i] == reqs[..i];
      if |found| > 0 {
        var before := hits;
        hits := hits + [found[0]];
        assert hits[..|hits| - 1] == before;
      }
      i := i + 1;
    }
    assert reqs[..i] == reqs;
  }

  /** The dicts of a list, as JSON values. */
  function Objs(xs: seq<Doc>): (r: seq<Value>)
    ensures |r| == |xs| && forall i :: 0 <= i < |xs| ==> r[i] == Obj(xs[i])
  {
    seq(|xs|, i requires 0 <= i < |xs| => Obj(xs[i]))
  }

  /** `suggest_for_date`'s result. */
  function SuggestionResult(date: string, products: seq<Doc>, services: seq<Doc>): Doc
  {
    [("date", Str(date)), ("products", Arr(Objs(products))), ("services", Arr(Objs(services)))]
  }

  /** The request `suggest_for_date` hands to `add_suggestions`. */
  function SuggestionRequest(hub: string, result: Doc, date: string): Doc
  {
    [("sensor_hub_id", Str(hub)), ("suggestions", Obj(result)), ("timestamp", Str(date))]
  }

  lemma KeptReadable(combos: seq<Doc>, judge: Doc -> Validation)
    ensures forall e :: e in Validated(combos, judge) ==> Readable(Obj(e))
  {
    ValidatedSpec(combos, judge);
    forall e | e in Validated(combos, judge) ensures Readable(Obj(e)) {
      var c :| c in combos && judge(c).isValid && e == Kept(c, judge(c).reason);
      GetAt(e, 1, "product_service");
    }
  }

  lemma ListedItems(s: Doc, key: string, i: nat, xs: seq<Doc>)
    requires i < |s| && s[i] == (key, Arr(Objs(xs)))
    requires forall j :: 0 <= j < i ==> s[j].0 != key
    ensures Listed(s, key) <==> |xs| > 0
    ensures Get(s, key) == Some(Arr(Objs(xs)))
  {
    GetAt(s, i, key);
  }

  /** The request's fields, as `add_suggestions` reads them. */
  lemma RequestFields(hub: string, result: Doc, date: string)
    ensures var request := SuggestionRequest(hub, result, date);
            Get(request, "suggestions") == Some(Obj(result)) &&
            GetOr(request, "sensor_hub_id", Str("")) == Str(hub) &&
            GetOr(request, "timestamp", Str("")) == Str(date)
  {
    var request := SuggestionRequest(hub, result, date);
    GetAt(request, 1, "suggestions");
    GetAt(request, 0, "sensor_hub_id");
    GetAt(request, 2, "timestamp");
  }

  lemma AllReadableObjs(xs: seq<Doc>)
    requires forall e :: e in xs ==> Readable(Obj(e))
    ensures AllReadable(Objs(xs))
  {
    assert forall i :: 0 <= i < |xs| ==> xs[i] in xs;
  }

  /** A day's result formats without error, and lists each kind exactly when some item of it passed. */
  lemma ResultFormats(date: string, products: seq<Doc>, services: seq<Doc>, render: Value -> string)
    requires forall e :: e in products ==> Readable(Obj(e))
    requires forall e :: e in services ==> Readable(Obj(e))
    ensures var result := SuggestionResult(date, products, services);
            FormattedSuggestions(result, render).Ok? &&
            (Listed(result, "products") <==> |products| > 0) &&
            (Listed(result, "services") <==> |services| > 0)
  {
    var result := SuggestionResult(date, products, services);
    ListedItems(result, "products", 1, products);
    ListedItems(result, "services", 2, services);
    AllReadableObjs(products);
    AllReadableObjs(services);
    FormatsReadable(result, Objs(products), Objs(services), render);
  }

  /** Both sections present as lists of readable items: formatting succeeds. */
  lemma FormatsReadable(s: Doc, products: seq<Value>, services: seq<Value>, render: Value -> string)
    requires Get(s, "products") == Some(Arr(products)) && AllReadable(products)
    requires Get(s, "services") == Some(Arr(services)) && AllReadable(services)
    ensures FormattedSuggestions(s, render).Ok?
  {
    assert SectionLines(s, Product, render).Ok?;
    assert SectionLines(s, Service, render).Ok?;
  }

  /**
   * A day's suggestions are recorded exactly when some product or some service passed
   * validation, under the id "suggestion_<hub>_<date>".
   */
  lemma SuggestionsRecorded(date: string, hub: string, products: seq<Doc>, services: seq<Doc>, render: Value -> string)
    requires forall e :: e in products ==> Readable(Obj(e))
    requires forall e :: e in services ==> Readable(Obj(e))
    ensures var r := SuggestionRecord(SuggestionRequest(hub, SuggestionResult(date, products, services), date), render);
            r.Ok? && (r.value.Some? <==> |products| + |services| > 0) &&
            (r.value.Some? ==> Get(r.value.value, "suggestion_id") == Some(Str("suggestion_" + hub + "_" + date)))
  {
    var result := SuggestionResult(date, products, services);
    RequestFields(hub, result, date);
    ResultFormats(date, products, services, render);
    RecordedFor(SuggestionRequest(hub, result, date), result, hub, date, render);
  }

  /** A request carrying `result`, `hub` and `date` is recorded as `SuggestionRecordSpec` says. */
  lemma RecordedFor(request: Doc, result: Doc, hub: string, date: string, render: Value -> string)
    requires Get(request, "suggestions") == Some(Obj(result))
    requires GetOr(request, "sensor_hub_id", Str("")) == Str(hub)
    requires GetOr(request, "timestamp", Str("")) == Str(date)
    requires FormattedSuggestions(result, render).Ok?
    ensures var r := SuggestionRecord(request, render);
            r.Ok? && (r.value.Some? <==> Listed(result, "products") || Listed(result, "services")) &&
            (r.value.Some? ==> Get(r.value.value, "suggestion_id") == Some(Str("suggestion_" + hub + "_" + date)))
  {
    SuggestionRecordSpec(request, render);
    assert SuggestionId(Str(hub), Str(date), render) == "suggestion_" + hub + "_" + date;
  }

  /** `AlertStorageHandler`: the farm-alert collection and the suggestion pipeline built on it. */
  class AlertStorageHandler {
    /** The `alerts` collection. */
    const store: DocumentStore
    const products: DocumentStore
    const services: DocumentStore
    const suggestions: SuggestionHandler

    constructor (store: DocumentStore, products: DocumentStore, services: DocumentStore, suggestions: SuggestionHandler)
      ensures this.store == store && this.products == products
      ensures this.services == services && this.suggestions == suggestions
    {
      this.store := store;
      this.products := products;
      this.services := services;
      this.suggestions := suggestions;
    }

    /**
     * `add_alert`: the caller's delivery status, comments and resolved flag are
     * overridden, and the action body is embedded.
     */
    method AddAlert(alert: Doc, embed: string -> seq<real>) returns (r: Result<Doc>)
      modifies store
      ensures r == StoredItem(WithAlertDefaults(alert), ["action_body"], embed)
      ensures r.Ok? ==> store.docs == old(store.docs) + [r.value]
      ensures r.Err? ==> store.docs == old(store.docs)
    {
      r := store.AddItem(WithAlertDefaults(alert), "alert_id", ["action_body"], embed);
    }

    /** `update_delivery_status`: an empty id or status is refused without touching the store. */
    method UpdateDeliveryStatus(id: string, status: string) returns (modified: bool)
      modifies store
      ensures id == "" || status == "" ==> !modified && store.docs == old(store.docs)
      ensures id != "" && status != "" ==>
                (store.docs, modified) == SetFirst(old(store.docs), "alert_id", Str(id), "delivery_status", Str(status))
    {
      if id == "" || status == "" {
        return false;
      }
      modified := store.SetOnFirst("alert_id", Str(id), "delivery_status", Str(status));
    }

    /** `change_alert_status`: only an empty id is refused. */
    method ChangeAlertStatus(id: string, resolved: bool) returns (modified: bool)
      modifies store
      ensures id == "" ==> !modified && store.docs == old(store.docs)
      ensures id != "" ==> (store.docs, modified) == SetFirst(old(store.docs), "alert_id", Str(id), "resolved", Bool(resolved))
    {
      if id == "" {
        return false;
      }
      modified := store.SetOnFirst("alert_id", Str(id), "resolved", Bool(resolved));
    }

    /** `add_comment_to_alert`: an empty id or comment is refused; otherwise the comment is pushed. */
    method AddComment(id: string, comment: string) returns (r: Result<bool>)
      modifies store
      ensures id == "" || comment == "" ==> r == Ok(false) && store.docs == old(store.docs)
      ensures id != "" && comment != "" ==>
                (store.docs, r) == PushFirst(old(store.docs), "alert_id", Str(id), "comments", Str(comment))
    {
      if id == "" || comment == "" {
        return Ok(false);
      }
      r := store.PushOnFirst("alert_id", Str(id), "comments", Str(comment));
    }

    /** `_generate_input_prompt`: a header, one line per alert, a footer. */
    method InputPrompt(alerts: seq<Doc>, render: Value -> string) returns (prompt: string)
      ensures prompt == RequirementPrompt(alerts, render)
    {
      prompt := PromptHeader;
      var i := 0;
      while i < |alerts|
        invariant 0 <= i <= |alerts|
        invariant prompt == PromptHeader + AlertLines(alerts[..i], render)
      {
        TakeSnoc(alerts, i);
        AlertLinesSnoc(alerts[..i], alerts[i], render);
        AppendAssoc(PromptHeader, AlertLines(alerts[..i], render), AlertLine(alerts[i], render));
        prompt := prompt + AlertLine(alerts[i], render);
        i := i + 1;
      }
      assert alerts[..i] == alerts;
      prompt := prompt + PromptFooter;
    }

    /** `generate_requirement`. */
    method GenerateRequirement(date: string, hub: string, llm: string -> Requirements, render: Value -> string)
      returns (r: Requirements)
      ensures r == RequirementsFor(store.docs, date, hub, llm, render)
    {
      var alerts := SevereAlerts(store.docs, date, hub);
      if |alerts| == 0 {
        return Requirements([], []);
      }
      var prompt := InputPrompt(alerts, render);
      r := llm(prompt);
    }

    /** `validate_combination`: one validator call per combination, keeping the accepted ones in order. */
    method ValidateCombination(combos: seq<Doc>, reqs: seq<string>, validator: string -> Validation, render: Value -> string)
      returns (results: seq<Doc>)
      ensures results == Validated(combos, Judge(reqs, validator, render))
    {
      results := [];
      var combined := Combined(reqs);
      var i := 0;
      while i < |combos|
        invariant 0 <= i <= |combos|
        invariant results == Validated(combos[..i], Judge(reqs, validator, render))
      {
        assert combos[..i + 1][..i] == combos[..i];
        var verdict := validator(ValidationPrompt(combos[i], combined, render));
        assert verdict == Judge(reqs, validator, render)(combos[i]);
        if verdict.isValid {
          results := results + [Kept(combos[i], verdict.reason)];
        }
        i := i + 1;
      }
      assert combos[..i] == combos;
    }

    /**
     * `suggest_for_date`: requirements from the day's severe alerts, the top search hit
     * per requirement, the validated ones kept, and a suggestion record written when
     * anything survived. The candidate lists before validation are returned too (the
     * source only prints their lengths).
     */
    method SuggestForDate(date: string, hub: string, llm: string -> Requirements, validator: string -> Validation,
                          similarity: string -> Doc -> real, render: Value -> string)
      returns (result: Doc, productHits: seq<Doc>, serviceHits: seq<Doc>)
      modifies suggestions.store
      ensures var reqs := RequirementsFor(old(store.docs), date, hub, llm, render);
              TopHits(old(products.docs), reqs.products, similarity, productHits) &&
              TopHits(old(services.docs), reqs.services, similarity, serviceHits) &&
              result == SuggestionResult(date, Validated(productHits, Judge(reqs.products, validator, render)),
                                         Validated(serviceHits, Judge(reqs.services, validator, render)))
      ensures var stored := SuggestionRecord(SuggestionRequest(hub, result, date), render);
              stored.Ok? &&
              (stored.value.Some? ==> suggestions.store.docs == old(suggestions.store.docs) + [stored.value.value]) &&
              (stored.value.None? ==> suggestions.store.docs == old(suggestions.store.docs))
    {
      var reqs := GenerateRequirement(date, hub, llm, render);
      productHits := SearchEach(products, reqs.products, similarity);
      var keptProducts := ValidateCombination(productHits, reqs.products, validator, render);
      serviceHits := SearchEach(services, reqs.services, similarity);
      var keptServices := ValidateCombination(serviceHits, reqs.services, validator, render);
      result := SuggestionResult(date, keptProducts, keptServices);
      KeptReadable(productHits, Judge(reqs.products, validator, render));
      KeptReadable(serviceHits, Judge(reqs.services, validator, render));
      SuggestionsRecorded(date, hub, keptProducts, keptServices, render);
      var _ := suggestions.AddSuggestions(SuggestionRequest(hub, result, date), render);
    }
  }
}
