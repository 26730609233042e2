/**
 * The query string that identifies a customisation (`_getQuery`) and the service URLs built
 * from it. Every string field uses "" for `null`/`undefined`: only truthiness and `||` are
 * observed on them.
 */
module Query {
  import opened Wrappers
  import opened Js
  import opened Dicts

  /** The material and colour chosen for one part; "" is an unset field. */
  datatype PartValue = PartValue(material: string, color: string)

  /** The parts object: part name to its value, in insertion order. */
  type Parts = Dict<PartValue>

  /** The instance fields the query and the URL builders read. */
  datatype Product = Product(
    url: string, brand: string, model: string, variant: string, frame: string,
    parts: Parts, engraving: string, country: string, currency: string)

  /**
   * The options object of `_getQuery`. "" is an absent option; a parts object is truthy even
   * when empty, so only `None` falls back to the instance's parts.
   */
  datatype QueryOptions = QueryOptions(
    brand: string, model: string, variant: string, frame: string,
    parts: Option<Parts>, engraving: string, country: string, currency: string)

  const NoOptions := QueryOptions("", "", "", "", None, "", "", "")

  /** `value && buffer.push(prefix + value)`, the prefix being "<key>=". */
  function Field(prefix: string, value: string): seq<string>
  {
    if value != "" then [prefix + value] else []
  }

  /** A part takes part in the query only with both a material and a colour. */
  predicate Complete(v: PartValue)
  {
    v.material != "" && v.color != ""
  }

  function PartField(name: string, v: PartValue): string
  {
    "p=" + name + ":" + v.material + ":" + v.color
  }

  /** The "p=" fields, one per complete part, in key order. */
  function PartFields(parts: Parts): seq<string>
    decreases |parts|
  {
    if parts == [] then []
    else (if Complete(parts[0].1) then [PartField(parts[0].0, parts[0].1)] else []) + PartFields(parts[1..])
  }

  function QueryParts(p: Product, o: QueryOptions): Parts
  {
    if o.parts.Some? then o.parts.value else p.parts
  }

  function LeadFields(p: Product, o: QueryOptions): seq<string>
  {
    Field("brand=", Or(o.brand, p.brand)) + Field("model=", Or(o.model, p.model))
    + Field("variant=", Or(o.variant, p.variant)) + Field("frame=", Or(o.frame, p.frame))
  }

  function TailFields(p: Product, o: QueryOptions): seq<string>
  {
    Field("engraving=", Or(o.engraving, p.engraving)) + Field("country=", Or(o.country, p.country))
    + Field("currency=", Or(o.currency, p.currency))
  }

  /** The fields of the query, in the order `_getQuery` pushes them. */
  function QueryFields(p: Product, o: QueryOptions): seq<string>
  {
    LeadFields(p, o) + PartFields(QueryParts(p, o)) + TailFields(p, o)
  }

  /** The query string: the fields joined with "&". */
  function Query(p: Product, o: QueryOptions): string
  {
    Join(QueryFields(p, o), "&")
  }

  lemma {:induction false} PartFieldsAppend(a: Parts, b: Parts)
    ensures PartFields(a + b) == PartFields(a) + PartFields(b)
    decreases |a|
  {
    if a == [] {
      assert a + b == b;
    } else {
      assert (a + b)[0] == a[0];
      assert (a + b)[1..] == a[1..] + b;
      PartFieldsAppend(a[1..], b);
      var head := if Complete(a[0].1) then [PartField(a[0].0, a[0].1)] else [];
      assert PartFields(a + b) == head + PartFields(a[1..] + b);
      assert PartFields(a) == head + PartFields(a[1..]);
    }
  }

  lemma PartFieldsSingle(entry: (string, PartValue))
    ensures PartFields([entry]) == if Complete(entry.1) then [PartField(entry.0, entry.1)] else []
  {
    assert [entry][1..] == [];
  }

  /** One more entry of the parts object adds its field when the part is complete. */
  lemma PartFieldsSnoc(parts: Parts, i: nat)
    requires i < |parts|
    ensures PartFields(parts[..i + 1]) ==
      PartFields(parts[..i]) + if Complete(parts[i].1) then [PartField(parts[i].0, parts[i].1)] else []
  {
    PartFieldsAppend(parts[..i], [parts[i]]);
    PartFieldsSingle(parts[i]);
    assert parts[..i + 1] == parts[..i] + [parts[i]];
  }

  /** `_getQuery(options)`: builds the field buffer step by step and joins it. */
  method GetQuery(p: Product, o: QueryOptions) returns (query: string)
    ensures query == Query(p, o)
  {
    var buffer: seq<string> := [];
    var brand := Or(o.brand, p.brand);
    var model := Or(o.model, p.model);
    var variant := Or(o.variant, p.variant);
    var frame := Or(o.frame, p.frame);
    var parts := if o.parts.Some? then o.parts.value else p.parts;
    var engraving := Or(o.engraving, p.engraving);
    var country := Or(o.country, p.country);
    var currency := Or(o.currency, p.currency);

    buffer := buffer + Field("brand=", brand);
    buffer := buffer + Field("model=", model);
    buffer := buffer + Field("variant=", variant);
    buffer := buffer + Field("frame=", frame);
    assert parts[..0] == [];
    var i := 0;
    while i < |parts|
      invariant 0 <= i <= |parts|
      invariant buffer == LeadFields(p, o) + PartFields(parts[..i])
    {
      var name := parts[i].0;
      var value := parts[i].1;
      PartFieldsSnoc(parts, i);
      i := i + 1;
      if value.material == "" {
        continue;
      }
      if value.color == "" {
        continue;
      }
      buffer := buffer + ["p=" + name + ":" + value.material + ":" + value.color];
    }
    assert parts[..i] == parts;
    ghost var middle := buffer;

    buffer := buffer + Field("engraving=", engraving);
    buffer := buffer + Field("country=", country);
    buffer := buffer + Field("currency=", currency);
    assert buffer == middle + TailFields(p, o);
    query := Join(buffer, "&");
  }

  // ---------------------------------------------------------------- what the query says

  /** A part without a material or without a colour leaves the query unchanged. */
  lemma IncompletePartIgnored(p: Product, o: QueryOptions, a: Parts, name: string, v: PartValue, b: Parts)
    requires !Complete(v) && o.parts.None?
    ensures Query(p.(parts := a + [(name, v)] + b), o) == Query(p.(parts := a + b), o)
  {
    PartFieldsAppend(a + [(name, v)], b);
    PartFieldsAppend(a, [(name, v)]);
    PartFieldsAppend(a, b);
    assert [(name, v)][1..] == [];
    assert PartFields([(name, v)]) == [];
    assert PartFields(a + [(name, v)] + b) == PartFields(a + b);
    assert QueryFields(p.(parts := a + [(name, v)] + b), o) == QueryFields(p.(parts := a + b), o);
  }

  /** A complete part contributes its "p=name:material:color" field. */
  lemma {:induction false} CompletePartListed(parts: Parts, i: nat)
    requires i < |parts| && Complete(parts[i].1)
    ensures PartField(parts[i].0, parts[i].1) in PartFields(parts)
    decreases i
  {
    if i > 0 {
      CompletePartListed(parts[1..], i - 1);
    }
  }

  /** No option, instance field or part text contains "&". */
  predicate AmpFree(p: Product, o: QueryOptions)
  {
    var parts := QueryParts(p, o);
    '&' !in Or(o.brand, p.brand) && '&' !in Or(o.model, p.model)
    && '&' !in Or(o.variant, p.variant) && '&' !in Or(o.frame, p.frame)
    && '&' !in Or(o.engraving, p.engraving) && '&' !in Or(o.country, p.country)
    && '&' !in Or(o.currency, p.currency)
    && forall k :: 0 <= k < |parts| ==>
         '&' !in parts[k].0 && '&' !in parts[k].1.material && '&' !in parts[k].1.color
  }

  /** No field of the list contains "&". */
  predicate AllAmpFree(fields: seq<string>)
  {
    forall k :: 0 <= k < |fields| ==> '&' !in fields[k]
  }

  lemma AllAmpFreeAppend(a: seq<string>, b: seq<string>)
    requires AllAmpFree(a) && AllAmpFree(b)
    ensures AllAmpFree(a + b)
  {
    forall k | 0 <= k < |a + b| ensures '&' !in (a + b)[k] {
      if k < |a| {
        assert (a + b)[k] == a[k];
      } else {
        assert (a + b)[k] == b[k - |a|];
      }
    }
  }

  lemma FieldAmpFree(prefix: string, value: string)
    requires '&' !in prefix && '&' !in value
    ensures AllAmpFree(Field(prefix, value))
  {
  }

  lemma PartFieldAmpFree(name: string, v: PartValue)
    requires '&' !in name && '&' !in v.material && '&' !in v.color
    ensures '&' !in PartField(name, v)
  {
    assert '&' !in "p=" && '&' !in ":";
    assert PartField(name, v) == "p=" + name + ":" + v.material + ":" + v.color;
  }

  lemma {:induction false} PartFieldsAmpFree(parts: Parts)
    requires forall k :: 0 <= k < |parts| ==>
      '&' !in parts[k].0 && '&' !in parts[k].1.material && '&' !in parts[k].1.color
    ensures AllAmpFree(PartFields(parts))
    decreases |parts|
  {
    if parts != [] {
      PartFieldsAmpFree(parts[1..]);
      var head := if Complete(parts[0].1) then [PartField(parts[0].0, parts[0].1)] else [];
      PartFieldAmpFree(parts[0].0, parts[0].1);
      assert AllAmpFree(head);
      AllAmpFreeAppend(head, PartFields(parts[1..]));
    }
  }

  lemma FieldsAmpFree(p: Product, o: QueryOptions)
    requires AmpFree(p, o)
    ensures AllAmpFree(QueryFields(p, o))
  {
    assert '&' !in "brand=" && '&' !in "model=" && '&' !in "variant=" && '&' !in "frame=";
    assert '&' !in "engraving=" && '&' !in "country=" && '&' !in "currency=";
    FieldAmpFree("brand=", Or(o.brand, p.brand));
    FieldAmpFree("model=", Or(o.model, p.model));
    FieldAmpFree("variant=", Or(o.variant, p.variant));
    FieldAmpFree("frame=", Or(o.frame, p.frame));
    FieldAmpFree("engraving=", Or(o.engraving, p.engraving));
    FieldAmpFree("country=", Or(o.country, p.country));
    FieldAmpFree("currency=", Or(o.currency, p.currency));
    AllAmpFreeAppend(Field("brand=", Or(o.brand, p.brand)), Field("model=", Or(o.model, p.model)));
    AllAmpFreeAppend(Field("brand=", Or(o.brand, p.brand)) + Field("model=", Or(o.model, p.model)),
      Field("variant=", Or(o.variant, p.variant)));
    AllAmpFreeAppend(Field("brand=", Or(o.brand, p.brand)) + Field("model=", Or(o.model, p.model))
      + Field("variant=", Or(o.variant, p.variant)), Field("frame=", Or(o.frame, p.frame)));
    AllAmpFreeAppend(Field("engraving=", Or(o.engraving, p.engraving)), Field("country=", Or(o.country, p.country)));
    AllAmpFreeAppend(Field("engraving=", Or(o.engraving, p.engraving)) + Field("country=", Or(o.country, p.country)),
      Field("currency=", Or(o.currency, p.currency)));
    PartFieldsAmpFree(QueryParts(p, o));
    AllAmpFreeAppend(LeadFields(p, o), PartFields(QueryParts(p, o)));
    AllAmpFreeAppend(LeadFields(p, o) + PartFields(QueryParts(p, o)), TailFields(p, o));
  }

  /** Splitting the query at "&" gives back its fields. */
  lemma QuerySplitsIntoFields(p: Product, o: QueryOptions)
    requires AmpFree(p, o) && QueryFields(p, o) != []
    ensures Split(Query(p, o), "&") == QueryFields(p, o)
  {
    FieldsAmpFree(p, o);
    SplitJoin(QueryFields(p, o), "&");
  }

  /** Two frames with different names give different queries. */
  lemma QueryDistinguishesFrames(p: Product, o: QueryOptions, f1: string, f2: string)
    requires f1 != "" && f2 != "" && f1 != f2
    requires AmpFree(p, o.(frame := f1)) && AmpFree(p, o.(frame := f2))
    ensures Query(p, o.(frame := f1)) != Query(p, o.(frame := f2))
  {
    var o1 := o.(frame := f1);
    var o2 := o.(frame := f2);
    var head := Field("brand=", Or(o.brand, p.brand)) + Field("model=", Or(o.model, p.model))
      + Field("variant=", Or(o.variant, p.variant));
    assert QueryFields(p, o1)[|head|] == "frame=" + f1;
    assert QueryFields(p, o2)[|head|] == "frame=" + f2;
    assert ("frame=" + f1)[6..] == f1;
    assert ("frame=" + f2)[6..] == f2;
    assert QueryFields(p, o1) != QueryFields(p, o2);
    QuerySplitsIntoFields(p, o1);
    QuerySplitsIntoFields(p, o2);
  }

  // ---------------------------------------------------------------- URL builders

  /** `key ? "&" + name + "=" + value : ""`. */
  function Param(name: string, value: string): string
  {
    if value != "" then "&" + name + "=" + value else ""
  }

  /**
   * "brands/<brand>/models/<model>/<leaf>". An absent brand or model is "" here, where the
   * source concatenates "undefined"; the builders are modelled for a product whose brand and
   * model are set.
   */
  function ModelPath(brand: string, model: string, leaf: string): string
  {
    "brands" + "/" + brand + "/" + "models" + "/" + model + "/" + leaf
  }

  /** `_getConfigURL(brand, model, variant)`; "" arguments fall back to the instance. */
  function ConfigURL(p: Product, brand: string, model: string, variant: string): string
  {
    var v := Or(variant, p.variant);
    p.url + ModelPath(Or(brand, p.brand), Or(model, p.model), "config")
    + (if v != "" then "?variant=" + v else "")
  }

  /** `_getDefaultsURL(brand, model, variant)`. */
  function DefaultsURL(p: Product, brand: string, model: string, variant: string): string
  {
    var v := Or(variant, p.variant);
    p.url + ModelPath(Or(brand, p.brand), Or(model, p.model), "defaults")
    + (if v != "" then "?variant=" + v else "")
  }

  /** `_getCombinationsURL(brand, model, variant, useName)`. */
  function CombinationsURL(p: Product, brand: string, model: string, variant: string, useName: bool): string
  {
    var v := Or(variant, p.variant);
    var query := "use_name=" + (if useName then "1" else "0") + Param("variant", v);
    p.url + ModelPath(Or(brand, p.brand), Or(model, p.model), "combinations") + "?" + query
  }

  /** `_getPriceURL(options)`. */
  function PriceURL(p: Product, o: QueryOptions): string
  {
    p.url + "config/price" + "?" + Query(p, o)
  }

  /** The options of `_getImageURL`; "" and `None` are absent options. */
  datatype ImageOptions = ImageOptions(
    query: QueryOptions, format: string, width: string, height: string, size: string,
    background: string, crop: bool, profile: Option<seq<string>>, initials: Option<string>)

  /** `options.profile ? "&initials_profile=" + options.profile.join(",") : ""` (an array is truthy). */
  function ProfileParam(profile: Option<seq<string>>): string
  {
    if profile.Some? then "&initials_profile=" + Join(profile.value, ",") else ""
  }

  /** The initials parameter, with "" sent as "$empty" and an absent value left out. */
  function InitialsParam(initials: Option<string>): string
  {
    if initials.None? then ""
    else Param("initials", if initials.value == "" then "$empty" else initials.value)
  }

  /** The parameters `_getImageURL` appends to the query, in order. */
  function ImageParams(io: ImageOptions): string
  {
    Param("format", io.format) + Param("width", io.width) + Param("height", io.height)
    + Param("size", io.size) + Param("background", io.background)
    + (if io.crop then "&crop=1" else "")
    + ProfileParam(io.profile) + InitialsParam(io.initials)
  }

  /** `_getImageURL(options)` of ripe.js. */
  function ImageURL(p: Product, io: ImageOptions): string
  {
    p.url + "compose?" + Query(p, io.query) + ImageParams(io)
  }

  /** `_getMaskURL(options)`: the query is built with `options.parts || {}`, never the instance's parts. */
  function MaskURL(p: Product, o: QueryOptions, part: string): string
  {
    var maskOptions := o.(parts := Some(if o.parts.Some? then o.parts.value else []));
    p.url + "mask?" + Query(p, maskOptions) + Param("part", part)
  }

  lemma Cancel(pre: string, a: string, b: string, s: string)
    requires pre + a + s == pre + b + s
    ensures a == b
  {
    assert |a| == |b|;
    assert a == (pre + a + s)[|pre|..|pre| + |a|];
    assert b == (pre + b + s)[|pre|..|pre| + |b|];
  }

  /** Two frames of the same product have different image URLs. */
  lemma ImageURLDistinguishesFrames(p: Product, io: ImageOptions, f1: string, f2: string)
    requires f1 != "" && f2 != "" && f1 != f2
    requires AmpFree(p, io.query.(frame := f1)) && AmpFree(p, io.query.(frame := f2))
    ensures ImageURL(p, io.(query := io.query.(frame := f1))) != ImageURL(p, io.(query := io.query.(frame := f2)))
  {
    var io1 := io.(query := io.query.(frame := f1));
    var io2 := io.(query := io.query.(frame := f2));
    QueryDistinguishesFrames(p, io.query, f1, f2);
    assert ImageParams(io1) == ImageParams(io2);
    if ImageURL(p, io1) == ImageURL(p, io2) {
      Cancel(p.url + "compose?", Query(p, io1.query), Query(p, io2.query), ImageParams(io1));
    }
  }

  /** The mask URL does not depend on the instance's parts. */
  lemma MaskURLIgnoresInstanceParts(p: Product, parts: Parts, o: QueryOptions, part: string)
    ensures MaskURL(p, o, part) == MaskURL(p.(parts := parts), o, part)
  {
  }

  /** No '/' or '?' in a path segment. */
  predicate Segment(s: string)
  {
    '/' !in s && '?' !in s
  }

  lemma ModelPathSplits(brand: string, model: string, leaf: string)
    requires Segment(brand) && Segment(model) && Segment(leaf)
    ensures Split(ModelPath(brand, model, leaf), "/") == ["brands", brand, "models", model, leaf]
    ensures '?' !in ModelPath(brand, model, leaf)
  {
    assert Segment("brands") && Segment("models");
    FiveSegments("brands", brand, "models", model, leaf);
    ModelPathPlain(brand, model, leaf);
  }

  /** Five segments joined with '/' split back into themselves. */
  lemma FiveSegments(a: string, b: string, c: string, d: string, e: string)
    requires '/' !in b && '/' !in c && '/' !in d && '/' !in e
    requires '/' !in a
    ensures Split(a + "/" + b + "/" + c + "/" + d + "/" + e, "/") == [a, b, c, d, e]
  {
    var p2 := a + "/" + b;
    var p3 := p2 + "/" + c;
    var p4 := p3 + "/" + d;
    assert Split(p2, "/") == [a, b] by {
      IndexOfAbsent(a, "/");
      SplitSnoc(a, "/", b);
    }
    SnocPiece(p2, [a, b], c);
    SnocPiece(p3, [a, b, c], d);
    SnocPiece(p4, [a, b, c, d], e);
  }

  lemma SnocPiece(p: string, pieces: seq<string>, e: string)
    requires '/' !in e && Split(p, "/") == pieces
    ensures Split(p + "/" + e, "/") == pieces + [e]
  {
    SplitSnoc(p, "/", e);
  }

  lemma ModelPathPlain(brand: string, model: string, leaf: string)
    requires Segment(brand) && Segment(model) && Segment(leaf)
    ensures '?' !in ModelPath(brand, model, leaf)
  {
  }

  lemma DropPrefix(a: string, b: string)
    ensures (a + b)[|a|..] == b
  {
  }

  lemma {:induction false} SplitAtAbsent(s: string, c: char)
    requires c !in s
    ensures Split(s, [c]) == [s]
  {
    IndexOfAbsent(s, [c]);
  }

  lemma {:induction false} SplitAtOne(a: string, c: char, b: string)
    requires c !in a && c !in b
    ensures Split(a + [c] + b, [c]) == [a, b]
  {
    var xs := [a, b];
    assert Join(xs, [c]) == a + [c] + b by {
      assert xs[1..] == [b];
    }
    SplitJoin(xs, [c]);
  }

  /**
   * The configuration URL read back: after the base URL, the path names the brand and the
   * model, and a "?variant=" query is present exactly when a variant is in effect.
   */
  lemma ConfigURLRoundTrip(p: Product, brand: string, model: string, variant: string)
    requires Segment(Or(brand, p.brand)) && Segment(Or(model, p.model)) && '?' !in Or(variant, p.variant)
    ensures var rest := ConfigURL(p, brand, model, variant)[|p.url|..];
      var pieces := Split(rest, "?");
      Split(pieces[0], "/") == ["brands", Or(brand, p.brand), "models", Or(model, p.model), "config"]
      && (|pieces| == 2 <==> Or(variant, p.variant) != "")
      && (Or(variant, p.variant) != "" ==> pieces[1] == "variant=" + Or(variant, p.variant))
  {
    var path := ModelPath(Or(brand, p.brand), Or(model, p.model), "config");
    var v := Or(variant, p.variant);
    ModelPathSplits(Or(brand, p.brand), Or(model, p.model), "config");
    assert ConfigURL(p, brand, model, variant) == p.url + path + (if v != "" then "?variant=" + v else "");
    VariantQuerySplit(p.url, path, v);
  }

  /** After the base URL, a path and an optional "?variant=" query split apart at the '?'. */
  lemma VariantQuerySplit(base: string, path: string, v: string)
    requires '?' !in path && '?' !in v
    ensures var pieces := Split((base + path + (if v != "" then "?variant=" + v else ""))[|base|..], "?");
      pieces[0] == path && (|pieces| == 2 <==> v != "") && (v != "" ==> pieces[1] == "variant=" + v)
  {
    var rest := path + (if v != "" then "?variant=" + v else "");
    assert base + path + (if v != "" then "?variant=" + v else "") == base + rest;
    DropPrefix(base, rest);
    if v != "" {
      assert rest == path + "?" + ("variant=" + v);
      assert '?' !in "variant=";
      SplitAtOne(path, '?', "variant=" + v);
    } else {
      SplitAtAbsent(path, '?');
    }
  }

  /** The defaults URL read back, as for the configuration URL. */
  lemma DefaultsURLRoundTrip(p: Product, brand: string, model: string, variant: string)
    requires Segment(Or(brand, p.brand)) && Segment(Or(model, p.model)) && '?' !in Or(variant, p.variant)
    ensures var rest := DefaultsURL(p, brand, model, variant)[|p.url|..];
      var pieces := Split(rest, "?");
      Split(pieces[0], "/") == ["brands", Or(brand, p.brand), "models", Or(model, p.model), "defaults"]
      && (|pieces| == 2 <==> Or(variant, p.variant) != "")
      && (Or(variant, p.variant) != "" ==> pieces[1] == "variant=" + Or(variant, p.variant))
  {
    var path := ModelPath(Or(brand, p.brand), Or(model, p.model), "defaults");
    var v := Or(variant, p.variant);
    ModelPathSplits(Or(brand, p.brand), Or(model, p.model), "defaults");
    assert DefaultsURL(p, brand, model, variant) == p.url + path + (if v != "" then "?variant=" + v else "");
    VariantQuerySplit(p.url, path, v);
  }

  /** The query of the combinations URL, split at '&'. */
  lemma CombinationsQuerySplits(useName: bool, v: string)
    requires '?' !in v && '&' !in v
    ensures var query := "use_name=" + (if useName then "1" else "0") + Param("variant", v);
      '?' !in query
      && Split(query, "&") == ["use_name=" + (if useName then "1" else "0")]
           + (if v != "" then ["variant=" + v] else [])
  {
    var useNameField := "use_name=" + (if useName then "1" else "0");
    assert '?' !in useNameField && '&' !in useNameField;
    assert '?' !in "variant" && '&' !in "variant";
    FieldThenParam(useNameField, "variant", v);
    assert "variant" + "=" + v == "variant=" + v;
  }

  /** A field followed by an optional parameter, split at '&'. */
  lemma FieldThenParam(field: string, name: string, v: string)
    requires '?' !in field && '&' !in field
    requires '?' !in name && '&' !in name && '?' !in v && '&' !in v
    ensures '?' !in field + Param(name, v)
    ensures Split(field + Param(name, v), "&") == [field] + (if v != "" then [name + "=" + v] else [])
  {
    if v != "" {
      assert field + Param(name, v) == field + "&" + (name + "=" + v);
      SplitAtOne(field, '&', name + "=" + v);
    } else {
      assert field + Param(name, v) == field;
      SplitAtAbsent(field, '&');
    }
  }

  /**
   * The combinations URL read back: the path names brand and model, and its query holds
   * "use_name=1" or "use_name=0" and then the variant exactly when one is in effect.
   */
  lemma CombinationsURLRoundTrip(p: Product, brand: string, model: string, variant: string, useName: bool)
    requires Segment(Or(brand, p.brand)) && Segment(Or(model, p.model))
    requires '?' !in Or(variant, p.variant) && '&' !in Or(variant, p.variant)
    ensures var rest := CombinationsURL(p, brand, model, variant, useName)[|p.url|..];
      var pieces := Split(rest, "?");
      |pieces| == 2
      && Split(pieces[0], "/") == ["brands", Or(brand, p.brand), "models", Or(model, p.model), "combinations"]
      && Split(pieces[1], "&") == ["use_name=" + (if useName then "1" else "0")]
           + (if Or(variant, p.variant) != "" then ["variant=" + Or(variant, p.variant)] else [])
  {
    var path := ModelPath(Or(brand, p.brand), Or(model, p.model), "combinations");
    var v := Or(variant, p.variant);
    ModelPathSplits(Or(brand, p.brand), Or(model, p.model), "combinations");
    var query := "use_name=" + (if useName then "1" else "0") + Param("variant", v);
    CombinationsQuerySplits(useName, v);
    var url := CombinationsURL(p, brand, model, variant, useName);
    assert url == p.url + path + "?" + query;
    PathQuerySplit(p.url, path, query);
  }

  /** After the base URL, a path and a query without '?' split apart at the one '?'. */
  lemma PathQuerySplit(base: string, path: string, query: string)
    requires '?' !in path && '?' !in query
    ensures Split((base + path + "?" + query)[|base|..], "?") == [path, query]
  {
    DropPrefix(base, path + "?" + query);
    assert base + path + "?" + query == base + (path + "?" + query);
    SplitAtOne(path, '?', query);
  }

  /** The price URL carries the query after "config/price?", field by field. */
  lemma PriceURLCarriesQuery(p: Product, o: QueryOptions)
    requires AmpFree(p, o) && QueryFields(p, o) != []
    ensures PriceURL(p, o)[|p.url|..] == "config/price?" + Query(p, o)
    ensures Split(PriceURL(p, o)[|p.url| + 13..], "&") == QueryFields(p, o)
  {
    var rest := PriceURL(p, o)[|p.url|..];
    assert PriceURL(p, o) == p.url + ("config/price?" + Query(p, o));
    assert PriceURL(p, o)[|p.url| + 13..] == Query(p, o);
    QuerySplitsIntoFields(p, o);
  }
}
