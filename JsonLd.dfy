/**
 * The structured-data tier of the content script: choosing the schema.org
 * `JobPosting` block among the page's JSON-LD scripts, flattening JSON-LD values to
 * plain text, and the attribute extractors for dates and salary.
 */
module JsonLd {
  import opened Wrappers
  import opened Text
  import opened Json

  // ---------------------------------------------------------------------------
  // Flattener
  // ---------------------------------------------------------------------------

  /** Keys the flattener ignores: JSON-LD keywords (`@type`, `@id`, ...) and non-textual links. */
  predicate Skipped(key: string) {
    (|key| > 0 && key[0] == '@') || key == "url" || key == "sameAs" || key == "logo"
  }

  /** The flattened text of every element of an array, in order. */
  function ItemTexts(xs: seq<Json>): (r: seq<string>)
    ensures |r| == |xs|
    ensures forall i :: 0 <= i < |xs| ==> r[i] == Flatten(xs[i])
    decreases Arr(xs), 0
  {
    seq(|xs|, i requires 0 <= i < |xs| => Flatten(xs[i]))
  }

  /** The flattened text of every field of an object in order, with `""` in place of a skipped key. */
  function FieldTexts(fs: seq<(string, Json)>): (r: seq<string>)
    ensures |r| == |fs|
    ensures forall i :: 0 <= i < |fs| ==> r[i] == if Skipped(fs[i].0) then "" else Flatten(fs[i].1)
    decreases Obj(fs), 0
  {
    seq(|fs|, i requires 0 <= i < |fs| => if Skipped(fs[i].0) then "" else Flatten(fs[i].1))
  }

  /**
   * `flattenToText`: collapses a JSON-LD value to one line of text. `null` and booleans
   * give `""`, strings and numbers their trimmed text, arrays their non-empty parts
   * joined by `", "`, objects the non-empty parts of their non-skipped fields joined
   * by `" "`. The result never starts or ends with white space.
   */
  function Flatten(j: Json): (r: string)
    ensures Trimmed(r)
    decreases j, 1
  {
    match j
    case Null => ""
    case Bool(_) => ""
    case Num(_, t) => Trim(t)
    case Str(s) => Trim(s)
    case Arr(xs) =>
      var parts := NonEmpty(ItemTexts(xs));
      JoinSegments(parts, ", ");
      Join(parts, ", ")
    case Obj(fs) =>
      var parts := NonEmpty(FieldTexts(fs));
      JoinSegments(parts, " ");
      Join(parts, " ")
  }

  /** Flattening text that is already flat changes nothing. */
  lemma FlattenIdempotent(j: Json)
    ensures Flatten(Str(Flatten(j))) == Flatten(j)
  {
  }

  /** An array flattens to `""` exactly when every element does: no empty segment is kept. */
  lemma FlattenArrayEmpty(xs: seq<Json>)
    ensures Flatten(Arr(xs)) == "" <==> forall i :: 0 <= i < |xs| ==> Flatten(xs[i]) == ""
  {
    var parts := NonEmpty(ItemTexts(xs));
    forall i | 0 <= i < |parts| ensures parts[i] != "" && Trimmed(parts[i]) {
      var k :| 0 <= k < |xs| && ItemTexts(xs)[k] == parts[i];
    }
    JoinSegments(parts, ", ");
  }

  /** `parts.join(sep)` after `parts.push(p)`. */
  lemma JoinPush(parts: seq<string>, p: string, sep: string)
    ensures Join(parts + [p], sep) == if parts == [] then p else Join(parts, sep) + sep + p
  {
    assert (parts + [p])[..|parts|] == parts;
  }

  /**
   * The object loop of the flattener, one field at a time: a skipped key or a value
   * that flattens to `""` adds nothing; any other value is appended after one space
   * (no space when it is the first part).
   */
  lemma FlattenObjectPush(fs: seq<(string, Json)>, key: string, v: Json)
    ensures Flatten(Obj(fs + [(key, v)])) ==
      var before := Flatten(Obj(fs));
      if Skipped(key) || Flatten(v) == "" then before
      else if before == "" then Flatten(v)
      else before + " " + Flatten(v)
  {
    var fs' := fs + [(key, v)];
    var text := if Skipped(key) then "" else Flatten(v);
    assert FieldTexts(fs') == FieldTexts(fs) + [text];
    var parts := NonEmpty(FieldTexts(fs));
    NonEmptyPush(FieldTexts(fs), text);
    JoinEmpty(parts, " ");
    if text != "" {
      JoinPush(parts, text, " ");
    } else {
      assert parts + [] == parts;
    }
  }

  // ---------------------------------------------------------------------------
  // Attribute extractors
  // ---------------------------------------------------------------------------

  /** The date part of a flattened timestamp: the text before the first `T`, null when that is empty. */
  function DatePart(flat: string): (r: Option<string>)
    ensures r.None? <==> Before(flat, 'T') == ""
    ensures r.Some? ==> r.value != "" && 'T' !in r.value && r.value <= flat
    ensures r.Some? && |r.value| < |flat| ==> flat[|r.value|] == 'T'
  {
    var d := Before(flat, 'T');
    if d == "" then None else Some(d)
  }

  /**
   * `extractDatePosted`: the date part of the flattened `datePosted`, the text before its
   * first `T`. An empty value, or one that starts with `T`, gives null.
   */
  function ExtractDatePosted(posting: Json): (r: Option<string>)
    ensures Flatten(Prop(posting, "datePosted")) == "" ==> r.None?
    ensures r.None? <==> Before(Flatten(Prop(posting, "datePosted")), 'T') == ""
    ensures r.Some? ==> r.value == Before(Flatten(Prop(posting, "datePosted")), 'T')
    ensures r.Some? ==> r.value != "" && 'T' !in r.value && r.value <= Flatten(Prop(posting, "datePosted"))
  {
    DatePart(Flatten(Prop(posting, "datePosted")))
  }

  /** `extractDateClosing`: the same for `validThrough`. */
  function ExtractDateClosing(posting: Json): (r: Option<string>)
    ensures Flatten(Prop(posting, "validThrough")) == "" ==> r.None?
    ensures r.None? <==> Before(Flatten(Prop(posting, "validThrough")), 'T') == ""
    ensures r.Some? ==> r.value == Before(Flatten(Prop(posting, "validThrough")), 'T')
    ensures r.Some? ==> r.value != "" && 'T' !in r.value && r.value <= Flatten(Prop(posting, "validThrough"))
  {
    DatePart(Flatten(Prop(posting, "validThrough")))
  }

  /**
   * `extractDescription`: the flattened description, or, when it contains markup, the
   * text the browser renders from it (`rendered`, the `innerText` of a detached element).
   */
  function ExtractDescription(posting: Json, rendered: string): (r: string)
    ensures '<' !in Flatten(Prop(posting, "description")) ==> r == Flatten(Prop(posting, "description"))
    ensures '<' in Flatten(Prop(posting, "description")) ==> r == rendered
  {
    var raw := Flatten(Prop(posting, "description"));
    if '<' in raw then rendered else raw
  }

  /** The symbol table for the three known currency codes; any other code shows as itself. */
  function CurrencySymbol(code: string): (sym: string)
    ensures code == "GBP" ==> sym == "\U{A3}"
    ensures code == "USD" ==> sym == "$"
    ensures code == "EUR" ==> sym == "\U{20AC}"
    ensures code != "GBP" && code != "USD" && code != "EUR" ==> sym == code
  {
    if code == "GBP" then "\U{A3}"
    else if code == "USD" then "$"
    else if code == "EUR" then "\U{20AC}"
    else code
  }

  /**
   * `{...root, ...val}[key]` with `val = root.value || {}`: a field of the nested
   * `value` object when it has one, otherwise the root's own field. In particular
   * `value` itself falls back to the nested object when that object has no `value`.
   */
  function Merged(root: Json, key: string): (r: Option<Json>)
    ensures r == Field(root, key) || (Field(root, "value").Some? && r == Field(Field(root, "value").value, key))
  {
    var val := Or(Field(root, "value"), Some(Obj([]))).value;
    if val.Obj? && Field(val, key).Some? then Field(val, key) else Field(root, key)
  }

  /** In `{...root, ...val}` a field of a nested `value` object shadows the root's own. */
  lemma MergedNested(root: Json, val: Json, key: string)
    requires Field(root, "value") == Some(val) && val.Obj? && Field(val, key).Some?
    ensures Merged(root, key) == Field(val, key)
  {
  }

  /** A key the nested `value` object lacks (or that has no such object) is read from the root. */
  lemma MergedOwn(root: Json, key: string)
    requires forall val :: Field(root, "value") == Some(val) && Truthy(val) && val.Obj? ==> Field(val, key).None?
    ensures Merged(root, key) == Field(root, key)
  {
  }

  /** The lower bound: the merged `minValue` when truthy, else the merged `value`. */
  function SalaryMin(root: Json): (r: Option<Json>)
    ensures Given(Merged(root, "minValue")) ==> r == Merged(root, "minValue")
    ensures !Given(Merged(root, "minValue")) ==> r == Merged(root, "value")
  {
    Or(Merged(root, "minValue"), Merged(root, "value"))
  }

  /** The printable symbol: the table entry for the merged currency, GBP when it is falsy. */
  function SalarySymbol(root: Json): (r: string)
    ensures !Given(Merged(root, "currency")) ==> r == "\U{A3}"
    ensures Given(Merged(root, "currency")) ==> r == CurrencySymbol(ToJsString(Merged(root, "currency").value))
  {
    CurrencySymbol(ToJsString(Or(Merged(root, "currency"), Some(Str("GBP"))).value))
  }

  /** The unit as text: the merged `unitText` when truthy, else empty. */
  function SalaryUnit(root: Json): (r: string)
    ensures !Given(Merged(root, "unitText")) ==> r == ""
    ensures Given(Merged(root, "unitText")) ==> r == ToJsString(Merged(root, "unitText").value)
  {
    ToJsString(Or(Merged(root, "unitText"), Some(Str(""))).value)
  }

  /** A value that is present and truthy. */
  predicate Given(v: Option<Json>) {
    v.Some? && Truthy(v.value)
  }

  /**
   * `extractSalary`: no salary (absent or falsy `baseSalary`) gives null; a scalar its
   * flattened text; a `MonetaryAmount` a formatted range when both bounds are truthy,
   * a single amount when only the lower one is, and its flattened text otherwise.
   */
  function ExtractSalary(posting: Json): (r: Option<string>)
    ensures r.None? <==> !Given(Field(posting, "baseSalary"))
  {
    var base := Field(posting, "baseSalary");
    if !Given(base) then None
    else
      var root := base.value;
      if !root.Obj? && !root.Arr? then Some(Flatten(root))
      else
        var min := SalaryMin(root);
        var max := Merged(root, "maxValue");
        var sym := SalarySymbol(root);
        var unit := SalaryUnit(root);
        if Given(min) && Given(max) then
          Some(sym + ToJsString(min.value) + " - " + sym + ToJsString(max.value) + " " + unit)
        else if Given(min) then
          Some(sym + ToJsString(min.value) + " " + unit)
        else
          Some(Flatten(root))
  }

  /** The salary rules, case by case. */
  lemma SalaryCases(posting: Json)
    ensures var base := Field(posting, "baseSalary");
      Given(base) && !base.value.Obj? && !base.value.Arr? ==> ExtractSalary(posting) == Some(Flatten(base.value))
    ensures var base := Field(posting, "baseSalary");
      Given(base) && (base.value.Obj? || base.value.Arr?) ==>
        var root := base.value;
        var sym := SalarySymbol(root);
        ExtractSalary(posting) ==
          if Given(SalaryMin(root)) && Given(Merged(root, "maxValue")) then
            Some(sym + ToJsString(SalaryMin(root).value) + " - " + sym + ToJsString(Merged(root, "maxValue").value) + " " + SalaryUnit(root))
          else if Given(SalaryMin(root)) then
            Some(sym + ToJsString(SalaryMin(root).value) + " " + SalaryUnit(root))
          else Some(Flatten(root))
  {
  }

  /** `{"baseSalary": {"value": {"minValue": 1000, "maxValue": 2000, "unitText": "YEAR"}, "currency": "GBP"}}`. */
  lemma SalaryRangeExample()
    ensures ExtractSalary(Obj([("baseSalary", Obj([
      ("value", Obj([("minValue", Num(1000.0, "1000")), ("maxValue", Num(2000.0, "2000")), ("unitText", Str("YEAR"))])),
      ("currency", Str("GBP"))]))])) == Some("\U{A3}1000 - \U{A3}2000 YEAR")
  {
    var inner := [("minValue", Num(1000.0, "1000")), ("maxValue", Num(2000.0, "2000")), ("unitText", Str("YEAR"))];
    var root := Obj([("value", Obj(inner)), ("currency", Str("GBP"))]);
    RangeExampleInner(inner);
    assert Field(root, "value") == Some(Obj(inner));
    assert Field(root, "currency") == Some(Str("GBP")) by {
      assert root.fields[1..][0].0 == "currency";
      assert Lookup(root.fields[1..], "currency") == Some(Str("GBP"));
    }
    RangeExampleParts(inner, root);
    var posting := Obj([("baseSalary", root)]);
    assert Field(posting, "baseSalary") == Some(root);
    assert Given(SalaryMin(root)) && Given(Merged(root, "maxValue"));
    assert ExtractSalary(posting) == Some("\U{A3}" + "1000" + " - " + "\U{A3}" + "2000" + " " + "YEAR");
    RangeExampleText();
  }

  lemma RangeExampleParts(inner: seq<(string, Json)>, root: Json)
    requires Lookup(inner, "minValue") == Some(Num(1000.0, "1000"))
    requires Lookup(inner, "maxValue") == Some(Num(2000.0, "2000"))
    requires Lookup(inner, "unitText") == Some(Str("YEAR"))
    requires Lookup(inner, "currency") == None
    requires Field(root, "value") == Some(Obj(inner)) && Field(root, "currency") == Some(Str("GBP"))
    ensures SalaryMin(root) == Some(Num(1000.0, "1000"))
    ensures Merged(root, "maxValue") == Some(Num(2000.0, "2000"))
    ensures SalarySymbol(root) == "\U{A3}" && SalaryUnit(root) == "YEAR"
  {
    MergedNested(root, Obj(inner), "minValue");
    MergedNested(root, Obj(inner), "maxValue");
    MergedNested(root, Obj(inner), "unitText");
    assert Merged(root, "currency") == Some(Str("GBP"));
  }

  lemma RangeExampleInner(inner: seq<(string, Json)>)
    requires inner == [("minValue", Num(1000.0, "1000")), ("maxValue", Num(2000.0, "2000")), ("unitText", Str("YEAR"))]
    ensures Lookup(inner, "minValue") == Some(Num(1000.0, "1000"))
    ensures Lookup(inner, "maxValue") == Some(Num(2000.0, "2000"))
    ensures Lookup(inner, "unitText") == Some(Str("YEAR"))
    ensures Lookup(inner, "currency") == None
  {
    assert inner[1..][0].0 == "maxValue";
    assert inner[1..][1..][0].0 == "unitText";
    assert Lookup(inner[1..][1..], "unitText") == Some(Str("YEAR"));
    LookupFirst(inner, "currency");
  }

  lemma RangeExampleText()
    ensures "\U{A3}" + "1000" + " - " + "\U{A3}" + "2000" + " " + "YEAR" == "\U{A3}1000 - \U{A3}2000 YEAR"
  {
  }

  /** `{"baseSalary": {"value": {"minValue": 50000}, "currency": "USD"}}`: one amount and an empty unit. */
  lemma SalaryMinimumExample()
    ensures ExtractSalary(Obj([("baseSalary", Obj([
      ("value", Obj([("minValue", Num(50000.0, "50000"))])),
      ("currency", Str("USD"))]))])) == Some("$50000 ")
  {
    var inner := [("minValue", Num(50000.0, "50000"))];
    var root := Obj([("value", Obj(inner)), ("currency", Str("USD"))]);
    MinimumExampleParts(inner, root);
    var posting := Obj([("baseSalary", root)]);
    assert Field(posting, "baseSalary") == Some(root);
    assert ExtractSalary(posting) == Some("$" + "50000" + " " + "");
    assert "$" + "50000" + " " + "" == "$50000 ";
  }

  lemma MinimumExampleParts(inner: seq<(string, Json)>, root: Json)
    requires inner == [("minValue", Num(50000.0, "50000"))]
    requires root == Obj([("value", Obj(inner)), ("currency", Str("USD"))])
    ensures SalaryMin(root) == Some(Num(50000.0, "50000"))
    ensures !Given(Merged(root, "maxValue"))
    ensures SalarySymbol(root) == "$" && SalaryUnit(root) == ""
  {
    assert Field(root, "value") == Some(Obj(inner));
    LookupFirst(inner, "maxValue");
    assert Lookup(inner, "maxValue") == None;
    LookupFirst(inner, "unitText");
    assert Lookup(inner, "unitText") == None;
    LookupFirst(inner, "currency");
    assert Lookup(inner, "currency") == None;
    assert Field(root, "currency") == Some(Str("USD")) by {
      assert root.fields[1..][0].0 == "currency";
      assert Lookup(root.fields[1..], "currency") == Some(Str("USD"));
    }
    LookupFirst(root.fields, "maxValue");
    assert Field(root, "maxValue") == None;
    LookupFirst(root.fields, "unitText");
    assert Field(root, "unitText") == None;
  }

  /**
   * A bound of `0` is falsy, and `flat.value` falls back to the nested object itself, so
   * `{"value": {"minValue": 0, "maxValue": 10}}` shows that object as the lower bound.
   */
  lemma ZeroBoundExample()
    ensures ExtractSalary(Obj([("baseSalary", Obj([
      ("value", Obj([("minValue", Num(0.0, "0")), ("maxValue", Num(10.0, "10"))]))]))])) ==
      Some("\U{A3}[object Object] - \U{A3}10 ")
  {
    var inner := [("minValue", Num(0.0, "0")), ("maxValue", Num(10.0, "10"))];
    var root := Obj([("value", Obj(inner))]);
    ZeroBoundParts(inner, root);
    var posting := Obj([("baseSalary", root)]);
    assert Field(posting, "baseSalary") == Some(root);
    assert Given(SalaryMin(root)) && Given(Merged(root, "maxValue"));
    assert ExtractSalary(posting) == Some("\U{A3}" + "[object Object]" + " - " + "\U{A3}" + "10" + " " + "");
    ZeroBoundText();
  }

  lemma ZeroBoundParts(inner: seq<(string, Json)>, root: Json)
    requires inner == [("minValue", Num(0.0, "0")), ("maxValue", Num(10.0, "10"))]
    requires root == Obj([("value", Obj(inner))])
    ensures SalaryMin(root) == Some(Obj(inner))
    ensures Merged(root, "maxValue") == Some(Num(10.0, "10"))
    ensures SalarySymbol(root) == "\U{A3}" && SalaryUnit(root) == ""
  {
    assert Field(root, "value") == Some(Obj(inner));
    LookupFirst(inner, "value");
    assert Lookup(inner, "value") == None;
    assert Merged(root, "value") == Some(Obj(inner));
    assert Lookup(inner, "maxValue") == Some(Num(10.0, "10")) by {
      assert inner[1..][0].0 == "maxValue";
    }
    LookupFirst(inner, "unitText");
    assert Lookup(inner, "unitText") == None;
    LookupFirst(inner, "currency");
    assert Lookup(inner, "currency") == None;
    LookupFirst(root.fields, "currency");
    assert Field(root, "currency") == None;
    LookupFirst(root.fields, "unitText");
    assert Field(root, "unitText") == None;
  }

  lemma ZeroBoundText()
    ensures "\U{A3}" + "[object Object]" + " - " + "\U{A3}" + "10" + " " + "" == "\U{A3}[object Object] - \U{A3}10 "
  {
  }

  // ---------------------------------------------------------------------------
  // JSON-LD block selection
  // ---------------------------------------------------------------------------

  /** `d["@type"] === "JobPosting"`. */
  predicate IsPosting(j: Json) {
    Field(j, "@type") == Some(Str("JobPosting"))
  }

  /** An element the callback of `find` can inspect: anything but `null`. */
  predicate Inspectable(j: Json) {
    !j.Null?
  }

  /**
   * Element `i` is what `find` returns: a posting, after elements that are neither
   * postings nor `null`.
   */
  predicate FoundAt(graph: seq<Json>, i: int) {
    && 0 <= i < |graph|
    && IsPosting(graph[i])
    && forall j :: 0 <= j < i ==> Inspectable(graph[j]) && !IsPosting(graph[j])
  }

  /**
   * Finding the posting in an `@graph` with `find`. A `null` element met before any
   * posting makes the callback throw, which ends the block without a result.
   */
  function FindPosting(graph: seq<Json>): (r: Option<Json>)
    ensures r.Some? ==> IsPosting(r.value) && r.value in graph
  {
    if |graph| == 0 || graph[0].Null? then None
    else if IsPosting(graph[0]) then Some(graph[0])
    else FindPosting(graph[1..])
  }

  /**
   * `find` returns the first posting of the graph when no `null` comes before it, and
   * nothing otherwise.
   */
  lemma {:induction false} FindPostingFirst(graph: seq<Json>)
    ensures FindPosting(graph).Some? ==> exists i :: FoundAt(graph, i) && FindPosting(graph).value == graph[i]
    ensures FindPosting(graph).None? ==> forall i :: !FoundAt(graph, i)
  {
    if |graph| > 0 && !graph[0].Null? && !IsPosting(graph[0]) {
      var rest := graph[1..];
      FindPostingFirst(rest);
      if FindPosting(graph).Some? {
        var i :| FoundAt(rest, i) && FindPosting(rest).value == rest[i];
        assert FoundAt(graph, i + 1);
      } else {
        forall i | 0 <= i < |graph| ensures !FoundAt(graph, i) {
          if i > 0 && FoundAt(graph, i) {
            assert FoundAt(rest, i - 1);
          }
        }
      }
    } else if |graph| > 0 && !graph[0].Null? {
      assert FoundAt(graph, 0);
    }
  }

  /**
   * What one `<script type="application/ld+json">` contributes: the block itself when it
   * is a posting, else the first posting of its `@graph`. A block that does not parse,
   * is `null`, has a truthy non-array `@graph` or a `null` graph element before the
   * posting throws inside the `try` and contributes nothing.
   */
  function FromBlock(block: Option<Json>): (r: Option<Json>)
    ensures r.Some? ==> IsPosting(r.value)
    ensures block.Some? && IsPosting(block.value) ==> r == block
    ensures block.Some? && !IsPosting(block.value) ==>
      match Field(block.value, "@graph")
      case Some(Arr(items)) => r == FindPosting(items)
      case _ => r.None?
    ensures block.None? ==> r.None?
  {
    if block.None? || block.value.Null? then None
    else
      var d := block.value;
      if IsPosting(d) then Some(d)
      else
        var g := Field(d, "@graph");
        if !Given(g) || !g.value.Arr? then None
        else FindPosting(g.value.items)
  }

  /** Block `i` is the first block that contributes a posting. */
  predicate ChosenAt(blocks: seq<Option<Json>>, i: int) {
    && 0 <= i < |blocks|
    && FromBlock(blocks[i]).Some?
    && forall j :: 0 <= j < i ==> FromBlock(blocks[j]).None?
  }

  /** The contribution of the first block that has one: `getJsonLd`. */
  function FirstPosting(blocks: seq<Option<Json>>): (r: Option<Json>)
    ensures r.Some? ==> IsPosting(r.value)
    ensures r.Some? ==> exists i :: ChosenAt(blocks, i) && FromBlock(blocks[i]) == r
    ensures r.None? <==> forall i :: 0 <= i < |blocks| ==> FromBlock(blocks[i]).None?
  {
    if |blocks| == 0 then None
    else if FromBlock(blocks[0]).Some? then
      assert ChosenAt(blocks, 0);
      FromBlock(blocks[0])
    else
      var r := FirstPosting(blocks[1..]);
      assert forall i :: 1 <= i < |blocks| ==> blocks[1..][i - 1] == blocks[i];
      if r.Some? then
        var i :| ChosenAt(blocks[1..], i) && FromBlock(blocks[1..][i]) == r;
        assert ChosenAt(blocks, i + 1);
        r
      else r
  }

  /** `getJsonLd`: the scan over the parsed script blocks, returning at the first posting. */
  method SelectJobPosting(blocks: seq<Option<Json>>) returns (r: Option<Json>)
    ensures r == FirstPosting(blocks)
  {
    var i := 0;
    while i < |blocks|
      invariant 0 <= i <= |blocks|
      invariant FirstPosting(blocks) == FirstPosting(blocks[i..])
    {
      var found := FromBlock(blocks[i]);
      if found.Some? {
        return found;
      }
      assert blocks[i..][1..] == blocks[i + 1..];
      i := i + 1;
    }
    return None;
  }
}
