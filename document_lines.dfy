/**
 * The invoice builder of append_to_excel: from the mapped payload it builds
 * the object forwarded to the ERP endpoint, `{CardCode, DocumentLines}`, each
 * line reduced to `{ItemCode, UoMEntry, TaxCode}`.
 */
module DocumentLines {
  import opened Wrappers
  import opened JsonValue

  /** The spellings of the unit-of-measure key, in the order they are tried. */
  const UOM_ALIASES: seq<string> := ["UoMEntry", "UomEntry", "uomentry"]

  datatype DocumentLine = DocumentLine(itemCode: Json, uomEntry: Json, taxCode: Json)

  datatype Invoice = Invoice(cardCode: Json, documentLines: seq<DocumentLine>)

  /** Python's `a or b`: `a` when it is truthy, `b` otherwise. */
  function Or(a: Json, b: Json): Json
  {
    if Truthy(a) then a else b
  }

  /**
   * The ordered alias lookup: the value of the first alias whose value is
   * truthy; when none is, the value of the last alias (None if it is absent).
   */
  function AliasLookup(fs: Fields, aliases: seq<string>): Json
    requires |aliases| > 0
  {
    var v := Get(fs, aliases[0]);
    if |aliases| == 1 || Truthy(v) then v else AliasLookup(fs, aliases[1..])
  }

  /** The lookup yields the first truthy alias value, or the last alias's value when none is truthy. */
  lemma {:induction false} AliasLookupFirstTruthy(fs: Fields, aliases: seq<string>, i: nat)
    requires i < |aliases|
    requires forall j :: 0 <= j < i ==> !Truthy(Get(fs, aliases[j]))
    requires Truthy(Get(fs, aliases[i])) || i == |aliases| - 1
    ensures AliasLookup(fs, aliases) == Get(fs, aliases[i])
  {
    if i > 0 {
      assert !Truthy(Get(fs, aliases[0]));
      var rest := aliases[1..];
      assert forall j :: 0 <= j < i - 1 ==> rest[j] == aliases[j + 1];
      AliasLookupFirstTruthy(fs, rest, i - 1);
    }
  }

  /** The alias lookup over the three spellings is the `or` chain written in the source. */
  lemma UomLookupIsOrChain(fs: Fields)
    ensures AliasLookup(fs, UOM_ALIASES) ==
            Or(Or(Get(fs, "UoMEntry"), Get(fs, "UomEntry")), Get(fs, "uomentry"))
  {
    var a := UOM_ALIASES;
    assert a[0] == "UoMEntry" && a[1] == "UomEntry" && a[2] == "uomentry";
    if Truthy(Get(fs, "UoMEntry")) {
      AliasLookupFirstTruthy(fs, a, 0);
    } else if Truthy(Get(fs, "UomEntry")) {
      AliasLookupFirstTruthy(fs, a, 1);
    } else {
      AliasLookupFirstTruthy(fs, a, 2);
    }
  }

  /** One mapped line reduced to the three forwarded fields. */
  function NormalizeLine(fs: Fields): DocumentLine
  {
    DocumentLine(GetOr(fs, "ItemCode", JStr("")), AliasLookup(fs, UOM_ALIASES), GetOr(fs, "TaxCode", JStr("")))
  }

  /**
   * ItemCode and TaxCode are the line's own values, or `""` when absent;
   * UoMEntry is the first truthy of the three spellings, else the last
   * spelling's value.
   */
  lemma NormalizeLineFields(fs: Fields)
    ensures var l := NormalizeLine(fs);
            && (HasKey(fs, "ItemCode") ==> Lookup(fs, "ItemCode") == Some(l.itemCode))
            && (!HasKey(fs, "ItemCode") ==> l.itemCode == JStr(""))
            && (HasKey(fs, "TaxCode") ==> Lookup(fs, "TaxCode") == Some(l.taxCode))
            && (!HasKey(fs, "TaxCode") ==> l.taxCode == JStr(""))
            && (Truthy(Get(fs, "UoMEntry")) ==> l.uomEntry == Get(fs, "UoMEntry"))
            && (!Truthy(Get(fs, "UoMEntry")) && Truthy(Get(fs, "UomEntry")) ==> l.uomEntry == Get(fs, "UomEntry"))
            && (!Truthy(Get(fs, "UoMEntry")) && !Truthy(Get(fs, "UomEntry")) ==> l.uomEntry == Get(fs, "uomentry"))
  {
    UomLookupIsOrChain(fs);
  }

  /** The dict a normalised line is posted as. */
  function LineFields(l: DocumentLine): Fields
  {
    [("ItemCode", l.itemCode), ("UoMEntry", l.uomEntry), ("TaxCode", l.taxCode)]
  }

  /** The JSON body posted to the ERP endpoint. */
  function InvoiceJson(inv: Invoice): Json
  {
    JObject([("CardCode", inv.cardCode),
             ("DocumentLines", JList(seq(|inv.documentLines|, i requires 0 <= i < |inv.documentLines| =>
                                           JObject(LineFields(inv.documentLines[i])))))])
  }

  /** A posted line carries only the first spelling of the unit-of-measure key. */
  lemma LineFieldsOtherSpellings(l: DocumentLine)
    ensures !HasKey(LineFields(l), "UomEntry") && !HasKey(LineFields(l), "uomentry")
  {
    var g := LineFields(l);
    assert g[0].0[0] != "UomEntry"[0] && g[1].0[2] != "UomEntry"[2] && |g[2].0| != |"UomEntry"|;
    assert g[0].0[0] != "uomentry"[0] && g[1].0[0] != "uomentry"[0] && |g[2].0| != |"uomentry"|;
  }

  /**
   * Normalising an already normalised line gives it back, unless its UoMEntry
   * is a falsy value other than None: the `or` chain then falls through to the
   * absent aliases and yields None.
   */
  lemma NormalizeNormalized(fs: Fields)
    ensures var l := NormalizeLine(fs);
            Truthy(l.uomEntry) || l.uomEntry == JNull ==> NormalizeLine(LineFields(l)) == l
  {
    var l := NormalizeLine(fs);
    var g := LineFields(l);
    NormalizeLineFields(g);
    assert g[1..] == [("UoMEntry", l.uomEntry), ("TaxCode", l.taxCode)];
    assert g[1..][1..] == [("TaxCode", l.taxCode)];
    assert Lookup(g[1..][1..], "TaxCode") == Some(l.taxCode);
    assert Lookup(g, "ItemCode") == Some(l.itemCode);
    assert Lookup(g, "UoMEntry") == Some(l.uomEntry);
    assert Lookup(g, "TaxCode") == Some(l.taxCode);
    LineFieldsOtherSpellings(l);
  }

  /** The exception: a falsy `uomentry` such as 0 survives one normalisation but not a second. */
  lemma FalsyLastAliasIsNotStable()
    ensures NormalizeLine([("uomentry", JInt(0))]).uomEntry == JInt(0)
    ensures NormalizeLine(LineFields(NormalizeLine([("uomentry", JInt(0))]))).uomEntry == JNull
  {
    var fs := [("uomentry", JInt(0))];
    assert fs[0].0[0] != "UoMEntry"[0] && fs[0].0[0] != "UomEntry"[0];
    assert Lookup(fs, "uomentry") == Some(JInt(0));
    NormalizeLineFields(fs);
    var l := NormalizeLine(fs);
    var g := LineFields(l);
    NormalizeLineFields(g);
    assert Lookup(g, "UoMEntry") == Some(JInt(0));
    LineFieldsOtherSpellings(l);
  }

  /**
   * What a `for` loop sees when it iterates a JSON value: a list's elements, a
   * dict's keys, a string's characters; None for values Python cannot iterate
   * (None, booleans, numbers), which raise TypeError.
   */
  function Iterate(v: Json): (r: Option<seq<Json>>)
    ensures r.Some? <==> v.JList? || v.JObject? || v.JStr?
    ensures v.JList? ==> r == Some(v.items)
    ensures v.JObject? ==> r.Some? && |r.value| == |v.fields| &&
                           forall i :: 0 <= i < |v.fields| ==> r.value[i] == JStr(v.fields[i].0)
    ensures v.JStr? ==> r.Some? && |r.value| == |v.s| && forall i :: 0 <= i < |v.s| ==> r.value[i] == JStr([v.s[i]])
  {
    match v
    case JList(xs) => Some(xs)
    case JObject(fs) =>
      var ks := Keys(fs);
      Some(seq(|ks|, i requires 0 <= i < |ks| => JStr(ks[i])))
    case JStr(s) => Some(seq(|s|, i requires 0 <= i < |s| => JStr([s[i]])))
    case _ => None
  }

  /** The normalised lines, or None when some element is not a dict (`line.get` raises AttributeError). */
  function NormalizedLines(elems: seq<Json>): (r: Option<seq<DocumentLine>>)
    ensures r.Some? <==> forall i :: 0 <= i < |elems| ==> elems[i].JObject?
    ensures r.Some? ==> |r.value| == |elems| &&
                        forall i :: 0 <= i < |elems| ==> r.value[i] == NormalizeLine(elems[i].fields)
  {
    if elems == [] then Some([])
    else
      var init := elems[..|elems| - 1];
      var last := elems[|elems| - 1];
      match NormalizedLines(init)
      case None =>
        assert exists i :: 0 <= i < |init| && !init[i].JObject?;
        None
      case Some(done) =>
        if last.JObject? then
          var lines := done + [NormalizeLine(last.fields)];
          assert forall i :: 0 <= i < |init| ==> lines[i] == done[i] && init[i] == elems[i];
          Some(lines)
        else None
  }

  /** The lines of `api.get("DocumentLines", [])`, or None when building them raises. */
  function DocumentLinesOf(api: Fields): Option<seq<DocumentLine>>
  {
    match Iterate(GetOr(api, "DocumentLines", JList([])))
    case None => None
    case Some(elems) => NormalizedLines(elems)
  }

  /**
   * The lines are built exactly when `DocumentLines` is missing, or iterable
   * with every element a dict; then there is one normalised line per
   * element, in order.
   */
  lemma DocumentLinesCharacterised(api: Fields)
    ensures var lines := DocumentLinesOf(api);
            lines.Some? <==> !HasKey(api, "DocumentLines") ||
                             (Iterate(Get(api, "DocumentLines")).Some? &&
                              forall e :: e in Iterate(Get(api, "DocumentLines")).value ==> e.JObject?)
    ensures var lines := DocumentLinesOf(api);
            lines.Some? ==> var elems := if HasKey(api, "DocumentLines") then Iterate(Get(api, "DocumentLines")).value else [];
                            |lines.value| == |elems| &&
                            forall i :: 0 <= i < |elems| ==> lines.value[i] == NormalizeLine(elems[i].fields)
  {
    if HasKey(api, "DocumentLines") {
      var it := Iterate(Get(api, "DocumentLines"));
      if it.Some? {
        var elems := it.value;
        assert (forall e :: e in elems ==> e.JObject?) <==> (forall i :: 0 <= i < |elems| ==> elems[i].JObject?);
      }
    }
  }

  /** The loop at the head of append_to_excel that appends one normalised line per mapped line. */
  method BuildDocumentLines(api: Fields) returns (lines: Option<seq<DocumentLine>>)
    ensures lines == DocumentLinesOf(api)
  {
    var source := GetOr(api, "DocumentLines", JList([]));
    var iterated := Iterate(source);
    if iterated.None? {
      return None;
    }
    var elems := iterated.value;
    var acc: seq<DocumentLine> := [];
    var i := 0;
    while i < |elems|
      invariant 0 <= i <= |elems|
      invariant NormalizedLines(elems[..i]) == Some(acc)
    {
      if !elems[i].JObject? {
        return None;
      }
      var upTo := elems[..i + 1];
      assert upTo[..|upTo| - 1] == elems[..i] && upTo[|upTo| - 1] == elems[i];
      acc := acc + [NormalizeLine(elems[i].fields)];
      i := i + 1;
    }
    assert elems[..i] == elems;
    return Some(acc);
  }

  /** The invoice forwarded for a mapped payload, or None when building it raises. */
  function InvoiceFor(data: Json): (r: Option<Invoice>)
    ensures r.Some? ==> data.JObject? && DocumentLinesOf(data.fields) == Some(r.value.documentLines)
    ensures r.Some? ==> (HasKey(data.fields, "CardCode") ==> Lookup(data.fields, "CardCode") == Some(r.value.cardCode))
    ensures r.Some? ==> (!HasKey(data.fields, "CardCode") ==> r.value.cardCode == JStr(""))
    ensures r.None? <==> !data.JObject? || DocumentLinesOf(data.fields).None?
  {
    match data
    case JObject(fs) =>
      (match DocumentLinesOf(fs)
       case None => None
       case Some(lines) => Some(Invoice(GetOr(fs, "CardCode", JStr("")), lines)))
    case _ => None
  }

  /** A line with only `UomEntry: 7` is forwarded with `UoMEntry: 7`; a line with neither spelling gets None. */
  lemma UomExamples()
    ensures NormalizeLine([("UomEntry", JInt(7))]).uomEntry == JInt(7)
    ensures NormalizeLine([("ItemCode", JStr("I1"))]).uomEntry == JNull
  {
    var fs := [("UomEntry", JInt(7))];
    NormalizeLineFields(fs);
    assert !HasKey(fs, "UoMEntry") && Lookup(fs, "UomEntry") == Some(JInt(7));
    var gs := [("ItemCode", JStr("I1"))];
    NormalizeLineFields(gs);
    assert !HasKey(gs, "UoMEntry") && !HasKey(gs, "UomEntry") && !HasKey(gs, "uomentry");
  }
}
