/**
 * flatten_dict, the function append_to_excel uses to turn the mapped payload
 * into one spreadsheet row: nested dict keys are joined with "_", lists become
 * text, and a `line_items` list is spread over `line_item_<n>_<field>` columns.
 * The row is a list of (column, cell) pairs in column order.
 */
module Flatten {
  import opened Wrappers
  import opened JsonValue
  import opened Digits

  /**
   * A cell of the row. `ListText(xs)` stands for `str(xs)`, Python's rendering
   * of a list; the model keeps the list instead of spelling out that text.
   */
  datatype Cell = Plain(value: Json) | ListText(items: seq<Json>)

  type Record = seq<(string, Cell)>

  /** The default `sep` of flatten_dict. */
  const SEP := "_"

  /** The separator used to join a list of strings. */
  const LIST_SEP := "; "

  const LINE_ITEMS_KEY := "line_items"

  const LINE_ITEM_PREFIX := "line_item_"

  /** `sep.join(parts)`. */
  function JoinStrings(parts: seq<string>, sep: string): (r: string)
    ensures parts == [] ==> r == ""
    ensures |parts| == 1 ==> r == parts[0]
    ensures |parts| >= 1 ==> |r| >= |parts[0]| && r[..|parts[0]|] == parts[0]
    ensures |parts| >= 2 ==> |r| >= |parts[0]| + |sep| && r[|parts[0]|..|parts[0]| + |sep|] == sep
  {
    if parts == [] then ""
    else if |parts| == 1 then parts[0]
    else parts[0] + sep + JoinStrings(parts[1..], sep)
  }

  predicate AllStrings(xs: seq<Json>)
  {
    forall i :: 0 <= i < |xs| ==> xs[i].JStr?
  }

  function Texts(xs: seq<Json>): (ts: seq<string>)
    requires AllStrings(xs)
    ensures |ts| == |xs| && forall i :: 0 <= i < |xs| ==> xs[i] == JStr(ts[i])
  {
    seq(|xs|, i requires 0 <= i < |xs| => xs[i].s)
  }

  /**
   * The cell of a value that is not flattened further: a list made only of
   * strings (the empty list included) is joined with "; ", any other list is
   * rendered with str(), every other value is kept as it is.
   */
  function LeafCell(v: Json): Cell
  {
    if v.JList? then
      if AllStrings(v.items) then Plain(JStr(JoinStrings(Texts(v.items), LIST_SEP))) else ListText(v.items)
    else Plain(v)
  }

  /** A list never reaches the row as a list, and only a dict that was given reaches it as a dict. */
  lemma LeafCellShape(v: Json)
    ensures !(LeafCell(v).Plain? && LeafCell(v).value.JList?)
    ensures LeafCell(v).Plain? && LeafCell(v).value.JObject? ==> v.JObject?
    ensures v.JList? && v.items == [] ==> LeafCell(v) == Plain(JStr(""))
    ensures v.JList? && !AllStrings(v.items) ==> LeafCell(v) == ListText(v.items)
  {
  }

  /** The key of a child: `f"{parent_key}{sep}{k}" if parent_key else k` (an empty parent is falsy). */
  function ChildKey(parent: string, k: string): (key: string)
    ensures parent == "" ==> key == k
    ensures parent != "" ==> |key| == |parent| + |SEP| + |k| && key[..|parent|] == parent &&
                             key[|parent|..|parent| + |SEP|] == SEP && key[|parent| + |SEP|..] == k
  {
    if parent == "" then k else parent + SEP + k
  }

  /** `f"line_item_{n}_{k}"`. */
  function LineItemKey(n: nat, k: string): (key: string)
    ensures IsLineItemKey(key)
  {
    LINE_ITEM_PREFIX + Decimal(n) + SEP + k
  }

  predicate IsLineItemKey(key: string)
  {
    |key| >= |LINE_ITEM_PREFIX| && key[..|LINE_ITEM_PREFIX|] == LINE_ITEM_PREFIX
  }

  /** The columns of one line item, numbered n: one per field, in field order. */
  function ItemFieldCells(fs: Fields, n: nat): (r: Record)
    ensures |r| == |fs|
    ensures forall j :: 0 <= j < |fs| ==> r[j] == (LineItemKey(n, fs[j].0), LeafCell(fs[j].1))
  {
    seq(|fs|, j requires 0 <= j < |fs| => (LineItemKey(n, fs[j].0), LeafCell(fs[j].1)))
  }

  /** The columns contributed by the elements of a `line_items` list from position i on; non-dict elements add none. */
  function LineItemCells(xs: seq<Json>, i: nat): Record
    requires i <= |xs|
    decreases |xs| - i
  {
    if i == |xs| then []
    else
      var here := match xs[i] case JObject(fs) => ItemFieldCells(fs, i + 1) case _ => [];
      here + LineItemCells(xs, i + 1)
  }

  /** Every field of every dict element gets its column, numbered by the element's position plus one. */
  lemma {:induction false} LineItemCellsCover(xs: seq<Json>, i: nat, j: nat, f: nat)
    requires i <= j < |xs| && xs[j].JObject? && f < |xs[j].fields|
    ensures (LineItemKey(j + 1, xs[j].fields[f].0), LeafCell(xs[j].fields[f].1)) in LineItemCells(xs, i)
    decreases j - i
  {
    var here := match xs[i] case JObject(fs) => ItemFieldCells(fs, i + 1) case _ => [];
    assert LineItemCells(xs, i) == here + LineItemCells(xs, i + 1);
    if i < j {
      LineItemCellsCover(xs, i + 1, j, f);
    } else {
      assert here[f] == (LineItemKey(j + 1, xs[j].fields[f].0), LeafCell(xs[j].fields[f].1));
    }
  }

  /**
   * Every line-item column comes from a field of a dict element, numbered by
   * that element's position plus one: elements that are not dicts add nothing.
   */
  lemma {:induction false} LineItemCellOrigin(xs: seq<Json>, i: nat, e: (string, Cell))
    requires i <= |xs| && e in LineItemCells(xs, i)
    ensures exists j, f :: i <= j < |xs| && xs[j].JObject? && 0 <= f < |xs[j].fields| &&
              e == (LineItemKey(j + 1, xs[j].fields[f].0), LeafCell(xs[j].fields[f].1))
    ensures IsLineItemKey(e.0)
    decreases |xs| - i
  {
    var here := match xs[i] case JObject(fs) => ItemFieldCells(fs, i + 1) case _ => [];
    if e in here {
      var f :| 0 <= f < |here| && here[f] == e;
      assert xs[i].JObject? && e == (LineItemKey(i + 1, xs[i].fields[f].0), LeafCell(xs[i].fields[f].1));
    } else {
      LineItemCellOrigin(xs, i + 1, e);
    }
  }

  /** A `line_items` list without dict elements adds no column. */
  lemma {:induction false} NonDictItemsDropped(xs: seq<Json>)
    requires forall j :: 0 <= j < |xs| ==> !xs[j].JObject?
    ensures LineItemCells(xs, 0) == []
  {
    if LineItemCells(xs, 0) != [] {
      LineItemCellOrigin(xs, 0, LineItemCells(xs, 0)[0]);
    }
  }

  /** `d[k] = c` on a dict given as its list of pairs: replaces in place, or appends a new key. */
  function Put(d: Record, k: string, c: Cell): (r: Record)
    ensures |r| == if HasKey(d, k) then |d| else |d| + 1
  {
    if d == [] then [(k, c)]
    else if d[0].0 == k then [(k, c)] + d[1..]
    else
      var rest := Put(d[1..], k, c);
      assert HasKey(d, k) <==> HasKey(d[1..], k) by {
        assert forall i :: 1 <= i < |d| ==> d[i] == d[1..][i - 1];
      }
      [d[0]] + rest
  }

  /** After the assignment the key holds the new cell, other keys keep theirs, and nothing else appears. */
  lemma {:induction false} PutEntries(d: Record, k: string, c: Cell)
    ensures (k, c) in Put(d, k, c)
    ensures forall e :: e in Put(d, k, c) ==> e == (k, c) || e in d
    ensures forall e :: e in d && e.0 != k ==> e in Put(d, k, c)
  {
    if d != [] && d[0].0 != k {
      PutEntries(d[1..], k, c);
      assert d == [d[0]] + d[1..];
    }
  }

  /** Assignment keeps the keys of a dict distinct. */
  lemma {:induction false} PutKeepsDistinct(d: Record, k: string, c: Cell)
    requires DistinctKeys(d)
    ensures DistinctKeys(Put(d, k, c))
  {
    if d != [] && d[0].0 != k {
      var tail := d[1..];
      assert DistinctKeys(tail) by {
        forall i, j | 0 <= i < j < |tail| ensures tail[i].0 != tail[j].0 {
          assert tail[i] == d[i + 1] && tail[j] == d[j + 1];
        }
      }
      PutKeepsDistinct(tail, k, c);
      var rest := Put(tail, k, c);
      PutLeavesOtherKeysOut(tail, k, c, d[0].0) by {
        forall m | 0 <= m < |tail| ensures tail[m].0 != d[0].0 {
          assert tail[m] == d[m + 1];
        }
      }
      var r := Put(d, k, c);
      assert r == [d[0]] + rest;
      forall i, j | 0 <= i < j < |r| ensures r[i].0 != r[j].0 {
        assert r[j] == rest[j - 1];
        if i > 0 {
          assert r[i] == rest[i - 1];
        }
      }
    }
  }

  /** A key that is neither the dict's nor the assigned one is not a key after the assignment. */
  lemma {:induction false} PutLeavesOtherKeysOut(d: Record, k: string, c: Cell, x: string)
    requires x != k && forall m :: 0 <= m < |d| ==> d[m].0 != x
    ensures forall j :: 0 <= j < |Put(d, k, c)| ==> Put(d, k, c)[j].0 != x
  {
    if d != [] && d[0].0 != k {
      var tail := d[1..];
      assert forall m :: 0 <= m < |tail| ==> tail[m].0 != x by {
        forall m | 0 <= m < |tail| ensures tail[m].0 != x {
          assert tail[m] == d[m + 1];
        }
      }
      PutLeavesOtherKeysOut(tail, k, c, x);
      assert Put(d, k, c) == [d[0]] + Put(tail, k, c);
    }
  }

  /** Assigning a key the dict does not hold appends the pair at the end. */
  lemma {:induction false} PutAppendsNewKey(d: Record, k: string, c: Cell)
    requires !HasKey(d, k)
    ensures Put(d, k, c) == d + [(k, c)]
  {
    if d != [] {
      assert d[0].0 != k;
      var tail := d[1..];
      assert !HasKey(tail, k) by {
        forall m | 0 <= m < |tail| ensures tail[m].0 != k {
          assert tail[m] == d[m + 1];
        }
      }
      PutAppendsNewKey(tail, k, c);
      assert d == [d[0]] + tail;
    }
  }

  /**
   * `dict(items)`: keys in order of first appearance (DictOfKeyOrder), each
   * with the value of its last appearance (DictOfKeepsLast).
   */
  function DictOf(items: Record): (r: Record)
    ensures DistinctKeys(r)
    ensures forall e :: e in r ==> e in items
  {
    if items == [] then []
    else
      var init := items[..|items| - 1];
      var last := items[|items| - 1];
      var prev := DictOf(init);
      PutEntries(prev, last.0, last.1);
      PutKeepsDistinct(prev, last.0, last.1);
      assert forall e :: e in init ==> e in items;
      Put(prev, last.0, last.1)
  }

  /** The last pair given for each key is the one the dict keeps. */
  lemma {:induction false} DictOfKeepsLast(items: Record, j: nat)
    requires j < |items|
    requires forall l :: j < l < |items| ==> items[l].0 != items[j].0
    ensures items[j] in DictOf(items)
  {
    var init := items[..|items| - 1];
    var last := items[|items| - 1];
    PutEntries(DictOf(init), last.0, last.1);
    if j < |items| - 1 {
      DictOfKeepsLast(init, j);
      assert items[j] == init[j];
    }
  }

  /** A list of pairs whose keys are already distinct is turned into the same dict, in the same order. */
  lemma {:induction false} DictOfDistinct(items: Record)
    requires DistinctKeys(items)
    ensures DictOf(items) == items
  {
    if items != [] {
      var init := items[..|items| - 1];
      var last := items[|items| - 1];
      assert DistinctKeys(init) by {
        forall i, j | 0 <= i < j < |init| ensures init[i].0 != init[j].0 {
          assert init[i] == items[i] && init[j] == items[j];
        }
      }
      DictOfDistinct(init);
      assert !HasKey(init, last.0) by {
        forall i | 0 <= i < |init| ensures init[i].0 != last.0 {
          assert init[i] == items[i];
        }
      }
      PutAppendsNewKey(init, last.0, last.1);
      assert items == init + [last];
    }
  }

  /** Assigning a key the dict already holds leaves its keys and their order unchanged. */
  lemma {:induction false} PutKeepsKeys(d: Record, k: string, c: Cell)
    requires HasKey(d, k)
    ensures Keys(Put(d, k, c)) == Keys(d)
  {
    if d[0].0 != k {
      var tail := d[1..];
      assert HasKey(tail, k) by {
        var m :| 0 <= m < |d| && d[m].0 == k;
        assert tail[m - 1] == d[m];
      }
      PutKeepsKeys(tail, k, c);
      assert Put(d, k, c) == [d[0]] + Put(tail, k, c);
    }
  }

  /** Each key of `ks` once, at the position of its first appearance. */
  function FirstAppearances(ks: seq<string>): (r: seq<string>)
    ensures forall k :: k in r <==> k in ks
  {
    if ks == [] then []
    else
      var init := ks[..|ks| - 1];
      var k := ks[|ks| - 1];
      assert forall x :: x in ks <==> x in init || x == k;
      FirstAppearances(init) + (if k in init then [] else [k])
  }

  /** `dict(items)` lists its keys in the order of their first appearance in `items`. */
  lemma {:induction false} DictOfKeyOrder(items: Record)
    ensures Keys(DictOf(items)) == FirstAppearances(Keys(items))
  {
    if items != [] {
      var init := items[..|items| - 1];
      var last := items[|items| - 1];
      var prev := DictOf(init);
      DictOfKeyOrder(init);
      KeysAppend(init, last);
      assert items == init + [last];
      var ks := Keys(items);
      assert ks[..|ks| - 1] == Keys(init) && ks[|ks| - 1] == last.0;
      var firsts := FirstAppearances(Keys(init));
      assert FirstAppearances(ks) == firsts + (if last.0 in Keys(init) then [] else [last.0]);
      KeysNameKeys(prev, last.0);
      assert HasKey(prev, last.0) <==> last.0 in Keys(init);
      if HasKey(prev, last.0) {
        PutKeepsKeys(prev, last.0, last.1);
      } else {
        PutAppendsNewKey(prev, last.0, last.1);
        KeysAppend(prev, (last.0, last.1));
      }
    }
  }

  lemma KeysAppend(d: Record, x: (string, Cell))
    ensures Keys(d + [x]) == Keys(d) + [x.0]
  {
    var l := Keys(d + [x]);
    assert forall i :: 0 <= i < |d| ==> l[i] == (d + [x])[i].0 == d[i].0;
  }

  lemma KeysNameKeys(d: Record, k: string)
    ensures HasKey(d, k) <==> k in Keys(d)
  {
    if HasKey(d, k) {
      var m :| 0 <= m < |d| && d[m].0 == k;
      assert Keys(d)[m] == k;
    }
  }

  /** flatten_dict's `items` list for the fields of `d` from position i on. */
  function FlattenFrom(fs: Fields, parent: string, i: nat): Record
    requires i <= |fs|
    decreases JObject(fs), |fs| - i
  {
    if i == |fs| then []
    else FieldPairs(parent, fs[i].0, fs[i].1) + FlattenFrom(fs, parent, i + 1)
  }

  /**
   * The pairs field `k: v` adds to the `items` list under `parent`: the
   * line-item columns of a `line_items` list, the pairs of the flattened child
   * dict (under the joined key), or the joined key with the value's leaf cell.
   */
  function FieldPairs(parent: string, k: string, v: Json): Record
    decreases v, if v.JObject? then |v.fields| + 1 else 0
  {
    if k == LINE_ITEMS_KEY && v.JList? then LineItemCells(v.items, 0)
    else if v.JObject? then DictOf(FlattenFrom(v.fields, ChildKey(parent, k), 0))
    else [(ChildKey(parent, k), LeafCell(v))]
  }

  /** Every pair of the `items` list from position i on is contributed by one of those fields. */
  lemma {:induction false} FlattenFromOrigin(fs: Fields, parent: string, i: nat, e: (string, Cell))
    requires i <= |fs| && e in FlattenFrom(fs, parent, i)
    ensures exists m :: i <= m < |fs| && e in FieldPairs(parent, fs[m].0, fs[m].1)
    decreases |fs| - i
  {
    if e !in FieldPairs(parent, fs[i].0, fs[i].1) {
      FlattenFromOrigin(fs, parent, i + 1, e);
    }
  }

  /** Every pair a field from position i on contributes is in the `items` list. */
  lemma FlattenFromCovers(fs: Fields, parent: string, i: nat, m: nat, e: (string, Cell))
    requires i <= m < |fs| && e in FieldPairs(parent, fs[m].0, fs[m].1)
    ensures e in FlattenFrom(fs, parent, i)
  {
    FlattenFromTail(fs, parent, i, m);
    var a := FlattenFrom(fs, parent, i);
    var b := FlattenFrom(fs, parent, m);
    var here := FieldPairs(parent, fs[m].0, fs[m].1);
    assert b == here + FlattenFrom(fs, parent, m + 1);
    var j :| 0 <= j < |here| && here[j] == e;
    assert b[j] == e;
    assert a[|a| - |b| + j] == e;
  }

  /** The `items` list from a later position is a tail of the one from position i. */
  lemma {:induction false} FlattenFromTail(fs: Fields, parent: string, i: nat, m: nat)
    requires i <= m <= |fs|
    ensures var a, b := FlattenFrom(fs, parent, i), FlattenFrom(fs, parent, m);
            |b| <= |a| && a[|a| - |b|..] == b
    decreases m - i
  {
    if i < m {
      FlattenFromTail(fs, parent, i + 1, m);
      var a, a1, b := FlattenFrom(fs, parent, i), FlattenFrom(fs, parent, i + 1), FlattenFrom(fs, parent, m);
      assert a[|a| - |b|..] == a1[|a1| - |b|..];
    }
  }

  /**
   * The row of flatten_dict: every column comes from one of the fields, and a
   * pair of the `items` list that no later pair overrides is in the row.
   */
  lemma FlattenDictCells(fs: Fields, parent: string)
    ensures forall e :: e in FlattenDict(fs, parent) ==> exists m :: 0 <= m < |fs| && e in FieldPairs(parent, fs[m].0, fs[m].1)
    ensures var items := FlattenFrom(fs, parent, 0);
            forall j :: 0 <= j < |items| && (forall l :: j < l < |items| ==> items[l].0 != items[j].0) ==>
              items[j] in FlattenDict(fs, parent)
  {
    var items := FlattenFrom(fs, parent, 0);
    forall e | e in FlattenDict(fs, parent)
      ensures exists m :: 0 <= m < |fs| && e in FieldPairs(parent, fs[m].0, fs[m].1)
    {
      FlattenFromOrigin(fs, parent, 0, e);
    }
    forall j | 0 <= j < |items| && (forall l :: j < l < |items| ==> items[l].0 != items[j].0)
      ensures items[j] in FlattenDict(fs, parent)
    {
      DictOfKeepsLast(items, j);
    }
  }

  /** A field that is neither a dict nor a `line_items` list contributes its joined key with its leaf cell. */
  lemma LeafFieldFlattened(fs: Fields, parent: string, m: nat)
    requires m < |fs| && !fs[m].1.JObject? && !(fs[m].0 == LINE_ITEMS_KEY && fs[m].1.JList?)
    ensures (ChildKey(parent, fs[m].0), LeafCell(fs[m].1)) in FlattenFrom(fs, parent, 0)
  {
    FlattenFromCovers(fs, parent, 0, m, (ChildKey(parent, fs[m].0), LeafCell(fs[m].1)));
  }

  /** flatten_dict(d, parent_key): the dict built from its `items` list. */
  function FlattenDict(fs: Fields, parent: string): (r: Record)
    ensures DistinctKeys(r)
  {
    DictOf(FlattenFrom(fs, parent, 0))
  }

  /** The row's cells are flat: no list, and a dict only in a `line_item_` column. */
  predicate FlatCell(e: (string, Cell))
  {
    !(e.1.Plain? && e.1.value.JList?) && (e.1.Plain? && e.1.value.JObject? ==> IsLineItemKey(e.0))
  }

  lemma {:induction false} FlattenFromIsFlat(fs: Fields, parent: string, i: nat)
    requires i <= |fs|
    ensures forall e :: e in FlattenFrom(fs, parent, i) ==> FlatCell(e)
    decreases JObject(fs), |fs| - i
  {
    if i < |fs| {
      var k := fs[i].0;
      var v := fs[i].1;
      if k == LINE_ITEMS_KEY && v.JList? {
        forall e | e in LineItemCells(v.items, 0) ensures FlatCell(e) {
          LineItemCellIsFlat(v.items, 0, e);
        }
      } else if v.JObject? {
        FlattenFromIsFlat(v.fields, ChildKey(parent, k), 0);
      } else {
        LeafCellShape(v);
      }
      FlattenFromIsFlat(fs, parent, i + 1);
    }
  }

  lemma {:induction false} LineItemCellIsFlat(xs: seq<Json>, i: nat, e: (string, Cell))
    requires i <= |xs| && e in LineItemCells(xs, i)
    ensures FlatCell(e)
    decreases |xs| - i
  {
    var here := match xs[i] case JObject(fs) => ItemFieldCells(fs, i + 1) case _ => [];
    if e in here {
      var fs := xs[i].fields;
      var j :| 0 <= j < |fs| && here[j] == e;
      LeafCellShape(fs[j].1);
    } else {
      LineItemCellIsFlat(xs, i + 1, e);
    }
  }

  /**
   * The flattened row has distinct columns, no list-valued cell, and no
   * dict-valued cell outside the `line_item_` columns.
   */
  lemma FlattenIsFlat(fs: Fields, parent: string)
    ensures DistinctKeys(FlattenDict(fs, parent))
    ensures forall e :: e in FlattenDict(fs, parent) ==> FlatCell(e)
  {
    FlattenFromIsFlat(fs, parent, 0);
  }

  /** `{a: {b: v}}` with a non-empty `a` and a value that is neither dict nor list gives the single column `a_b`. */
  lemma NestedKeyJoined(a: string, b: string, v: Json)
    requires a != "" && !v.JObject? && !v.JList?
    ensures FlattenDict([(a, JObject([(b, v)]))], "") == [(a + "_" + b, Plain(v))]
  {
    var inner := [(b, v)];
    var cell := (a + "_" + b, Plain(v));
    assert FieldPairs(a, b, v) == [cell];
    assert FlattenFrom(inner, a, 1) == [];
    assert FlattenFrom(inner, a, 0) == [cell];
    DictOfDistinct([cell]);
    assert FieldPairs("", a, JObject(inner)) == [cell];
    assert FlattenFrom([(a, JObject(inner))], "", 1) == [];
    assert FlattenFrom([(a, JObject(inner))], "", 0) == [cell];
  }

  /** A nested line_items list gives `line_item_1_x`, without the prefix of the dict that holds it. */
  lemma LineItemsIgnoreParent(outer: string, x: string, v: Json)
    requires !v.JObject? && !v.JList?
    ensures FlattenDict([(outer, JObject([(LINE_ITEMS_KEY, JList([JObject([(x, v)])]))]))], "") ==
            [("line_item_1_" + x, Plain(v))]
  {
    var item := JObject([(x, v)]);
    var inner := [(LINE_ITEMS_KEY, JList([item]))];
    var outerFields := [(outer, JObject(inner))];
    var cell := ("line_item_1_" + x, Plain(v));
    assert LineItemCells([item], 0) == [cell] by {
      assert Decimal(1) == "1";
      assert LineItemKey(1, x) == "line_item_1_" + x;
      assert ItemFieldCells([(x, v)], 1) == [cell];
      assert LineItemCells([item], 1) == [];
    }
    assert FlattenFrom(inner, outer, 0) == [cell] by {
      assert FlattenFrom(inner, outer, 1) == [];
    }
    DictOfDistinct([cell]);
    assert FlattenFrom(outerFields, "", 1) == [];
    assert FlattenFrom(outerFields, "", 0) == DictOf([cell]);
  }

  /** `{"a": {"b": 1}, "c": ["x", "y"]}` flattens to `{"a_b": 1, "c": "x; y"}`. */
  lemma FlattenExample()
    ensures FlattenDict([("a", JObject([("b", JInt(1))])), ("c", JList([JStr("x"), JStr("y")]))], "") ==
            [("a_b", Plain(JInt(1))), ("c", Plain(JStr("x; y")))]
  {
    var xy := JList([JStr("x"), JStr("y")]);
    var fs := [("a", JObject([("b", JInt(1))])), ("c", xy)];
    var ab := ("a_b", Plain(JInt(1)));
    var c := ("c", Plain(JStr("x; y")));
    assert FlattenFrom(fs, "", 0) == [ab, c] by {
      assert LeafCell(xy) == Plain(JStr("x; y")) by {
        assert Texts(xy.items) == ["x", "y"];
        assert JoinStrings(["x", "y"][1..], LIST_SEP) == "y";
        assert JoinStrings(["x", "y"], LIST_SEP) == "x; y";
      }
      assert DictOf(FlattenFrom([("b", JInt(1))], "a", 0)) == [ab] by {
        assert ChildKey("a", "b") == "a_b";
        assert FlattenFrom([("b", JInt(1))], "a", 1) == [];
        assert FlattenFrom([("b", JInt(1))], "a", 0) == [ab];
        DictOfDistinct([ab]);
      }
      assert FlattenFrom(fs, "", 1) == [c] by {
        assert FlattenFrom(fs, "", 2) == [];
      }
    }
    DictOfDistinct([ab, c]);
  }
}
