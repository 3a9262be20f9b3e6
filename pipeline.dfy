/**
 * The per-file pipeline: process_pdf (extract, then map) and the part of
 * append_to_excel that decides what is forwarded and what row is written.
 * The remote services are black boxes: their replies are inputs, and the
 * calls the pipeline makes on the outside world are returned as effects.
 */
module Pipeline {
  import opened Wrappers
  import opened JsonValue
  import opened DocumentLines
  import opened Flatten
  import opened DayFolder

  /**
   * call_document_extract_api: None after a request error, the decoded body
   * otherwise. Opening the file happens inside a handler that only catches
   * request errors, so a file that cannot be opened (deleted or locked since
   * the readiness check) makes the call raise: `ExtractRaised`.
   */
  datatype ExtractReply = ExtractFailed | ExtractRaised | Extracted(body: Json)

  /**
   * The mapping service's `requests.get(url).json()`: a raised request or
   * decoding error, or the decoded body (whatever the HTTP status, since no
   * status check is made).
   */
  datatype MapReply = MapFailed | MapBody(body: Json)

  /** How process_pdf ends: it returns None, it raises, or it returns the mapped payload. */
  datatype PdfOutcome = Skipped | Raised | Mapped(data: Json)

  /** What the watcher does to the outside world, in order. */
  datatype Effect =
    | ObserverStarted(folder: Path)
    | ObserverStopped(folder: Path)
    | Submitted(path: Path)        // process_pdf is called for the file
    | Posted(invoice: Invoice)     // post_to_sap is called
    | Appended(row: Record)        // the row is handed to the spreadsheet writer

  /** `extracted_data["data"][0]["document_id"]`, or None where that indexing raises. */
  function DocumentId(body: Json): (r: Option<Json>)
    ensures r.Some? ==> body.JObject? && Lookup(body.fields, "data").Some? &&
                        var data := Lookup(body.fields, "data").value;
                        data.JList? && |data.items| > 0 && data.items[0].JObject? &&
                        Lookup(data.items[0].fields, "document_id") == r
    ensures (body.JObject? && Lookup(body.fields, "data").Some? &&
             var data := Lookup(body.fields, "data").value;
             data.JList? && |data.items| > 0 && data.items[0].JObject? &&
             HasKey(data.items[0].fields, "document_id")) ==> r.Some?
  {
    if !body.JObject? then None
    else
      var data: Option<Json> := Lookup(body.fields, "data");
      if data.Some? && data.value.JList? && |data.value.items| > 0 && data.value.items[0].JObject?
      then Lookup(data.value.items[0].fields, "document_id")
      else None
  }

  /** `raw_response['mapped_result']`, or None where that indexing raises. */
  function MappedResult(raw: Json): (r: Option<Json>)
    ensures r.Some? <==> raw.JObject? && HasKey(raw.fields, "mapped_result")
    ensures r.Some? ==> Lookup(raw.fields, "mapped_result") == r
  {
    if raw.JObject? then Lookup(raw.fields, "mapped_result") else None
  }

  /**
   * process_pdf: a failed or falsy extraction ends it with None before the
   * mapping service is asked; otherwise map_incoming_data either raises or
   * yields the mapped payload (a falsy document id is only logged).
   */
  function ProcessPdf(extract: ExtractReply, mapper: Json -> MapReply): (r: PdfOutcome)
    ensures r.Skipped? <==> extract.ExtractFailed? || (extract.Extracted? && !Truthy(extract.body))
    ensures extract.ExtractRaised? ==> r.Raised?
    ensures r.Mapped? <==>
              extract.Extracted? && Truthy(extract.body) && DocumentId(extract.body).Some? &&
              mapper(DocumentId(extract.body).value).MapBody? &&
              MappedResult(mapper(DocumentId(extract.body).value).body).Some?
    ensures r.Mapped? ==> Some(r.data) == MappedResult(mapper(DocumentId(extract.body).value).body)
  {
    match extract
    case ExtractFailed => Skipped
    case ExtractRaised => Raised
    case Extracted(body) =>
      if !Truthy(body) then Skipped
      else
        match DocumentId(body)
        case None => Raised
        case Some(id) =>
          match mapper(id)
          case MapFailed => Raised
          case MapBody(raw) =>
            match MappedResult(raw)
            case None => Raised
            case Some(data) => Mapped(data)
  }

  /**
   * What append_to_excel does with a mapped payload. It first creates the
   * output folder; `folderMade` says whether os.makedirs succeeds, and when it
   * raises the error is caught and nothing is done. Then, when the invoice can
   * be built it is posted, and the flattened row is written whatever the
   * post's outcome (its errors are caught and its reply is discarded); when
   * building the invoice raises, the error is caught and nothing is done.
   */
  function ExcelEffects(data: Json, folderMade: bool): seq<Effect>
  {
    if !folderMade then []
    else match InvoiceFor(data)
    case None => []
    case Some(inv) => [Posted(inv), Appended(FlattenDict(data.fields, ""))]
  }

  /** The effects of one call of process_pdf and, when it returns data, of append_to_excel. */
  function PdfEffects(outcome: PdfOutcome, folderMade: bool): seq<Effect>
  {
    if outcome.Mapped? then ExcelEffects(outcome.data, folderMade) else []
  }

  /**
   * append_to_excel on the mapped payload: creates the output folder, builds
   * the lines in a loop, posts, then writes the row.
   */
  method AppendToExcel(data: Json, folderMade: bool) returns (effects: seq<Effect>)
    ensures effects == ExcelEffects(data, folderMade)
  {
    if !folderMade || !data.JObject? {
      return [];
    }
    var lines := BuildDocumentLines(data.fields);
    if lines.None? {
      return [];
    }
    var invoice := Invoice(GetOr(data.fields, "CardCode", JStr("")), lines.value);
    effects := [Posted(invoice)];
    var row := FlattenDict(data.fields, "");
    effects := effects + [Appended(row)];
  }

  /** After a failed or falsy extraction, nothing is posted and nothing is written. */
  lemma NothingAfterExtractFailure(extract: ExtractReply, mapper: Json -> MapReply, folderMade: bool)
    requires !extract.Extracted? || !Truthy(extract.body)
    ensures PdfEffects(ProcessPdf(extract, mapper), folderMade) == []
  {
  }

  /** A row is written only when process_pdf returned data, and the row is the flattened payload. */
  lemma AppendOnlyWithData(extract: ExtractReply, mapper: Json -> MapReply, folderMade: bool, e: Effect)
    requires e in PdfEffects(ProcessPdf(extract, mapper), folderMade) && e.Appended?
    ensures ProcessPdf(extract, mapper).Mapped?
    ensures e.row == FlattenDict(ProcessPdf(extract, mapper).data.fields, "")
  {
    var outcome := ProcessPdf(extract, mapper);
    if outcome.Mapped? {
      ExcelRowIsFlattened(outcome.data, folderMade, e);
    }
  }

  /** The row append_to_excel writes is the payload flattened. */
  lemma ExcelRowIsFlattened(data: Json, folderMade: bool, e: Effect)
    requires e in ExcelEffects(data, folderMade) && e.Appended?
    ensures data.JObject? && e.row == FlattenDict(data.fields, "")
  {
    var inv := InvoiceFor(data);
    assert inv.Some?;
    assert ExcelEffects(data, folderMade) == [Posted(inv.value), Appended(FlattenDict(data.fields, ""))];
  }

  /**
   * A post is always followed by the row write, and the row is written only
   * after a post: the forwarder's failure does not stop the spreadsheet write.
   * Nothing is done exactly when the output folder cannot be created or the
   * invoice cannot be built.
   */
  lemma PostThenAppend(data: Json, folderMade: bool)
    ensures var es := ExcelEffects(data, folderMade);
            es == [] || (|es| == 2 && es[0].Posted? && es[1] == Appended(FlattenDict(data.fields, "")))
    ensures ExcelEffects(data, folderMade) == [] <==> !folderMade || InvoiceFor(data).None?
  {
  }

  /**
   * The end-to-end case: extraction yields document 42, the mapping yields
   * `{"CardCode":"C1","DocumentLines":[{"ItemCode":"I1","UoMEntry":5,"TaxCode":"T1"}]}`;
   * with the output folder created, the forwarder receives exactly that
   * object and one row is written.
   */
  lemma EndToEndExample(mapper: Json -> MapReply)
    requires mapper(JInt(42)) == MapBody(JObject([("mapped_result", ExampleMapped())]))
    ensures var outcome := ProcessPdf(Extracted(ExampleExtractBody()), mapper);
            outcome == Mapped(ExampleMapped()) &&
            |PdfEffects(outcome, true)| == 2 &&
            PdfEffects(outcome, true)[0].Posted? &&
            InvoiceJson(PdfEffects(outcome, true)[0].invoice) == ExampleMapped() &&
            PdfEffects(outcome, true)[1].Appended?
  {
    var body := ExampleExtractBody();
    var mapped := ExampleMapped();
    assert DocumentId(body) == Some(JInt(42)) by {
      assert Lookup(body.fields, "data") == Some(JList([JObject([("document_id", JInt(42))])]));
    }
    assert ProcessPdf(Extracted(body), mapper) == Mapped(mapped);
    var inv := ExampleInvoice();
    assert PdfEffects(Mapped(mapped), true) == [Posted(inv), Appended(FlattenDict(mapped.fields, ""))];
  }

  /** The invoice built from the mapped payload of the end-to-end case is posted as that same JSON object. */
  lemma ExampleInvoice() returns (inv: Invoice)
    ensures InvoiceFor(ExampleMapped()) == Some(inv)
    ensures InvoiceJson(inv) == ExampleMapped()
  {
    var mapped := ExampleMapped();
    var norm := ExampleLines();
    assert Lookup(mapped.fields, "CardCode") == Some(JStr("C1"));
    inv := Invoice(JStr("C1"), [norm]);
    assert InvoiceJson(inv) == mapped by {
      var posted := seq(|inv.documentLines|, i requires 0 <= i < |inv.documentLines| =>
                          JObject(LineFields(inv.documentLines[i])));
      assert |posted| == 1 && posted[0] == JObject(ExampleLine());
      assert posted == [JObject(ExampleLine())];
    }
  }

  /** The one mapped line of the end-to-end case is already in normal form. */
  lemma ExampleLines() returns (norm: DocumentLine)
    ensures DocumentLinesOf(ExampleMapped().fields) == Some([norm])
    ensures LineFields(norm) == ExampleLine()
  {
    var mapped := ExampleMapped();
    var line := ExampleLine();
    norm := DocumentLine(JStr("I1"), JInt(5), JStr("T1"));
    ExampleLineIsNormal();
    assert mapped.fields[1..] == [("DocumentLines", JList([JObject(line)]))];
    assert GetOr(mapped.fields, "DocumentLines", JList([])) == JList([JObject(line)]);
    assert Iterate(JList([JObject(line)])) == Some([JObject(line)]);
    assert [JObject(line)][..0] == [];
    assert NormalizedLines([JObject(line)]) == Some([] + [norm]);
    assert [] + [norm] == [norm];
  }

  lemma ExampleLineIsNormal()
    ensures NormalizeLine(ExampleLine()) == DocumentLine(JStr("I1"), JInt(5), JStr("T1"))
  {
    var line := ExampleLine();
    var l := NormalizeLine(line);
    NormalizeLineFields(line);
    assert l.itemCode == JStr("I1") by {
      assert HasKey(line, "ItemCode") && Lookup(line, "ItemCode") == Some(JStr("I1"));
    }
    assert l.uomEntry == JInt(5) by {
      assert line[1..] == [("UoMEntry", JInt(5)), ("TaxCode", JStr("T1"))];
      assert Lookup(line, "UoMEntry") == Some(JInt(5));
      assert Get(line, "UoMEntry") == JInt(5);
    }
    assert l.taxCode == JStr("T1") by {
      assert line[1..][1..] == [("TaxCode", JStr("T1"))];
      assert Lookup(line, "TaxCode") == Some(JStr("T1"));
      assert HasKey(line, "TaxCode");
    }
  }

  /** The extraction reply of the end-to-end case: `{"data": [{"document_id": 42}]}`. */
  function ExampleExtractBody(): Json
  {
    JObject([("data", JList([JObject([("document_id", JInt(42))])]))])
  }

  /** The mapped payload of the end-to-end case. */
  function ExampleMapped(): Json
  {
    JObject([("CardCode", JStr("C1")), ("DocumentLines", JList([JObject(ExampleLine())]))])
  }

  function ExampleLine(): Fields
  {
    [("ItemCode", JStr("I1")), ("UoMEntry", JInt(5)), ("TaxCode", JStr("T1"))]
  }
}
