/**
 * The failure files of src/services/failure.service.js: an empty failure
 * list writes nothing and yields `null`; otherwise every entry becomes one
 * record of a `;`-separated file and the file's path is returned. The
 * file system and the clock that names the file are a `write` parameter.
 *
 * Both exports declare the header ids `rowNumber;sku;reason`, but a family
 * failure has no `sku` property: its family code never reaches the file.
 * `AsWrittenFamilyRecordDropsCode` shows this; the exports below use a
 * header per kind, so the key of every failing row is written.
 */
module FailureService {
  import opened Common
  import opened Values

  /** One entry of `familyFailures` or `productFailures`. */
  datatype FailureEntry =
    | FamilyFailure(rowNumber: Value, familyCode: Value, reason: string)
    | ProductFailure(rowNumber: Value, sku: Value, reason: string)

  /** The key the entry carries: the family code or the SKU of the failing row. */
  function Key(e: FailureEntry): Value {
    if e.FamilyFailure? then e.familyCode else e.sku
  }

  /** The property `entry[id]`, undefined when the entry has no such property. */
  function Property(e: FailureEntry, id: string): Value {
    if id == "rowNumber" then e.rowNumber
    else if id == "reason" then Str(e.reason)
    else if id == "familyCode" && e.FamilyFailure? then e.familyCode
    else if id == "sku" && e.ProductFailure? then e.sku
    else Undefined
  }

  /** A field as csv-writer renders it: empty for null and undefined, `String(v)` otherwise. */
  function Cell(v: Value): string {
    if v.Undefined? || v.Null? then "" else ToJsString(v)
  }

  /** One record: the entry's property under each header id, in header order. */
  function Record(header: seq<string>, e: FailureEntry): (r: seq<string>)
    ensures |r| == |header|
    ensures forall i :: 0 <= i < |header| ==> r[i] == Cell(Property(e, header[i]))
    decreases |header|
  {
    if header == [] then [] else [Cell(Property(e, header[0]))] + Record(header[1..], e)
  }

  function Records(header: seq<string>, failures: seq<FailureEntry>): (r: seq<seq<string>>)
    ensures |r| == |failures|
    ensures forall k :: 0 <= k < |failures| ==> r[k] == Record(header, failures[k])
  {
    seq(|failures|, k requires 0 <= k < |failures| => Record(header, failures[k]))
  }

  // ---------------------------------------------------------------------------
  // The header as written, and the header per kind
  // ---------------------------------------------------------------------------

  /** The header ids `writeCSV` declares for both files. */
  const WrittenHeader: seq<string> := ["rowNumber", "sku", "reason"]

  /** Under the written header, a family failure's key column is always empty. */
  lemma AsWrittenFamilyRecordDropsCode(e: FailureEntry)
    requires e.FamilyFailure?
    ensures Record(WrittenHeader, e) == [Cell(e.rowNumber), "", e.reason]
  {
  }

  /** For instance, row 2 with code FAM_WIPERS_001 is written as `2;;Status is required`. */
  lemma AsWrittenFamilyRecordExample()
    ensures Record(WrittenHeader, FamilyFailure(Num(2), Str("FAM_WIPERS_001"), "Status is required"))
            == ["2", "", "Status is required"]
  {
    AsWrittenFamilyRecordDropsCode(FamilyFailure(Num(2), Str("FAM_WIPERS_001"), "Status is required"));
    assert Cell(Num(2)) == "2";
  }

  const FamilyHeader: seq<string> := ["rowNumber", "familyCode", "reason"]
  const ProductHeader: seq<string> := ["rowNumber", "sku", "reason"]

  function HeaderFor(e: FailureEntry): seq<string> {
    if e.FamilyFailure? then FamilyHeader else ProductHeader
  }

  /** With a header per kind, every record carries the row number, the row's key and the reason. */
  lemma RecordKeepsKey(e: FailureEntry)
    ensures Record(HeaderFor(e), e) == [Cell(e.rowNumber), Cell(Key(e)), e.reason]
  {
    var r := Record(HeaderFor(e), e);
    assert r[0] == Cell(e.rowNumber);
    assert r[1] == Cell(Key(e));
    assert r[2] == e.reason;
  }

  // ---------------------------------------------------------------------------
  // The exports
  // ---------------------------------------------------------------------------

  /**
   * Writes a header and its records to a new file and returns the file's
   * path, or the message of the error it throws.
   */
  type Writer = (seq<string>, seq<seq<string>>) -> Result<string, string>

  /**
   * `exportFamilyFailures` / `exportProductFailures`: `null` without writing
   * for an empty list; otherwise one record per failure is written and the
   * path returned, or the write error is rethrown.
   */
  function ExportFailures(header: seq<string>, failures: seq<FailureEntry>, write: Writer)
    : (r: Result<Option<string>, string>)
    ensures failures == [] ==> r == Success(None)
    ensures failures != [] ==> var w := write(header, Records(header, failures));
              && (r.Failure? <==> w.Failure?)
              && (w.Failure? ==> r.error == w.error)
              && (w.Success? ==> r.value == Some(w.value))
    ensures r.Success? ==> (r.value.None? <==> failures == [])
  {
    if failures == [] then Success(None)
    else
      match write(header, Records(header, failures))
      case Success(path) => Success(Some(path))
      case Failure(message) => Failure(message)
  }

  /** Every record of an entry under its kind's own header is the row number, the row's key and the reason. */
  lemma RecordsKeepKeys(header: seq<string>, failures: seq<FailureEntry>)
    ensures forall k :: 0 <= k < |failures| && HeaderFor(failures[k]) == header ==>
              Records(header, failures)[k] == [Cell(failures[k].rowNumber), Cell(Key(failures[k])), failures[k].reason]
  {
    forall k | 0 <= k < |failures| && HeaderFor(failures[k]) == header
      ensures Records(header, failures)[k] == [Cell(failures[k].rowNumber), Cell(Key(failures[k])), failures[k].reason]
    {
      RecordKeepsKey(failures[k]);
    }
  }

  /** `exportFamilyFailures`, lines 44-77, under the family header. */
  function ExportFamilyFailures(failures: seq<FailureEntry>, write: Writer): (r: Result<Option<string>, string>)
    ensures failures == [] ==> r == Success(None)
    ensures failures != [] ==> var w := write(FamilyHeader, Records(FamilyHeader, failures));
              && (r.Failure? <==> w.Failure?)
              && (w.Failure? ==> r.error == w.error)
              && (w.Success? ==> r == Success(Some(w.value)))
    ensures forall k :: 0 <= k < |failures| && failures[k].FamilyFailure? ==>
              Records(FamilyHeader, failures)[k]
              == [Cell(failures[k].rowNumber), Cell(failures[k].familyCode), failures[k].reason]
  {
    RecordsKeepKeys(FamilyHeader, failures);
    ExportFailures(FamilyHeader, failures, write)
  }

  /** `exportProductFailures`, lines 80-113, under the product header. */
  function ExportProductFailures(failures: seq<FailureEntry>, write: Writer): (r: Result<Option<string>, string>)
    ensures failures == [] ==> r == Success(None)
    ensures failures != [] ==> var w := write(ProductHeader, Records(ProductHeader, failures));
              && (r.Failure? <==> w.Failure?)
              && (w.Failure? ==> r.error == w.error)
              && (w.Success? ==> r == Success(Some(w.value)))
    ensures forall k :: 0 <= k < |failures| && failures[k].ProductFailure? ==>
              Records(ProductHeader, failures)[k] == [Cell(failures[k].rowNumber), Cell(failures[k].sku), failures[k].reason]
  {
    RecordsKeepKeys(ProductHeader, failures);
    ExportFailures(ProductHeader, failures, write)
  }
}
