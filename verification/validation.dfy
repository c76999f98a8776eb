/**
 * The pre-scan's checks: each line's SKU must be in the inventory and, for
 * anything but a DIGITAL item, have a stock figure at least the line's qty.
 * Lines are checked in order and the first failure rejects the checkout.
 */
module Validation {
  import opened Wrappers
  import opened Catalog

  /** What is wrong with one line, checked in the source's order. */
  function LineError(line: OrderLine, records: Records): (e: Option<CheckoutError>)
    ensures e.None? <==>
              && line.sku in records
              && (records[line.sku].category != Digital ==>
                    records[line.sku].stock.Some? && line.qty <= records[line.sku].stock.value)
    ensures line.sku !in records ==> e == Some(UnknownSku(line.sku))
    ensures line.sku in records && records[line.sku].category != Digital && records[line.sku].stock.None?
            ==> e == Some(MissingStock(line.sku))
    ensures line.sku in records && records[line.sku].category != Digital && records[line.sku].stock.Some?
            && line.qty > records[line.sku].stock.value
            ==> e == Some(InsufficientStock(line.sku))
  {
    if line.sku !in records then Some(UnknownSku(line.sku))
    else
      var rec := records[line.sku];
      if rec.category != Digital && rec.stock.None? then Some(MissingStock(line.sku))
      else if rec.category != Digital && line.qty > rec.stock.value then Some(InsufficientStock(line.sku))
      else None
  }

  /** Every line names a SKU of the inventory. */
  ghost predicate Known(lines: seq<OrderLine>, records: Records) {
    forall i :: 0 <= i < |lines| ==> lines[i].sku in records
  }

  /** The error of the first failing line of `lines`, scanning left to right. */
  function FirstLineError(lines: seq<OrderLine>, records: Records): (e: Option<CheckoutError>)
    ensures e.None? ==> Known(lines, records)
  {
    if lines == [] then None
    else
      match FirstLineError(lines[..|lines| - 1], records)
      case Some(err) => Some(err)
      case None => LineError(lines[|lines| - 1], records)
  }

  /** Once a prefix has failed, longer prefixes fail with the same error. */
  lemma {:induction false} FirstLineErrorSticks(lines: seq<OrderLine>, records: Records, i: nat)
    requires i <= |lines|
    requires FirstLineError(lines[..i], records).Some?
    ensures FirstLineError(lines, records) == FirstLineError(lines[..i], records)
  {
    if i < |lines| {
      var init := lines[..|lines| - 1];
      assert init[..i] == lines[..i];
      FirstLineErrorSticks(init, records, i);
    } else {
      assert lines[..i] == lines;
    }
  }

  /** When the scan finds no error, no single line has one. */
  lemma {:induction false} NoLineErrorAt(lines: seq<OrderLine>, records: Records, i: nat)
    requires FirstLineError(lines, records).None?
    requires i < |lines|
    ensures LineError(lines[i], records).None?
  {
    var init := lines[..|lines| - 1];
    if i < |lines| - 1 {
      NoLineErrorAt(init, records, i);
    }
  }

  /**
   * FirstLineError against an independent reading: no error means no line
   * fails, and an error is the error of some line all of whose predecessors pass.
   */
  lemma {:induction false} FirstLineErrorIsFirst(lines: seq<OrderLine>, records: Records)
    ensures FirstLineError(lines, records).None? <==>
            forall i :: 0 <= i < |lines| ==> LineError(lines[i], records).None?
    ensures FirstLineError(lines, records).Some? ==>
            exists i :: 0 <= i < |lines| && LineError(lines[i], records) == FirstLineError(lines, records)
                        && forall j :: 0 <= j < i ==> LineError(lines[j], records).None?
  {
    if lines != [] {
      var n := |lines| - 1;
      var init := lines[..n];
      FirstLineErrorIsFirst(init, records);
      assert forall j :: 0 <= j < n ==> init[j] == lines[j];
      if FirstLineError(init, records).Some? {
        var i :| 0 <= i < n && LineError(init[i], records) == FirstLineError(init, records)
                 && forall j :: 0 <= j < i ==> LineError(init[j], records).None?;
        assert LineError(lines[i], records) == FirstLineError(lines, records);
      } else {
        assert LineError(lines[n], records) == FirstLineError(lines, records);
      }
    }
  }
}
