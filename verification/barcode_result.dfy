/**
 * ApertureBarcodeResult: a barcode scanned from the camera feed, made of the
 * ZBar code type, the decoded data and a private pointer that the library
 * never sets. The struct is public, so its string fields may hold NULL; a C
 * string that may be NULL is modelled as `Option<string>`.
 */
module Barcodes {
  import opened Wrappers

  /** Whatever the reserved `priv` pointer would point to. */
  datatype BarcodePrivate = BarcodePrivate

  datatype BarcodeResult = BarcodeResult(codeType: Option<string>, data: Option<string>, priv: Option<BarcodePrivate>)

  /**
   * aperture_barcode_result_new: refuses (returns NULL for) a NULL code type
   * or NULL data; otherwise a fresh record holding copies of both strings and
   * a NULL private pointer.
   */
  function New(codeType: Option<string>, data: Option<string>): (r: Option<BarcodeResult>)
    ensures r.Some? <==> codeType.Some? && data.Some?
    ensures r.Some? ==> r.value.codeType == codeType && r.value.data == data
    ensures r.Some? ==> r.value.priv.None?
  {
    if codeType.None? then None
    else if data.None? then None
    else Some(BarcodeResult(codeType, data, None))
  }

  /**
   * aperture_barcode_result_copy: NULL is refused (NULL comes back);
   * otherwise the original's code type and data are handed to `New`, which
   * refuses a record whose code type or data is NULL.
   */
  function Copy(result: Option<BarcodeResult>): (r: Option<BarcodeResult>)
    ensures r.None? <==> result.None? || result.value.codeType.None? || result.value.data.None?
    ensures r.Some? ==> r.value.codeType == result.value.codeType && r.value.data == result.value.data
    ensures r.Some? ==> r.value.priv.None?
  {
    match result
    case None => None
    case Some(b) => New(b.codeType, b.data)
  }

  /** Every record the library creates is equal to its copy. */
  lemma CopyOfNewIsEqual(codeType: Option<string>, data: Option<string>)
    ensures Copy(New(codeType, data)) == New(codeType, data)
  {
  }

  /** Copying a copy gives the same record again. */
  lemma CopyIsIdempotent(result: Option<BarcodeResult>)
    ensures Copy(Copy(result)) == Copy(result)
  {
  }
}
