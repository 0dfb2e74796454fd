/** The OpenSL ES result-code to text lookup of sv_opensl_render.h, used by
    every OpenSL log line that reports a failed SLresult. */
module SlErrors {

  /** sl_error_strings: the name of each SLresult value 0 .. 16, in order. */
  const SlErrorStrings: seq<string> := [
    "SL_RESULT_SUCCESS",
    "SL_RESULT_PRECONDITIONS_VIOLATED",
    "SL_RESULT_PARAMETER_INVALID",
    "SL_RESULT_MEMORY_FAILURE",
    "SL_RESULT_RESOURCE_ERROR",
    "SL_RESULT_RESOURCE_LOST",
    "SL_RESULT_IO_ERROR",
    "SL_RESULT_BUFFER_INSUFFICIENT",
    "SL_RESULT_CONTENT_CORRUPTED",
    "SL_RESULT_CONTENT_UNSUPPORTED",
    "SL_RESULT_CONTENT_NOT_FOUND",
    "SL_RESULT_PERMISSION_DENIED",
    "SL_RESULT_FEATURE_UNSUPPORTED",
    "SL_RESULT_INTERNAL_ERROR",
    "SL_RESULT_UNKNOWN_ERROR",
    "SL_RESULT_OPERATION_ABORTED",
    "SL_RESULT_CONTROL_LOST"
  ]

  const UnknownError: string := "SL_RESULT_UNKNOWN_ERROR"

  /** GetSLErrorString(code): the table entry for a code inside the table,
      "SL_RESULT_UNKNOWN_ERROR" for any larger code. The function is total
      and its answer is always one of the table's strings. */
  function GetSLErrorString(code: nat): (s: string)
    ensures s in SlErrorStrings
  {
    if code >= |SlErrorStrings| then UnknownError else SlErrorStrings[code]
  }

  lemma TableSize()
    ensures |SlErrorStrings| == 17
  {
  }

  /** A code below 17 selects its own table entry. */
  lemma InRangeCodeSelectsEntry(code: nat)
    requires code < 17
    ensures GetSLErrorString(code) == SlErrorStrings[code]
  {
  }

  /** Every code of 17 or more falls back to the unknown-error text. */
  lemma OutOfRangeCodeIsUnknown(code: nat)
    requires code >= 17
    ensures GetSLErrorString(code) == UnknownError
  {
  }

  lemma SuccessCode()
    ensures GetSLErrorString(0) == "SL_RESULT_SUCCESS"
  {
  }

  /** Inside the table distinct codes have distinct names, so a logged name
      identifies its code. */
  lemma InRangeNamesAreDistinct(c1: nat, c2: nat)
    requires c1 < 17 && c2 < 17 && c1 != c2
    ensures GetSLErrorString(c1) != GetSLErrorString(c2)
  {
    assert forall i, j :: 0 <= i < j < 17 ==> SlErrorStrings[i] != SlErrorStrings[j];
  }

  /** The unknown-error text is produced by code 14 and by every
      out-of-range code, and by no other code. */
  lemma UnknownErrorCodes(code: nat)
    ensures GetSLErrorString(code) == UnknownError <==> code == 14 || code >= 17
  {
    if code < 17 && code != 14 {
      InRangeNamesAreDistinct(code, 14);
    }
  }
}
