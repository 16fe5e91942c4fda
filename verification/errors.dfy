/**
 * Per-field error messages as the forms keep them: an object from field name
 * to message, where an empty string means "no error" (the key stays behind).
 */
module ErrorMaps {

  /**
   * `if (errors[name]) setErrors({...errors, [name]: ''})`: a field's
   * truthy error is blanked; the key is kept and every other entry is left alone.
   */
  function ClearError<K>(errs: map<K, string>, k: K): (r: map<K, string>)
    ensures r.Keys == errs.Keys
    ensures k in r ==> r[k] == ""
    ensures forall j :: j in errs && j != k ==> r[j] == errs[j]
  {
    if k in errs && errs[k] != "" then errs[k := ""] else errs
  }

  /** Clearing twice is clearing once, and clearing a field without a truthy error changes nothing. */
  lemma ClearErrorIdempotent<K>(errs: map<K, string>, k: K)
    ensures ClearError(ClearError(errs, k), k) == ClearError(errs, k)
    ensures (k !in errs || errs[k] == "") ==> ClearError(errs, k) == errs
  {
  }
}
