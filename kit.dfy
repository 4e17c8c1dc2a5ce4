/**
 * What the form actions and load functions hand back to the framework:
 * `fail(status, data)`, a thrown `redirect(status, location)`, plain data,
 * and the form-field reading they share.
 */
module Kit {
  import opened Text

  /** A form action's outcome; `values` are the fields echoed back to the form. */
  datatype ActionResult =
    | Fail(status: int, error: string, values: map<string, string>)
    | Redirect(status: int, location: string)
    | Sent

  /** A load function's outcome: a redirect, or the page with no data. */
  datatype LoadResult = LoadRedirect(status: int, location: string) | PageData

  /** The `load` of a page for signed-out visitors: a session is sent home with a 303. */
  function SignedOutOnly(hasSession: bool): (r: LoadResult)
    ensures r.LoadRedirect? <==> hasSession
    ensures r.LoadRedirect? ==> r.status == 303 && r.location == "/"
  {
    if hasSession then LoadRedirect(303, "/") else PageData
  }

  /** `String(form.get(name) ?? '')`. */
  function FormText(v: Option<string>): string {
    v.GetOr("")
  }

  /** `String(x ?? '').trim().toLowerCase()`. */
  function NormalizeEmail(v: Option<string>): (r: string)
    ensures r == ToLower(Trim(FormText(v)))
    ensures r == "" || (!IsSpace(r[0]) && !IsSpace(r[|r| - 1]))
    ensures forall i :: 0 <= i < |r| ==> !IsUpperLetter(r[i])
  {
    var t := Trim(FormText(v));
    assert t == "" || (LowerChar(t[0]) == t[0] || IsUpperLetter(t[0]));
    ToLower(t)
  }

  /**
   * The normalised email is the typed text with the white space around it
   * dropped, lower-cased letter by letter.
   */
  lemma NormalizeEmailCore(v: Option<string>) returns (k: nat)
    ensures var s, r := FormText(v), NormalizeEmail(v);
      && k + |r| <= |s|
      && (forall i :: 0 <= i < |r| ==> r[i] == LowerChar(s[k + i]))
      && (forall i :: 0 <= i < k ==> IsSpace(s[i]))
      && (forall i :: k + |r| <= i < |s| ==> IsSpace(s[i]))
  {
    k := TrimIsSlice(FormText(v));
  }

  /** Normalising an already normalised email changes nothing. */
  lemma {:induction false} NormalizeEmailIdempotent(v: Option<string>)
    ensures NormalizeEmail(Some(NormalizeEmail(v))) == NormalizeEmail(v)
  {
    var e := NormalizeEmail(v);
    if e != "" {
      assert TrimStart(e) == e;
      assert TrimEnd(e) == e;
    }
    assert Trim(e) == e;
    ToLowerIdempotent(Trim(FormText(v)));
  }
}
