/**
 * Dates as the project form exchanges them: a date input holds "yyyy-mm-dd",
 * the server takes and returns date-times, the client appends midnight when
 * sending and cuts at the first 'T' when loading a project into the form.
 */
module Dates {
  import opened Numerals

  /** What `handleSubmit` appends to a form date before sending it. */
  const Midnight: string := "T00:00:00"

  /** The value of an `<input type="date">` once the user has picked a date. */
  predicate IsDateValue(s: string) {
    && |s| == 10
    && IsDigit(s[0]) && IsDigit(s[1]) && IsDigit(s[2]) && IsDigit(s[3])
    && s[4] == '-'
    && IsDigit(s[5]) && IsDigit(s[6])
    && s[7] == '-'
    && IsDigit(s[8]) && IsDigit(s[9])
  }

  /** The date-time string sent for a form date. */
  function ToWireDate(date: string): string {
    date + Midnight
  }

  /**
   * `s.split(c)[0]`: the longest prefix of `s` free of `c`, which is all of
   * `s` when `c` does not occur in it.
   */
  function BeforeFirst(s: string, c: char): (r: string)
    ensures r <= s
    ensures c !in r
    ensures |r| < |s| ==> s[|r|] == c
  {
    if s == [] || s[0] == c then [] else [s[0]] + BeforeFirst(s[1..], c)
  }

  lemma DateValueHasNoTime(s: string)
    requires IsDateValue(s)
    ensures 'T' !in s
  {
  }

  /** Cutting a sent date at its first 'T' gives back the form's date. */
  lemma WireDateTruncates(date: string)
    requires 'T' !in date
    ensures BeforeFirst(ToWireDate(date), 'T') == date
  {
    var w := ToWireDate(date);
    var r := BeforeFirst(w, 'T');
    assert forall i :: 0 <= i < |date| ==> w[i] == date[i] && w[i] != 'T';
    assert w[|date|] == 'T';
    assert r == w[..|r|] && w[..|date|] == date;
  }
}
