/**
 * strtok(3) as a function. The C library keeps the position where the next
 * call with a NULL string resumes in hidden static state; here that position
 * is an argument and a result. A call strtok(p, delims) with p pointing at
 * s[pos] is Strtok(s, pos, delims), and strtok(NULL, delims) is
 * Strtok(s, saved, delims) with the position the previous call returned.
 *
 * A C string is its characters before the terminating NUL. The NUL that
 * strtok writes over the delimiter ending a token is not modelled: the token
 * is returned as a value and the scan resumes after the delimiter.
 */
module CString {
  import opened Wrappers

  /** The first index at or after `i` whose character is not a delimiter
      (|s| if there is none): the delimiters strtok skips before a token. */
  function SkipDelims(s: string, i: nat, delims: set<char>): (j: nat)
    requires i <= |s|
    ensures i <= j <= |s|
    ensures forall k :: i <= k < j ==> s[k] in delims
    ensures j < |s| ==> s[j] !in delims
    decreases |s| - i
  {
    if i < |s| && s[i] in delims then SkipDelims(s, i + 1, delims) else i
  }

  /** The first index at or after `i` whose character is a delimiter (|s| if
      there is none): the end of the token starting at `i`. */
  function SpanToDelim(s: string, i: nat, delims: set<char>): (j: nat)
    requires i <= |s|
    ensures i <= j <= |s|
    ensures forall k :: i <= k < j ==> s[k] !in delims
    ensures j < |s| ==> s[j] in delims
    decreases |s| - i
  {
    if i < |s| && s[i] !in delims then SpanToDelim(s, i + 1, delims) else i
  }

  /** strtok: skip delimiters from `pos`; at the end of the string there is
      no token (NULL) and the scan stays at the end. Otherwise the token runs
      to the next delimiter, and the next scan starts just after that
      delimiter (or at the end). */
  function Strtok(s: string, pos: nat, delims: set<char>): (r: (Option<string>, nat))
    requires pos <= |s|
    ensures pos <= r.1 <= |s|
  {
    var start := SkipDelims(s, pos, delims);
    if start == |s| then (None, |s|)
    else
      var end := SpanToDelim(s, start, delims);
      (Some(s[start..end]), if end < |s| then end + 1 else end)
  }

  /** strtok returns NULL exactly when only delimiters are left, and then
      stays at the end; a token is non-empty, holds no delimiter, and is
      followed by a delimiter or the end of the string. */
  lemma StrtokToken(s: string, pos: nat, delims: set<char>)
    requires pos <= |s|
    ensures var r := Strtok(s, pos, delims);
      && (r.0.None? <==> forall k :: pos <= k < |s| ==> s[k] in delims)
      && (r.0.None? ==> r.1 == |s|)
      && (r.0.Some? ==>
            && r.0.value != []
            && (forall k :: 0 <= k < |r.0.value| ==> r.0.value[k] !in delims)
            && (r.1 < |s| ==> s[r.1 - 1] in delims))
  {
    var start := SkipDelims(s, pos, delims);
    if start < |s| {
      var end := SpanToDelim(s, start, delims);
      assert forall k :: 0 <= k < end - start ==> s[start..end][k] == s[start + k];
    }
  }

  /** strtok(p, ""): with no delimiters the token is the whole rest of the
      string, NULL when that is empty, and the scan ends at the end. */
  lemma StrtokNoDelims(s: string, pos: nat)
    requires pos <= |s|
    ensures Strtok(s, pos, {}) == (if pos == |s| then None else Some(s[pos..]), |s|)
  {
    var start := SkipDelims(s, pos, {});
    assert start == pos;
    if pos < |s| {
      var end := SpanToDelim(s, pos, {});
      assert end == |s|;
      assert s[start..end] == s[pos..];
      assert Strtok(s, pos, {}).0 == Some(s[pos..]);
    }
  }
}
