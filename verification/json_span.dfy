/**
 * The JSON-span extraction every `generate*` function applies to a model reply
 * before `JSON.parse`: `text.match(/\{[\s\S]*\}/)`. Because the middle is greedy,
 * the match runs from the first "{" to the last "}" that follows it, and there is
 * no match when no "}" follows any "{".
 */
module JsonSpan {
  import opened Wrappers
  import opened Strings

  /** Starts with "{" and ends with a later "}". */
  predicate Braced(s: string) {
    |s| >= 2 && s[0] == '{' && s[|s| - 1] == '}'
  }

  /** Index of the first "{", or -1. */
  function FirstOpen(s: string): (i: int)
    ensures -1 <= i < |s|
    ensures i == -1 <==> '{' !in s
    ensures 0 <= i ==> s[i] == '{' && forall k :: 0 <= k < i ==> s[k] != '{'
  {
    FindIndex(s, c => c == '{')
  }

  /** Index of the last "}", or -1. */
  function LastClose(s: string): (j: int)
    ensures -1 <= j < |s|
    ensures j == -1 <==> '}' !in s
    ensures 0 <= j ==> s[j] == '}' && forall k :: j < k < |s| ==> s[k] != '}'
  {
    FindLastIndex(s, c => c == '}')
  }

  /** The text matched by `/\{[\s\S]*\}/`, or None when `match` returns null. */
  function BraceSpan(s: string): Option<string> {
    SpanBetween(s, FirstOpen(s), LastClose(s))
  }

  /** The text from an opening brace at `i` to a closing one at `j`, when both exist in that order. */
  function SpanBetween(s: string, i: int, j: int): Option<string>
    requires -1 <= i < |s| && -1 <= j < |s|
  {
    if 0 <= i < j then Some(s[i..j + 1]) else None
  }

  /** What every `generate*` does after the reply arrives: the span, or the error it throws. */
  function Extract(text: string, err: string): (r: Result<string, string>)
    ensures r.Failure? <==> forall i, j :: 0 <= i < j < |text| ==> !(text[i] == '{' && text[j] == '}')
    ensures r.Failure? ==> r.error == err
    ensures r.Success? ==> r.value == text[FirstOpen(text)..LastClose(text) + 1]
    ensures r.Success? ==> Braced(r.value)
  {
    match BraceSpan(text)
    case None => Failure(err)
    case Some(span) => Success(span)
  }

  /** The span is a piece of the text, so it lacks whatever the text lacks. */
  lemma SpanKeepsAbsence(text: string, err: string, sub: string)
    requires !Contains(text, sub)
    ensures Extract(text, err).Success? ==> !Contains(Extract(text, err).value, sub)
  {
    if BraceSpan(text).Some? {
      AbsentFromSlice(text, sub, FirstOpen(text), LastClose(text) + 1);
    }
  }

  /** Every "{" and "}" of `s` lies inside `[lo, hi)`. */
  ghost predicate BracesWithin(s: string, lo: nat, hi: nat)
    requires lo <= hi <= |s|
  {
    forall k :: 0 <= k < |s| && (s[k] == '{' || s[k] == '}') ==> lo <= k < hi
  }

  lemma FirstOpenOfSlice(s: string, lo: nat, hi: nat)
    requires lo <= hi <= |s| && BracesWithin(s, lo, hi)
    ensures FirstOpen(s[lo..hi]) == if FirstOpen(s) == -1 then -1 else FirstOpen(s) - lo
  {
    var t := s[lo..hi];
    var i := FirstOpen(s);
    if i == -1 {
      assert forall k :: 0 <= k < |t| ==> t[k] == s[lo + k] && t[k] != '{';
    } else {
      assert t[i - lo] == '{';
      assert forall k :: 0 <= k < i - lo ==> t[k] == s[lo + k] && t[k] != '{';
    }
  }

  lemma LastCloseOfSlice(s: string, lo: nat, hi: nat)
    requires lo <= hi <= |s| && BracesWithin(s, lo, hi)
    ensures LastClose(s[lo..hi]) == if LastClose(s) == -1 then -1 else LastClose(s) - lo
  {
    var t := s[lo..hi];
    var j := LastClose(s);
    if j == -1 {
      assert forall k :: 0 <= k < |t| ==> t[k] == s[lo + k] && t[k] != '}';
    } else {
      assert t[j - lo] == '}';
      assert forall k :: j - lo < k < |t| ==> t[k] == s[lo + k] && t[k] != '}';
    }
  }

  /** Trimming a reply first never changes the span: braces are not whitespace. */
  lemma BraceSpanIgnoresTrim(s: string)
    ensures BraceSpan(Trim(s)) == BraceSpan(s)
  {
    var b := TrimBounds(s);
    var t := s[b.0..b.1];
    assert Trim(s) == t;
    forall k | 0 <= k < |s| && (s[k] == '{' || s[k] == '}') ensures b.0 <= k < b.1 {
      assert !IsWhitespace(s[k]);
    }
    assert BracesWithin(s, b.0, b.1);
    FirstOpenOfSlice(s, b.0, b.1);
    LastCloseOfSlice(s, b.0, b.1);
    SpanOfSlice(s, b.0, b.1);
  }

  lemma SpanOfSlice(s: string, lo: nat, hi: nat)
    requires lo <= hi <= |s|
    requires FirstOpen(s[lo..hi]) == if FirstOpen(s) == -1 then -1 else FirstOpen(s) - lo
    requires LastClose(s[lo..hi]) == if LastClose(s) == -1 then -1 else LastClose(s) - lo
    requires FirstOpen(s) != -1 ==> lo <= FirstOpen(s) < hi
    requires LastClose(s) != -1 ==> lo <= LastClose(s) < hi
    ensures BraceSpan(s[lo..hi]) == BraceSpan(s)
  {
    SpanBetweenOfSlice(s, lo, hi, FirstOpen(s), LastClose(s));
  }

  /** Cutting away text outside both braces leaves the span between them unchanged. */
  lemma SpanBetweenOfSlice(s: string, lo: nat, hi: nat, i: int, j: int)
    requires lo <= hi <= |s| && -1 <= i < |s| && -1 <= j < |s|
    requires i != -1 ==> lo <= i < hi
    requires j != -1 ==> lo <= j < hi
    ensures SpanBetween(s[lo..hi], if i == -1 then -1 else i - lo, if j == -1 then -1 else j - lo) == SpanBetween(s, i, j)
  {
    if 0 <= i < j {
      var t := s[lo..hi];
      var a, b := t[i - lo..j + 1 - lo], s[i..j + 1];
      forall k | 0 <= k < |b| ensures a[k] == b[k] {
        assert t[i - lo + k] == s[i + k];
      }
      assert a == b;
    }
  }
}
