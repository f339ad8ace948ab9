/** The string helpers of the Fusia client: the media-id sanitiser, the two
    comment rules that can fire, and the ASCII part of JavaScript's case
    mapping. */
module Text {
  import opened JsValues

  const MAX_COMMENT_LENGTH := 300

  predicate IsDigit(c: char) { '0' <= c <= '9' }
  predicate IsLower(c: char) { 'a' <= c <= 'z' }
  predicate IsUpper(c: char) { 'A' <= c <= 'Z' }
  predicate IsLetter(c: char) { IsLower(c) || IsUpper(c) }

  function UpperChar(c: char): char {
    if IsLower(c) then (c as int - 32) as char else c
  }

  function LowerChar(c: char): char {
    if IsUpper(c) then (c as int + 32) as char else c
  }

  /** `s.toUpperCase()`, restricted to ASCII letters. */
  function ToUpper(s: string): string {
    seq(|s|, i requires 0 <= i < |s| => UpperChar(s[i]))
  }

  /** `s.toLowerCase()`, restricted to ASCII letters. */
  function ToLower(s: string): string {
    seq(|s|, i requires 0 <= i < |s| => LowerChar(s[i]))
  }

  /** `text.includes(pattern)`. */
  predicate Includes(text: string, pattern: string) {
    exists i | 0 <= i <= |text| - |pattern| :: OccursAt(text, pattern, i)
  }

  predicate OccursAt(text: string, pattern: string, i: int)
    requires 0 <= i <= |text| - |pattern|
  {
    text[i..i + |pattern|] == pattern
  }

  /** `/[0-9]+_[0-9]+/.test(id)`: some underscore has a digit on each side. */
  predicate HasNumericPair(id: string) {
    exists j | 1 <= j < |id| - 1 :: id[j] == '_' && IsDigit(id[j - 1]) && IsDigit(id[j + 1])
  }

  /** `s.split(sep)[0]`: the text before the first `sep`, or all of `s`. */
  function BeforeFirst(s: string, sep: char): (r: string)
    ensures r <= s
    ensures sep !in r
    ensures |r| < |s| ==> s[|r|] == sep
  {
    if s == [] || s[0] == sep then [] else [s[0]] + BeforeFirst(s[1..], sep)
  }

  /** `sanitiseMediaId`: a composite id `<digits>_<digits>` is cut back to the
      text before its first underscore; any other id is returned as it is. */
  function SanitiseMediaId(id: string): (r: string)
    ensures r <= id
    ensures HasNumericPair(id) ==> '_' !in r && |r| < |id| && id[|r|] == '_'
    ensures !HasNumericPair(id) ==> r == id
  {
    if HasNumericPair(id) then BeforeFirst(id, '_') else id
  }

  lemma SanitiseIsIdempotent(id: string)
    ensures SanitiseMediaId(SanitiseMediaId(id)) == SanitiseMediaId(id)
  {
  }

  /** The cut falls exactly at the first occurrence of the separator. */
  lemma BeforeFirstAt(s: string, sep: char, i: int)
    requires 0 <= i < |s| && s[i] == sep
    requires forall k | 0 <= k < i :: s[k] != sep
    ensures BeforeFirst(s, sep) == s[..i]
  {
  }

  lemma SanitiseCompositeExample()
    ensures SanitiseMediaId("123456_789") == "123456"
  {
    var a := "123456_789";
    assert a[6] == '_' && IsDigit(a[5]) && IsDigit(a[7]);
    BeforeFirstAt(a, '_', 6);
  }

  lemma SanitisePlainExample()
    ensures SanitiseMediaId("123456") == "123456"
  {
    assert forall j | 0 <= j < 6 :: "123456"[j] != '_';
  }

  /** The cut is at the first underscore, not at the one the digits surround. */
  lemma SanitiseFirstUnderscoreExample()
    ensures SanitiseMediaId("ab_12_34") == "ab"
  {
    var b := "ab_12_34";
    assert b[5] == '_' && IsDigit(b[4]) && IsDigit(b[6]);
    BeforeFirstAt(b, '_', 2);
  }

  /** `/[a-z]/i.test(text)`. */
  predicate HasLetter(text: string) {
    exists i | 0 <= i < |text| :: IsLetter(text[i])
  }

  /** A string is its own upper case exactly when it holds no lower-case letter. */
  lemma UpperFixpoint(s: string)
    ensures ToUpper(s) == s <==> forall i | 0 <= i < |s| :: !IsLower(s[i])
  {
    if forall i | 0 <= i < |s| :: !IsLower(s[i]) {
      assert forall i | 0 <= i < |s| :: ToUpper(s)[i] == s[i];
    } else {
      var i :| 0 <= i < |s| && IsLower(s[i]);
      assert ToUpper(s)[i] != s[i];
    }
  }

  /** The two comment rules of `postComment` that can reject: over 300
      characters, and text with a letter that equals its own upper case.  The
      length rule is checked first. */
  function CheckComment(text: string): (r: Result<()>)
    ensures r == Err(CommentTooLong) <==> |text| > MAX_COMMENT_LENGTH
    ensures r == Err(CommentAllCaps) <==>
      |text| <= MAX_COMMENT_LENGTH && HasLetter(text) && forall i | 0 <= i < |text| :: !IsLower(text[i])
    ensures r.Err? ==> r.error == CommentTooLong || r.error == CommentAllCaps
  {
    UpperFixpoint(text);
    if |text| > MAX_COMMENT_LENGTH then Err(CommentTooLong)
    else if HasLetter(text) && text == ToUpper(text) then Err(CommentAllCaps)
    else Ok(())
  }

  lemma CommentExamples()
    ensures CheckComment("HELLO WORLD") == Err(CommentAllCaps)
    ensures CheckComment("hi #fun http://x.co").Ok?
    ensures CheckComment("123 !!!").Ok?
    ensures CheckComment(seq(301, i => 'a')) == Err(CommentTooLong)
  {
    assert IsLetter("HELLO WORLD"[0]);
    assert IsLower("hi #fun http://x.co"[0]);
    assert forall i | 0 <= i < 7 :: !IsLetter("123 !!!"[i]);
  }
}
