/** The query and corpus normaliser `clean_text` (app.py:110-113).

  The source first lowercases its argument and then replaces every character
  that the regular expression class `\W` matches by one space. Both steps map
  one character to one character, so no run of separators is ever collapsed.
  The model covers ASCII text only: for ASCII, `str.lower()` changes exactly
  'A'..'Z', and the word characters are letters, digits and '_'.
 */
module TextNormalizer {

  predicate IsAscii(s: string) {
    forall i :: 0 <= i < |s| ==> s[i] as int < 128
  }

  predicate IsUpper(c: char) {
    'A' <= c <= 'Z'
  }

  predicate IsLower(c: char) {
    'a' <= c <= 'z'
  }

  predicate IsDigit(c: char) {
    '0' <= c <= '9'
  }

  /** The ASCII members of the regular expression class `\w` */
  predicate IsWordChar(c: char) {
    IsUpper(c) || IsLower(c) || IsDigit(c) || c == '_'
  }

  /** The characters `clean_text` can produce: `[a-z0-9_ ]` */
  predicate IsNormalChar(c: char) {
    IsLower(c) || IsDigit(c) || c == '_' || c == ' '
  }

  predicate IsNormalized(s: string) {
    forall i :: 0 <= i < |s| ==> IsNormalChar(s[i])
  }

  /** `str.lower()` on one ASCII character */
  function LowerChar(c: char): char {
    if IsUpper(c) then (c as int + 32) as char else c
  }

  /** `str.lower()` on ASCII text (app.py:111) */
  function Lower(s: string): (r: string)
    ensures |r| == |s|
    ensures forall i :: 0 <= i < |s| ==> r[i] == LowerChar(s[i])
  {
    seq(|s|, i requires 0 <= i < |s| => LowerChar(s[i]))
  }

  /** `re.sub(r'\W', ' ', s)` on ASCII text (app.py:112): one space per non-word character */
  function ReplaceNonWord(s: string): (r: string)
    ensures |r| == |s|
    ensures forall i :: 0 <= i < |s| ==> r[i] == (if IsWordChar(s[i]) then s[i] else ' ')
  {
    seq(|s|, i requires 0 <= i < |s| => if IsWordChar(s[i]) then s[i] else ' ')
  }

  /** `clean_text` (app.py:110-113) */
  function CleanText(text: string): (r: string)
    requires IsAscii(text)
    ensures |r| == |text|
    ensures IsNormalized(r)
    ensures forall i :: 0 <= i < |text| ==> (r[i] == ' ' <==> !IsWordChar(text[i]))
    ensures forall i :: 0 <= i < |text| && IsUpper(text[i]) ==> r[i] as int == text[i] as int + 32
    ensures forall i :: 0 <= i < |text| && IsWordChar(text[i]) && !IsUpper(text[i]) ==> r[i] == text[i]
  {
    ReplaceNonWord(Lower(text))
  }

  lemma NormalizedIsAscii(s: string)
    requires IsNormalized(s)
    ensures IsAscii(s)
  {
  }

  /** Text already in the output alphabet is left as it is */
  lemma CleanTextFixesNormalized(s: string)
    requires IsNormalized(s)
    ensures IsAscii(s)
    ensures CleanText(s) == s
  {
    NormalizedIsAscii(s);
    var r := CleanText(s);
    forall i | 0 <= i < |s|
      ensures r[i] == s[i]
    {
      assert IsNormalChar(s[i]);
    }
  }

  /** Normalising twice is the same as normalising once */
  lemma CleanTextIdempotent(s: string)
    requires IsAscii(s)
    ensures IsAscii(CleanText(s))
    ensures CleanText(CleanText(s)) == CleanText(s)
  {
    CleanTextFixesNormalized(CleanText(s));
  }

  /** Normalisation works character by character, so it distributes over concatenation */
  lemma CleanTextAppend(a: string, b: string)
    requires IsAscii(a) && IsAscii(b)
    ensures IsAscii(a + b)
    ensures CleanText(a + b) == CleanText(a) + CleanText(b)
  {
    var ab := a + b;
    assert forall i :: 0 <= i < |ab| ==> ab[i] == (if i < |a| then a[i] else b[i - |a|]);
    var lhs := CleanText(ab);
    var rhs := CleanText(a) + CleanText(b);
    forall i | 0 <= i < |ab|
      ensures lhs[i] == rhs[i]
    {
      if i < |a| {
        assert ab[i] == a[i];
      } else {
        assert ab[i] == b[i - |a|];
      }
    }
  }

  /** `n` spaces */
  function Spaces(n: nat): (r: string)
    ensures |r| == n
    ensures forall i :: 0 <= i < n ==> r[i] == ' '
  {
    seq(n, _ => ' ')
  }

  /** Separators are not collapsed: a run of non-word characters between two texts
      becomes exactly as many spaces */
  lemma SeparatorRunIsKept(a: string, run: string, b: string)
    requires IsAscii(a) && IsAscii(run) && IsAscii(b)
    requires forall i :: 0 <= i < |run| ==> !IsWordChar(run[i])
    ensures IsAscii(a + run + b)
    ensures CleanText(a + run + b) == CleanText(a) + Spaces(|run|) + CleanText(b)
  {
    CleanTextAppend(a, run);
    CleanTextAppend(a + run, b);
    assert CleanText(run) == Spaces(|run|);
  }
}
