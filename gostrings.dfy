/**
 * The parts of Go's `strings` package the client uses: prefix test and
 * splitting on runs of white space (`strings.Fields`, with `unicode.IsSpace`).
 */
module GoStrings {

  predicate HasPrefix(s: string, prefix: string) {
    |prefix| <= |s| && s[..|prefix|] == prefix
  }

  /** `unicode.IsSpace`: the Latin-1 spaces and the other White_Space code points. */
  predicate IsSpace(c: char) {
    var n := c as int;
    n == 0x09 || n == 0x0A || n == 0x0B || n == 0x0C || n == 0x0D || n == 0x20
    || n == 0x85 || n == 0xA0 || n == 0x1680 || (0x2000 <= n <= 0x200A)
    || n == 0x2028 || n == 0x2029 || n == 0x202F || n == 0x205F || n == 0x3000
  }

  /** `s` without its leading white space. */
  function TrimLeftSpace(s: string): (r: string)
    ensures |r| <= |s| && r == s[|s| - |r|..]
    ensures r == [] || !IsSpace(r[0])
    ensures forall k :: 0 <= k < |s| - |r| ==> IsSpace(s[k])
  {
    if s == [] || !IsSpace(s[0]) then s else TrimLeftSpace(s[1..])
  }

  /** Length of the leading run of non-space characters of `s`. */
  function WordLength(s: string): (n: nat)
    ensures n <= |s|
    ensures forall k :: 0 <= k < n ==> !IsSpace(s[k])
    ensures n < |s| ==> IsSpace(s[n])
  {
    if s == [] || IsSpace(s[0]) then 0 else 1 + WordLength(s[1..])
  }

  /** `strings.Fields`: the maximal runs of non-space characters, in order. */
  function Fields(s: string): (fs: seq<string>)
    decreases |s|
  {
    var t := TrimLeftSpace(s);
    if t == [] then []
    else
      assert !IsSpace(t[0]);
      var n := WordLength(t);
      assert n >= 1;
      [t[..n]] + Fields(t[n..])
  }

  /** A word followed by a space is the first field, and the fields of the
      remainder follow it. */
  lemma {:induction false} FieldsOfWord(word: string, rest: string)
    requires word != [] && rest != [] && IsSpace(rest[0])
    requires forall k :: 0 <= k < |word| ==> !IsSpace(word[k])
    ensures Fields(word + rest) == [word] + Fields(rest)
  {
    var s := word + rest;
    assert TrimLeftSpace(s) == s;
    WordLengthOfWord(word, rest);
    assert s[..|word|] == word;
    assert s[|word|..] == rest;
  }

  lemma {:induction false} WordLengthOfWord(word: string, rest: string)
    requires rest != [] && IsSpace(rest[0])
    requires forall k :: 0 <= k < |word| ==> !IsSpace(word[k])
    ensures WordLength(word + rest) == |word|
    decreases |word|
  {
    if word != [] {
      assert (word + rest)[1..] == word[1..] + rest;
      WordLengthOfWord(word[1..], rest);
    } else {
      assert word + rest == rest;
    }
  }

  /** A string holding a non-space character has at least one field. */
  lemma FieldsNonEmpty(s: string, k: nat)
    requires k < |s| && !IsSpace(s[k])
    ensures Fields(s) != []
  {
    assert TrimLeftSpace(s) != [];
  }
}
