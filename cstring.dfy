/** C strings as the drivers' `writeString` sees them: the bytes behind a
    `const char *`, up to and excluding the first NUL. */
module CString {
  import opened Bytes

  /** Every string the firmware passes is NUL-terminated. */
  predicate Terminated(s: seq<byte>)
  {
    0 in s
  }

  /** The index of the first NUL (what `strlen` returns). */
  function Length(s: seq<byte>): (k: nat)
    requires Terminated(s)
    ensures k < |s| && s[k] == 0
    ensures forall j :: 0 <= j < k ==> s[j] != 0
  {
    if s[0] == 0 then 0 else 1 + Length(s[1..])
  }

  /** The characters in front of the first NUL. */
  function Text(s: seq<byte>): (r: seq<byte>)
    requires Terminated(s)
    ensures 0 !in r
    ensures r + [0] <= s
  {
    s[..Length(s)]
  }

  /** A string literal's bytes, with the terminator the compiler appends. */
  lemma TextOfLiteral(chars: seq<byte>)
    requires 0 !in chars
    ensures Terminated(chars + [0]) && Text(chars + [0]) == chars
  {
    var s := chars + [0];
    assert s[|chars|] == 0;
    assert forall j :: 0 <= j < |chars| ==> s[j] == chars[j];
    assert Length(s) == |chars|;
  }
}
