/** White space as Python's `str` methods see it. */
module Text {
  /** `str.isspace` for one character. */
  predicate IsSpace(c: char) {
    var n := c as int;
    || 0x09 <= n <= 0x0d || 0x1c <= n <= 0x20 || n == 0x85 || n == 0xa0 || n == 0x1680
    || 0x2000 <= n <= 0x200a || n == 0x2028 || n == 0x2029 || n == 0x202f || n == 0x205f || n == 0x3000
  }

  predicate Blank(text: string) {
    forall i :: 0 <= i < |text| ==> IsSpace(text[i])
  }

  function StripLeft(text: string): string {
    if text != "" && IsSpace(text[0]) then StripLeft(text[1..]) else text
  }

  function StripRight(text: string): string {
    if text != "" && IsSpace(text[|text| - 1]) then StripRight(text[..|text| - 1]) else text
  }

  function Strip(text: string): string {
    StripRight(StripLeft(text))
  }

  lemma {:induction false} StripLeftExact(text: string) returns (i: nat)
    ensures i <= |text| && StripLeft(text) == text[i..] && Blank(text[..i])
    ensures i < |text| ==> !IsSpace(text[i])
  {
    if text != "" && IsSpace(text[0]) {
      var k := StripLeftExact(text[1..]);
      i := k + 1;
      assert text[1..][k..] == text[i..];
      assert text[..i] == [text[0]] + text[1..][..k];
    } else {
      i := 0;
      assert text[0..] == text;
    }
  }

  lemma {:induction false} StripRightExact(text: string) returns (j: nat)
    ensures j <= |text| && StripRight(text) == text[..j] && Blank(text[j..])
    ensures j > 0 ==> !IsSpace(text[j - 1])
  {
    var n := |text| - 1;
    if text != "" && IsSpace(text[n]) {
      j := StripRightExact(text[..n]);
      assert text[..n][..j] == text[..j];
      assert text[j..] == text[..n][j..] + [text[n]];
    } else {
      j := |text|;
      assert text[..j] == text;
    }
  }

  /** Strip takes the longest blank prefix and the longest blank suffix off, and nothing else. */
  lemma StripExact(text: string) returns (i: nat, j: nat)
    ensures i <= j <= |text| && Strip(text) == text[i..j]
    ensures Blank(text[..i]) && Blank(text[j..])
    ensures i < j ==> !IsSpace(text[i]) && !IsSpace(text[j - 1])
    ensures Strip(text) == "" <==> Blank(text)
  {
    i := StripLeftExact(text);
    var k := StripRightExact(text[i..]);
    j := i + k;
    assert text[i..][..k] == text[i..j] && text[i..][k..] == text[j..];
    if i < j {
      assert !IsSpace(text[i..][k - 1]);
    } else {
      assert text == text[..i] + text[j..];
    }
  }
}
