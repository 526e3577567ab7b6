/** `str.strip` and the characters that it removes. */
module WhiteSpace {

  /** What `str.strip` removes. */
  predicate IsSpace(c: char) {
    var n := c as int;
    || 9 <= n <= 13 || 28 <= n <= 32 || n == 133 || n == 160 || n == 5760
    || 8192 <= n <= 8202 || n == 8232 || n == 8233 || n == 8239 || n == 8287 || n == 12288
  }

  function StripLeft(s: string): string {
    if s != "" && IsSpace(s[0]) then StripLeft(s[1..]) else s
  }

  function StripRight(s: string): string {
    if s != "" && IsSpace(s[|s| - 1]) then StripRight(s[..|s| - 1]) else s
  }

  function Strip(s: string): string {
    StripRight(StripLeft(s))
  }

  lemma TightStays(s: string)
    requires s != "" && !IsSpace(s[0]) && !IsSpace(s[|s| - 1])
    ensures Strip(s) == s
  {
  }

  lemma {:induction false} StripLeftStops(s: string)
    ensures StripLeft(s) == "" || !IsSpace(StripLeft(s)[0])
  {
    if s != "" && IsSpace(s[0]) {
      StripLeftStops(s[1..]);
    }
  }

  lemma {:induction false} StripRightStops(s: string)
    ensures StripRight(s) == "" || !IsSpace(StripRight(s)[|StripRight(s)| - 1])
    ensures StripRight(s) != "" ==> s != "" && StripRight(s)[0] == s[0]
  {
    if s != "" && IsSpace(s[|s| - 1]) {
      StripRightStops(s[..|s| - 1]);
    }
  }

  lemma StripTwice(s: string)
    ensures Strip(Strip(s)) == Strip(s)
  {
    StripLeftStops(s);
    StripRightStops(StripLeft(s));
    if Strip(s) != "" {
      TightStays(Strip(s));
    }
  }

  lemma {:induction false} StripLeftKeepsAnEnd(s: string) returns (k: nat)
    ensures k <= |s| && StripLeft(s) == s[k..]
    ensures forall j :: 0 <= j < k ==> IsSpace(s[j])
  {
    if s != "" && IsSpace(s[0]) {
      k := StripLeftKeepsAnEnd(s[1..]);
      k := k + 1;
    } else {
      k := 0;
    }
  }

  lemma {:induction false} StripRightKeepsAStart(s: string) returns (k: nat)
    ensures k <= |s| && StripRight(s) == s[..k]
    ensures forall j :: k <= j < |s| ==> IsSpace(s[j])
  {
    if s != "" && IsSpace(s[|s| - 1]) {
      k := StripRightKeepsAStart(s[..|s| - 1]);
    } else {
      k := |s|;
    }
  }

  /** What is left is a slice, and what is cut off on either side is white space. */
  lemma StripIsASlice(s: string) returns (from: nat, to: nat)
    ensures from <= to <= |s| && Strip(s) == s[from..to]
    ensures forall j :: 0 <= j < from || to <= j < |s| ==> IsSpace(s[j])
  {
    from := StripLeftKeepsAnEnd(s);
    var k := StripRightKeepsAStart(s[from..]);
    to := from + k;
    forall j | to <= j < |s|
      ensures IsSpace(s[j])
    {
      assert s[j] == s[from..][j - from];
    }
  }
}
