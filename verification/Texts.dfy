/** What the source's language counts as white space, and text without it at the ends. */
module Texts {
  import opened Utf8

  /** The characters that `strip` removes. */
  predicate White(n: Code) {
    || 0x09 <= n <= 0x0D || 0x1C <= n <= 0x20 || n == 0x85 || n == 0xA0 || n == 0x1680
    || 0x2000 <= n <= 0x200A || n == 0x2028 || n == 0x2029 || n == 0x202F || n == 0x205F || n == 0x3000
  }

  function StripLeft(s: Text): (r: Text)
    ensures |r| <= |s| && (r != [] ==> !White(r[0]))
  {
    if s != [] && White(s[0]) then StripLeft(s[1..]) else s
  }

  function StripRight(s: Text): (r: Text)
    ensures r <= s && (r != [] ==> !White(r[|r| - 1]))
  {
    if s != [] && White(s[|s| - 1]) then StripRight(s[..|s| - 1]) else s
  }

  function Strip(s: Text): (r: Text)
    ensures |r| <= |s|
  {
    StripRight(StripLeft(s))
  }

  predicate Blank(s: Text) {
    Strip(s) == []
  }

  lemma {:induction false} StripLeftKeeps(s: Text, i: nat)
    requires i < |s| && !White(s[i])
    ensures exists j | 0 <= j < |StripLeft(s)| :: !White(StripLeft(s)[j])
  {
    if White(s[0]) {
      StripLeftKeeps(s[1..], i - 1);
      assert StripLeft(s) == StripLeft(s[1..]);
    } else {
      assert StripLeft(s) == s;
    }
  }

  lemma {:induction false} StripRightKeeps(s: Text, i: nat)
    requires i < |s| && !White(s[i])
    ensures StripRight(s) != []
  {
    if White(s[|s| - 1]) {
      StripRightKeeps(s[..|s| - 1], i);
    }
  }

  /** A character that is not white space keeps a text from being blank. */
  lemma NotBlank(s: Text, i: nat)
    requires i < |s| && !White(s[i])
    ensures !Blank(s)
  {
    StripLeftKeeps(s, i);
    var j :| 0 <= j < |StripLeft(s)| && !White(StripLeft(s)[j]);
    StripRightKeeps(StripLeft(s), j);
  }

  /** Text that starts and ends with something else than white space is its own strip. */
  lemma StripOfSolid(s: Text)
    requires s != [] && !White(s[0]) && !White(s[|s| - 1])
    ensures Strip(s) == s
  {
  }
}
