/**
 * Splitting a dotted element type name `library.element` into the library to
 * load and the element to look up in it.
 */
module LoadName {

  /** Offset of the first `.` in `s`, or `|s|` when there is none (`find_first_of`). */
  function FirstDot(s: string): (n: nat)
    ensures n <= |s|
    ensures '.' !in s[..n]
    ensures n < |s| ==> s[n] == '.'
  {
    if s == [] || s[0] == '.' then 0
    else
      var n := 1 + FirstDot(s[1..]);
      assert s[..n] == [s[0]] + s[1..][..n - 1];
      n
  }

  /**
   * `parseLoadName`: the library is what precedes the first `.` and the
   * element is everything after it; a name without a `.` names both the
   * library and its element (the empty name gives two empty parts).
   */
  function ParseLoadName(whole: string): (r: (string, string))
    ensures '.' !in whole ==> r == (whole, whole)
    ensures '.' in whole ==> '.' !in r.0 && whole == r.0 + "." + r.1
  {
    var found := FirstDot(whole);
    if found == |whole| then
      assert whole[..found] == whole;
      (whole, whole)
    else
      assert whole == whole[..found] + "." + whole[found + 1..];
      (whole[..found], whole[found + 1..])
  }

  /**
   * Joining a dot-free library name and any element name with `.` and parsing
   * the result gives back the two parts: the split is at the first dot.
   */
  lemma {:induction false} ParseJoined(lib: string, elem: string)
    requires '.' !in lib
    ensures ParseLoadName(lib + "." + elem) == (lib, elem)
  {
    var whole := lib + "." + elem;
    assert whole[|lib|] == '.';
    var (l, e) := ParseLoadName(whole);
    assert l == whole[..|lib|] == lib;
    assert e == whole[|lib| + 1..] == elem;
  }
}
