/**
 * The string operations the fulfilment report uses: the short name of a
 * nutrient (`gizi.split(' ')[0].lower()`) and the comma-separated list in the
 * warning (`", ".join(...)`), with the inverse that shows the list can be read
 * back from the warning.
 */
module Text {

  predicate IsUpper(c: char) {
    'A' <= c <= 'Z'
  }

  /** `str.lower()` on one character, for the ASCII letters. */
  function LowerChar(c: char): (d: char)
    ensures !IsUpper(d)
    ensures !IsUpper(c) ==> d == c
    ensures IsUpper(c) ==> d as int == c as int + 32
  {
    if IsUpper(c) then (c as int + 32) as char else c
  }

  /** `str.lower()`: every ASCII upper-case letter is replaced by its lower-case form. */
  function Lower(s: string): (r: string)
    ensures |r| == |s|
    ensures forall i :: 0 <= i < |r| ==> r[i] == LowerChar(s[i])
    ensures forall i :: 0 <= i < |r| ==> !IsUpper(r[i])
  {
    seq(|s|, i requires 0 <= i < |s| => LowerChar(s[i]))
  }

  /** Lower-casing never introduces or removes a space. */
  lemma LowerKeepsSpaces(s: string)
    ensures ' ' in Lower(s) <==> ' ' in s
  {
  }

  /**
   * `s.split(' ')[0]`: the text before the first space, or all of `s` when it
   * has none. The three ensures clauses determine the result uniquely.
   */
  function FirstToken(s: string): (t: string)
    ensures t <= s
    ensures ' ' !in t
    ensures t == s || s[|t|] == ' '
  {
    if s == [] then []
    else if s[0] == ' ' then []
    else [s[0]] + FirstToken(s[1..])
  }

  /** A space-free prefix is carried over whole into the first token. */
  lemma {:induction false} FirstTokenOfSpaceFree(a: string, b: string)
    requires ' ' !in a
    ensures FirstToken(a + b) == a + FirstToken(b)
  {
    if a == [] {
      assert a + b == b;
    } else {
      assert a[0] != ' ';
      assert (a + b)[0] == a[0];
      assert (a + b)[1..] == a[1..] + b;
      FirstTokenOfSpaceFree(a[1..], b);
    }
  }

  /** `sep.join(xs)`. */
  function Join(sep: string, xs: seq<string>): (r: string)
    ensures xs != [] ==> xs[0] <= r
  {
    if xs == [] then ""
    else if |xs| == 1 then xs[0]
    else xs[0] + sep + Join(sep, xs[1..])
  }

  /**
   * The items of the list `", ".join(xs)` when no item holds a space: the text
   * is cut at every comma followed by a space, and nowhere else.
   */
  function SplitList(s: string): (xs: seq<string>)
    ensures xs != []
    decreases |s|
  {
    var t := FirstToken(s);
    if t == s || t == [] || t[|t| - 1] != ',' then [s]
    else [t[..|t| - 1]] + SplitList(s[|t| + 1..])
  }

  /** A space that does not follow a comma separates nothing: the text stays one item. */
  lemma OnlyCommaSpaceSeparates(a: string, b: string)
    requires ' ' !in a
    requires a == [] || a[|a| - 1] != ','
    ensures SplitList(a + " " + b) == [a + " " + b]
  {
    FirstTokenOfSpaceFree(a, " " + b);
    assert a + " " + b == a + (" " + b);
    assert FirstToken(" " + b) == [];
  }

  /** Reading the joined list back gives the items, in order. */
  lemma {:induction false} SplitJoin(xs: seq<string>)
    requires xs != []
    requires forall i :: 0 <= i < |xs| ==> ' ' !in xs[i]
    ensures SplitList(Join(", ", xs)) == xs
  {
    if |xs| == 1 {
      assert FirstToken(xs[0]) == xs[0] by {
        FirstTokenOfSpaceFree(xs[0], "");
        assert xs[0] + "" == xs[0];
      }
    } else {
      var rest := Join(", ", xs[1..]);
      var s := xs[0] + ", " + rest;
      assert Join(", ", xs) == s;
      assert s == (xs[0] + [',']) + ([' '] + rest);
      assert ' ' !in xs[0] + [','];
      FirstTokenOfSpaceFree(xs[0] + [','], [' '] + rest);
      assert FirstToken([' '] + rest) == [];
      var t := FirstToken(s);
      assert t == xs[0] + [','];
      assert t[..|t| - 1] == xs[0];
      assert s[|t| + 1..] == rest;
      SplitJoin(xs[1..]);
      assert [xs[0]] + xs[1..] == xs;
    }
  }
}
