/**
 * The stand-alone navbar component: the `#slug` link it builds from any
 * child label, and its dropdown and mobile-menu state.
 */
module Navbar {
  import opened Js
  import opened Strings
  import Dropdown

  /** The text after a leading run of whitespace. */
  function DropSpaces(s: string): (r: string)
    ensures |r| <= |s| && r == s[|s| - |r|..]
    ensures forall i :: 0 <= i < |s| - |r| ==> IsSpace(s[i])
    ensures r == [] || !IsSpace(r[0])
  {
    if s != [] && IsSpace(s[0]) then DropSpaces(s[1..]) else s
  }

  /** `replace(/\s+/g, '-')`: every maximal run of whitespace becomes one '-'. */
  function Hyphenate(s: string): (r: string)
    ensures NoSpace(r)
    ensures NoUpper(s) ==> NoUpper(r)
    ensures |r| <= |s|
    ensures r == [] <==> s == []
    decreases |s|
  {
    if s == [] then []
    else if IsSpace(s[0]) then
      var rest := DropSpaces(s[1..]);
      SuffixNoUpper(s, |s| - |rest|);
      var t := Hyphenate(rest);
      ConsKeeps('-', t);
      "-" + t
    else
      SuffixNoUpper(s, 1);
      var t := Hyphenate(s[1..]);
      ConsKeeps(s[0], t);
      [s[0]] + t
  }

  lemma SuffixNoUpper(s: string, k: nat)
    requires k <= |s|
    ensures NoUpper(s) ==> NoUpper(s[k..])
  {
    assert forall i :: 0 <= i < |s| - k ==> s[k..][i] == s[k + i];
  }

  lemma ConsKeeps(c: char, t: string)
    ensures !IsSpace(c) && NoSpace(t) ==> NoSpace([c] + t)
    ensures !IsUpper(c) && NoUpper(t) ==> NoUpper([c] + t)
  {
    assert forall i :: 1 <= i < |t| + 1 ==> ([c] + t)[i] == t[i - 1];
  }

  /** Text without whitespace is left as it is. */
  lemma {:induction false} HyphenateIdentity(s: string)
    requires NoSpace(s)
    ensures Hyphenate(s) == s
  {
    if s != [] {
      HyphenateIdentity(s[1..]);
    }
  }

  /** The link of a child entry: `#${child.toLowerCase().replace(/\s+/g, '-')}`. */
  function Slug(text: string): (href: string)
    ensures |href| >= 1 && href[0] == '#'
    ensures NoSpace(href[1..]) && NoUpper(href[1..])
  {
    LowerNoUpper(text);
    "#" + Hyphenate(Lower(text))
  }

  /** Slugging the text of a slug gives it back. */
  lemma SlugIdempotent(text: string)
    ensures Slug(Slug(text)[1..]) == Slug(text)
  {
    var t := Slug(text)[1..];
    LowerIdentity(t);
    HyphenateIdentity(t);
  }

  /** Two words separated by one space become the lower-cased words joined by '-'. */
  lemma SlugOfTwoWords(a: string, b: string)
    requires NoSpace(a) && NoSpace(b)
    ensures Slug(a + " " + b) == "#" + (Lower(a) + ("-" + Lower(b)))
  {
    LowerOfJoin(a, b);
    LowerKeepsNoSpace(a);
    LowerKeepsNoSpace(b);
    HyphenateJoin(Lower(a), Lower(b));
  }

  lemma LowerOfJoin(a: string, b: string)
    ensures Lower(a + " " + b) == Lower(a) + (" " + Lower(b))
  {
    var sb := " " + b;
    assert a + " " + b == a + sb;
    LowerConcat(a, sb);
    assert sb[0] == ' ' && sb[1..] == b;
    assert LowerChar(' ') == ' ';
    assert Lower(sb) == [LowerChar(sb[0])] + Lower(sb[1..]);
  }

  lemma HyphenateJoin(a: string, b: string)
    requires NoSpace(a) && NoSpace(b)
    ensures Hyphenate(a + (" " + b)) == a + ("-" + b)
  {
    HyphenateAppend(a, " " + b);
    var sb := " " + b;
    assert sb[0] == ' ' && sb[1..] == b;
    assert DropSpaces(b) == b;
    HyphenateIdentity(b);
    assert Hyphenate(sb) == "-" + Hyphenate(DropSpaces(sb[1..]));
  }

  lemma LowerConcat(x: string, y: string)
    ensures Lower(x + y) == Lower(x) + Lower(y)
  {
    assert forall i :: 0 <= i < |x + y| ==> (x + y)[i] == if i < |x| then x[i] else y[i - |x|];
  }

  lemma LowerKeepsNoSpace(x: string)
    requires NoSpace(x)
    ensures NoSpace(Lower(x))
  {
    forall i | 0 <= i < |x| ensures !IsSpace(Lower(x)[i]) {
      assert !IsSpace(x[i]);
    }
  }

  /** Text without whitespace passes through unchanged in front of anything. */
  lemma {:induction false} HyphenateAppend(a: string, r: string)
    requires NoSpace(a)
    ensures Hyphenate(a + r) == a + Hyphenate(r)
    decreases |a|
  {
    if a == [] {
      assert a + r == r;
    } else {
      NoSpaceTail(a);
      HyphenateAppend(a[1..], r);
      ConsAssoc(a, r);
      HyphenateCons(a[0], a[1..] + r);
      ConsAssoc(a, Hyphenate(r));
    }
  }

  lemma ConsAssoc(a: string, x: string)
    requires a != []
    ensures a + x == [a[0]] + (a[1..] + x)
  {
    assert a == [a[0]] + a[1..];
  }

  lemma HyphenateCons(c: char, s: string)
    requires !IsSpace(c)
    ensures Hyphenate([c] + s) == [c] + Hyphenate(s)
  {
    assert ([c] + s)[1..] == s;
  }

  lemma NoSpaceTail(a: string)
    requires a != [] && NoSpace(a)
    ensures NoSpace(a[1..]) && !IsSpace(a[0])
  {
    assert forall i :: 0 <= i < |a| - 1 ==> a[1..][i] == a[i + 1];
  }

  /** A run of whitespace between space-free text and the rest becomes exactly one '-'. */
  lemma HyphenateRun(a: string, w: string, b: string)
    requires NoSpace(a) && |w| >= 1 && forall i :: 0 <= i < |w| ==> IsSpace(w[i])
    requires b == [] || !IsSpace(b[0])
    ensures Hyphenate(a + w + b) == a + ("-" + Hyphenate(b))
  {
    assert a + w + b == a + (w + b);
    HyphenateAppend(a, w + b);
    LeadingRun(w, b);
  }

  lemma LeadingRun(w: string, b: string)
    requires |w| >= 1 && forall i :: 0 <= i < |w| ==> IsSpace(w[i])
    requires b == [] || !IsSpace(b[0])
    ensures Hyphenate(w + b) == "-" + Hyphenate(b)
  {
    var x := w + b;
    assert x[0] == w[0] && IsSpace(x[0]);
    assert x[1..] == w[1..] + b;
    DropRun(w[1..], b);
  }

  lemma {:induction false} DropRun(w: string, b: string)
    requires forall i :: 0 <= i < |w| ==> IsSpace(w[i])
    requires b == [] || !IsSpace(b[0])
    ensures DropSpaces(w + b) == b
    decreases |w|
  {
    if w == [] {
      assert w + b == b;
    } else {
      assert (w + b)[0] == w[0] && (w + b)[1..] == w[1..] + b;
      DropRun(w[1..], b);
    }
  }

  /**
   * The link of a label with a run of whitespace: the lower-cased text
   * before the run, one '-', and the slug of the rest.
   */
  lemma SlugRun(a: string, w: string, b: string)
    requires NoSpace(a) && |w| >= 1 && forall i :: 0 <= i < |w| ==> IsSpace(w[i])
    requires b == [] || !IsSpace(b[0])
    ensures Slug(a + w + b) == "#" + Lower(a) + "-" + Slug(b)[1..]
  {
    var h := Hyphenate(Lower(b));
    LowerRun(a, w, b);
    assert Slug(b)[1..] == h;
    ConcatShape("#", Lower(a), h);
  }

  /** The lower-cased label with a run hyphenates to the lower-cased first word, '-' and the rest. */
  lemma LowerRun(a: string, w: string, b: string)
    requires NoSpace(a) && |w| >= 1 && forall i :: 0 <= i < |w| ==> IsSpace(w[i])
    requires b == [] || !IsSpace(b[0])
    ensures Hyphenate(Lower(a + w + b)) == Lower(a) + ("-" + Hyphenate(Lower(b)))
  {
    LowerOfRun(a, w, b);
    LowerKeepsNoSpace(a);
    LowerKeepsSpaces(w);
    HyphenateRun(Lower(a), Lower(w), Lower(b));
  }

  lemma LowerOfRun(a: string, w: string, b: string)
    ensures Lower(a + w + b) == Lower(a) + Lower(w) + Lower(b)
    ensures Lower(b) == [] || (|b| > 0 && Lower(b)[0] == LowerChar(b[0]))
  {
    LowerConcat(a + w, b);
    LowerConcat(a, w);
  }

  lemma ConcatShape(h: string, x: string, y: string)
    ensures h + x + "-" + (h + y)[|h|..] == h + (x + ("-" + y))
  {
    assert (h + y)[|h|..] == y;
  }

  lemma LowerKeepsSpaces(w: string)
    requires forall i :: 0 <= i < |w| ==> IsSpace(w[i])
    ensures |Lower(w)| == |w| && forall i :: 0 <= i < |w| ==> IsSpace(Lower(w)[i])
  {
  }

  /** The link of a label without whitespace: '#' and the lower-cased label. */
  lemma SlugOneWord(text: string)
    requires NoSpace(text)
    ensures Slug(text) == "#" + Lower(text)
  {
    LowerKeepsNoSpace(text);
    HyphenateIdentity(Lower(text));
  }

  /** The navbar's own state. */
  class NavbarState {
    var mobileMenuOpen: bool
    var openDropdown: Option<string>

    constructor()
      ensures !mobileMenuOpen && openDropdown == None
    {
      mobileMenuOpen := false;
      openDropdown := None;
    }

    /** `toggleDropdown`: the same rule as the application shell's. */
    method ToggleDropdown(menuName: string)
      modifies this
      ensures openDropdown == Dropdown.Toggle(old(openDropdown), menuName)
      ensures mobileMenuOpen == old(mobileMenuOpen)
    {
      openDropdown := Dropdown.Toggle(openDropdown, menuName);
    }

    /** The mobile menu button. */
    method ToggleMobileMenu()
      modifies this
      ensures mobileMenuOpen == !old(mobileMenuOpen) && openDropdown == old(openDropdown)
    {
      mobileMenuOpen := !mobileMenuOpen;
    }

    /** Following a link in the mobile menu closes the menu. */
    method MobileLinkClicked()
      modifies this
      ensures !mobileMenuOpen && openDropdown == old(openDropdown)
    {
      mobileMenuOpen := false;
    }
  }
}
