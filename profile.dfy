/**
 * The avatar fallback of the profile page: `getInitials` turns a full name into at most
 * two upper-case letters, or "U" when there is no name.
 *
 * The JavaScript chain is `name.split(" ").map(n => n[0]).join("").toUpperCase().slice(0, 2)`.
 * `Split` is `split(" ")`; `Heads` is `map(n => n[0]).join("")` (the first character of an
 * empty segment is `undefined`, which `join` renders as the empty string); `Upper` is
 * `toUpperCase` on ASCII letters; `Take2` is `slice(0, 2)`.
 */
module Profile {
  import opened Wrappers

  const Space: char := ' '

  /** `s.split(" ")`: the maximal space-free pieces between single spaces, empty pieces included. */
  function Split(s: string): (segs: seq<string>)
    ensures |segs| >= 1
    ensures forall k :: 0 <= k < |segs| ==> Space !in segs[k]
    ensures s != [] && s[0] != Space ==> segs[0] != [] && segs[0][0] == s[0]
    ensures s == [] || s[0] == Space ==> segs[0] == []
  {
    if s == [] then [[]]
    else if s[0] == Space then [[]] + Split(s[1..])
    else
      var rest := Split(s[1..]);
      [[s[0]] + rest[0]] + rest[1..]
  }

  /** `segs.join(sep)`. */
  function Join(segs: seq<string>, sep: char): (r: string)
    ensures |segs| > 0 ==> segs[0] <= r
    ensures |segs| > 0 ==> |r| >= |segs| - 1
  {
    if |segs| == 0 then []
    else if |segs| == 1 then segs[0]
    else segs[0] + [sep] + Join(segs[1..], sep)
  }

  /** `segs.map(n => n[0]).join("")`: one character per non-empty segment, in order. */
  function Heads(segs: seq<string>): (r: string)
    ensures |r| <= |segs|
    ensures r == [] <==> forall k :: 0 <= k < |segs| ==> segs[k] == []
  {
    if segs == [] then []
    else (if segs[0] == [] then [] else [segs[0][0]]) + Heads(segs[1..])
  }

  /** `toUpperCase`, for the ASCII letters a-z; every other character is kept. */
  function UpperChar(c: char): (r: char)
    ensures 'a' <= c <= 'z' ==> 'A' <= r <= 'Z' && r as int == c as int - 32
    ensures !('a' <= c <= 'z') ==> r == c
  {
    if 'a' <= c <= 'z' then (c as int - 32) as char else c
  }

  function Upper(s: string): (r: string)
    ensures |r| == |s|
    ensures forall i :: 0 <= i < |s| ==> r[i] == UpperChar(s[i])
  {
    if s == [] then [] else [UpperChar(s[0])] + Upper(s[1..])
  }

  /** `slice(0, 2)`. */
  function Take2(s: string): (r: string)
    ensures |r| <= 2 && r <= s
    ensures |s| <= 2 ==> r == s
    ensures |s| >= 2 ==> |r| == 2
  {
    if |s| <= 2 then s else s[..2]
  }

  /** `getInitials(name)`; `None` is `null`. */
  function GetInitials(name: Option<string>): (r: string)
    ensures name == None || name == Some([]) ==> r == "U"
    ensures |r| <= 2
  {
    if name == None || name.value == [] then "U"
    else Take2(Upper(Heads(Split(name.value))))
  }

  /**
   * Independent reference: the characters of `s` that start a word, that is, every non-space
   * character at the front of `s` (when `atStart`) or right after a space.
   */
  function WordStarts(s: string, atStart: bool): string
  {
    if s == [] then []
    else (if atStart && s[0] != Space then [s[0]] else []) + WordStarts(s[1..], s[0] == Space)
  }

  /** Splitting and joining with the same separator gives the name back. */
  lemma {:induction false} JoinSplit(s: string)
    ensures Join(Split(s), Space) == s
  {
    if s == [] {
    } else if s[0] == Space {
      JoinSplit(s[1..]);
      var rest := Split(s[1..]);
      assert Split(s) == [[]] + rest;
      assert Join(Split(s), Space) == [] + [Space] + Join(rest, Space);
    } else {
      JoinSplit(s[1..]);
      var rest := Split(s[1..]);
      var segs := Split(s);
      assert segs == [[s[0]] + rest[0]] + rest[1..];
      if |rest| == 1 {
        assert Join(segs, Space) == [s[0]] + rest[0];
      } else {
        assert segs[1..] == rest[1..];
        assert Join(rest, Space) == rest[0] + [Space] + Join(rest[1..], Space);
        assert Join(segs, Space) == ([s[0]] + rest[0]) + [Space] + Join(rest[1..], Space);
      }
    }
  }

  /** The heads of all segments are exactly the word starts of the string. */
  lemma {:induction false} HeadsSplit(s: string)
    ensures Heads(Split(s)) == WordStarts(s, true)
    ensures Heads(Split(s)[1..]) == WordStarts(s, false)
  {
    if s == [] {
      assert Split(s) == [[]];
    } else if s[0] == Space {
      HeadsSplit(s[1..]);
      assert Split(s) == [[]] + Split(s[1..]);
      assert Split(s)[1..] == Split(s[1..]);
    } else {
      HeadsSplit(s[1..]);
      var rest := Split(s[1..]);
      assert Split(s) == [[s[0]] + rest[0]] + rest[1..];
      assert Split(s)[1..] == rest[1..];
      assert Heads(rest) == (if rest[0] == [] then [] else [rest[0][0]]) + Heads(rest[1..]);
      assert Heads(Split(s)) == [s[0]] + Heads(rest[1..]);
    }
  }

  /** A non-empty name gives the first two word starts, upper-cased. */
  lemma InitialsAreWordStarts(name: string)
    requires name != []
    ensures GetInitials(Some(name)) == Take2(Upper(WordStarts(name, true)))
  {
    HeadsSplit(name);
  }

  /** A run of spaces counts as one: doubling a space never changes the word starts. */
  lemma {:induction false} DoubledSpaceIgnored(a: string, b: string, atStart: bool)
    ensures WordStarts(a + [Space, Space] + b, atStart) == WordStarts(a + [Space] + b, atStart)
  {
    if a == [] {
      assert ([] + [Space, Space] + b)[1..] == [Space] + b;
      assert ([] + [Space] + b)[1..] == b;
      assert ([Space] + b)[1..] == b;
    } else {
      DoubledSpaceIgnored(a[1..], b, a[0] == Space);
      assert (a + [Space, Space] + b)[1..] == a[1..] + [Space, Space] + b;
      assert (a + [Space] + b)[1..] == a[1..] + [Space] + b;
    }
  }

  /** Empty segments (from consecutive spaces) contribute nothing to the initials. */
  lemma EmptySegmentsIgnored(a: string, b: string)
    ensures GetInitials(Some(a + "  " + b)) == GetInitials(Some(a + " " + b))
  {
    assert a + "  " + b == a + [Space, Space] + b;
    assert a + " " + b == a + [Space] + b;
    InitialsAreWordStarts(a + [Space, Space] + b);
    InitialsAreWordStarts(a + [Space] + b);
    DoubledSpaceIgnored(a, b, true);
  }

  /** A name made only of spaces is non-empty yet yields the empty string, not "U". */
  lemma OnlySpacesYieldEmpty()
    ensures GetInitials(Some("  ")) == ""
  {
    assert Split("  ") == [[], [], []] by {
      assert "  "[1..] == " ";
      assert " "[1..] == "";
    }
  }

  /** A usual case: "al bo" becomes "AB". */
  lemma TwoWordName()
    ensures GetInitials(Some("al bo")) == "AB"
  {
    InitialsAreWordStarts("al bo");
    assert WordStarts("al bo", true) == "ab" by {
      assert "o"[1..] == "";
      assert WordStarts("o", false) == "";
      assert "bo"[1..] == "o";
      assert WordStarts("bo", true) == "b";
      assert " bo"[1..] == "bo";
      assert WordStarts(" bo", false) == "b";
      assert "l bo"[1..] == " bo";
      assert WordStarts("l bo", false) == "b";
      assert "al bo"[1..] == "l bo";
    }
  }
}
