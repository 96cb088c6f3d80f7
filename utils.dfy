/** The pure helpers of the templating engine (utils.go): the stack frame, the
    indentation, the whitespace trimming the handlers apply to character data,
    and the test for text that has already been turned into a placeholder. */
module Utils {
  import opened Xml

  /** An open element on a handler's stack: its start tag, and whether a child
      element has been seen inside it. */
  datatype Node = Node(xml: StartElement, container: bool)

  /** The frame pushed for a start tag: no child has been seen yet. */
  function NewNode(element: StartElement): (n: Node)
    ensures n.xml == element
    ensures !n.container
  {
    Node(element, false)
  }

  /** A string of `n` blanks. */
  function Spaces(n: nat): (r: string)
    ensures |r| == n
    ensures forall i :: 0 <= i < |r| ==> r[i] == ' '
  {
    if n == 0 then "" else " " + Spaces(n - 1)
  }

  function Abs(n: int): nat
  {
    if n < 0 then -n else n
  }

  /** The indentation for `count` levels, two blanks per level. The source pads
      the empty string to a width of `count * 2`; Go's formatter reads the sign
      of a negative width as one more left-justify flag, so `Tab(-1)` is two
      blanks as well. */
  function Tab(count: int): (r: string)
    ensures |r| == 2 * Abs(count)
    ensures forall i :: 0 <= i < |r| ==> r[i] == ' '
  {
    Spaces(2 * Abs(count))
  }

  lemma TabOfLevel(count: nat)
    ensures Tab(count) == Spaces(2 * count)
    ensures |Tab(count)| == 2 * count
  {
  }

  /** Go's unicode.IsSpace: the ASCII blanks, NEL, NBSP and the other code
      points with the Unicode White_Space property. */
  predicate IsSpace(c: char)
  {
    var n := c as int;
    n == 0x20 || 0x09 <= n <= 0x0D || n == 0x85 || n == 0xA0 || n == 0x1680
    || 0x2000 <= n <= 0x200A || n == 0x2028 || n == 0x2029 || n == 0x202F
    || n == 0x205F || n == 0x3000
  }

  /** Every character of `s` is white space (the empty string included). */
  predicate Blank(s: string)
  {
    forall i :: 0 <= i < |s| ==> IsSpace(s[i])
  }

  /** The end of the run of white space that starts at `i`. */
  function SpacesFrom(s: string, i: nat): (j: nat)
    requires i <= |s|
    ensures i <= j <= |s|
    ensures forall k :: i <= k < j ==> IsSpace(s[k])
    ensures j == |s| || !IsSpace(s[j])
    decreases |s| - i
  {
    if i < |s| && IsSpace(s[i]) then SpacesFrom(s, i + 1) else i
  }

  /** The start of the run of white space that ends at `j`, not going below
      `lo`. */
  function SpacesUntil(s: string, lo: nat, j: nat): (i: nat)
    requires lo <= j <= |s|
    ensures lo <= i <= j
    ensures forall k :: i <= k < j ==> IsSpace(s[k])
    ensures i == lo || !IsSpace(s[i - 1])
    decreases j
  {
    if lo < j && IsSpace(s[j - 1]) then SpacesUntil(s, lo, j - 1) else j
  }

  /** Where the trimmed text starts and ends. */
  function TrimStart(s: string): nat
    ensures TrimStart(s) <= |s|
  {
    SpacesFrom(s, 0)
  }

  function TrimEnd(s: string): nat
    ensures TrimStart(s) <= TrimEnd(s) <= |s|
  {
    SpacesUntil(s, TrimStart(s), |s|)
  }

  /** Go's strings.TrimSpace: `s` without leading and trailing white space. */
  function TrimSpace(s: string): (r: string)
    ensures |r| <= |s|
    ensures r != "" ==> !IsSpace(r[0]) && !IsSpace(r[|r| - 1])
  {
    s[TrimStart(s)..TrimEnd(s)]
  }

  /** TrimSpace keeps a contiguous part of its input, drops only white space
      around it, and starts and ends on non-blank characters; it is empty
      exactly when the input is blank. */
  lemma TrimSpaceSpec(s: string)
    ensures var r := TrimSpace(s);
      var a := TrimStart(s);
      var b := TrimEnd(s);
      && a <= b <= |s| && r == s[a..b]
      && (forall k :: 0 <= k < a ==> IsSpace(s[k]))
      && (forall k :: b <= k < |s| ==> IsSpace(s[k]))
      && (r != "" ==> !IsSpace(r[0]) && !IsSpace(r[|r| - 1]))
      && (r == "" <==> Blank(s))
  {
    var a := TrimStart(s);
    var b := TrimEnd(s);
    var r := TrimSpace(s);
    if r == "" {
      assert a == b;
      assert forall k :: 0 <= k < |s| ==> IsSpace(s[k]) by {
        forall k | 0 <= k < |s| ensures IsSpace(s[k]) {
          assert k < a || b <= k;
        }
      }
    } else {
      assert r[0] == s[a] && r[|r| - 1] == s[b - 1];
    }
  }

  /** The already-templated test `^{{[^}}]*}}$` read the way the regular
      expression engine runs it: the literal `{{`, then `[^}]*` (the class
      `[^}}]` lists `}` twice and is the one-character class `[^}]`), then the
      literal `}}` at the very end. The star cannot cross a `}`, so at the
      first `}` the rest must be exactly `}}`. */
  predicate PatternMatches(s: string)
    ensures PatternMatches(s) ==> |s| >= 4 && s[..2] == "{{" && s[|s| - 2..] == "}}"
  {
    |s| >= 2 && s[0] == '{' && s[1] == '{' &&
      (MatchesTailSpec(s[2..]);
       assert |s| >= 4 ==> s[2..][|s| - 4..] == s[|s| - 2..];
       MatchesTail(s[2..]))
  }

  /** `[^}]*}}$` against `t`. */
  predicate MatchesTail(t: string)
  {
    if t == "" then false
    else if t[0] != '}' then
      assert |t| >= 3 ==> t[1..][|t| - 3..] == t[|t| - 2..];
      MatchesTail(t[1..])
    else t == "}}"
  }

  /** The strings the pattern describes: brace-brace, then anything without a
      closing brace, then brace-brace. */
  predicate Templated(s: string)
  {
    && |s| >= 4
    && s[..2] == "{{"
    && s[|s| - 2..] == "}}"
    && forall i :: 2 <= i < |s| - 2 ==> s[i] != '}'
  }

  lemma {:induction false} MatchesTailSpec(t: string)
    ensures MatchesTail(t) <==>
      |t| >= 2 && t[|t| - 2..] == "}}" && forall i :: 0 <= i < |t| - 2 ==> t[i] != '}'
  {
    if t != "" && t[0] != '}' {
      MatchesTailSpec(t[1..]);
      if |t| >= 3 {
        assert t[1..][|t| - 3..] == t[|t| - 2..];
        if MatchesTail(t[1..]) {
          forall i | 0 <= i < |t| - 2 ensures t[i] != '}' {
            if i > 0 { assert t[1..][i - 1] == t[i]; }
          }
        } else if t[|t| - 2..] == "}}" {
          var j :| 0 <= j < |t| - 3 && t[1..][j] == '}';
          assert t[j + 1] == '}';
        }
      }
    }
  }

  /** The regular expression accepts exactly the templated strings. */
  lemma PatternMatchesTemplated(s: string)
    ensures PatternMatches(s) <==> Templated(s)
  {
    if |s| >= 2 {
      MatchesTailSpec(s[2..]);
      if |s| >= 4 {
        assert s[2..][|s| - 4..] == s[|s| - 2..];
        if s[0] == '{' && s[1] == '{' && MatchesTail(s[2..]) {
          forall i | 2 <= i < |s| - 2 ensures s[i] != '}' {
            assert s[2..][i - 2] == s[i];
          }
        }
        if Templated(s) {
          forall i | 0 <= i < |s| - 4 ensures s[2..][i] != '}' {
            assert s[2..][i] == s[i + 2];
          }
        }
      }
    }
  }

  /** The pattern is anchored at both ends: appending anything but a closing
      pair to a match breaks it, so a placeholder followed by text is not taken
      as pre-authored. */
  lemma PatternAnchored(s: string, c: char)
    requires PatternMatches(s) && c != '}'
    ensures !PatternMatches(s + [c])
  {
    PatternMatchesTemplated(s);
    PatternMatchesTemplated(s + [c]);
    var t := s + [c];
    assert t[|t| - 1] == c;
  }
}
