/** The name transformer (utils.go, `templatise`): turns a tag name into the
    name of its template parameter. It leans on three library functions,
    modelled here on their ASCII behaviour: strings.Split on ".",
    strings.Title, and camelcase.Split from github.com/fatih/camelcase. */
module Names {

  predicate IsLower(c: char) { 'a' <= c <= 'z' }

  predicate IsUpper(c: char) { 'A' <= c <= 'Z' }

  predicate IsDigit(c: char) { '0' <= c <= '9' }

  /** unicode.ToTitle on ASCII: lower-case letters become upper-case. */
  function ToTitle(c: char): (r: char)
    ensures IsLower(c) ==> IsUpper(r) && r as int == c as int - 32
    ensures !IsLower(c) ==> r == c
  {
    if IsLower(c) then (c as int - 32) as char else c
  }

  /** strings.Title's word boundary: in ASCII everything but letters, digits
      and `_`; beyond ASCII only white space (letters and digits are never
      white space). */
  predicate IsSeparator(c: char)
  {
    if c as int <= 0x7F then !(IsLower(c) || IsUpper(c) || IsDigit(c) || c == '_')
    else (c as int == 0x85 || c as int == 0xA0 || c as int == 0x1680
          || 0x2000 <= c as int <= 0x200A || c as int == 0x2028 || c as int == 0x2029
          || c as int == 0x202F || c as int == 0x205F || c as int == 0x3000)
  }

  /** strings.Title, continuing after the character `prev`: every character
      that follows a separator is title-cased. */
  function TitleAfter(prev: char, s: string): (r: string)
    ensures |r| == |s|
    ensures forall i :: 0 <= i < |s| ==>
      r[i] == if IsSeparator(if i == 0 then prev else s[i - 1]) then ToTitle(s[i]) else s[i]
    decreases |s|
  {
    if s == "" then "" else [if IsSeparator(prev) then ToTitle(s[0]) else s[0]] + TitleAfter(s[0], s[1..])
  }

  /** strings.Title: the first letter of every word is title-cased. */
  function Title(s: string): (r: string)
    ensures |r| == |s|
    ensures s != "" ==> r[0] == ToTitle(s[0])
    ensures forall i :: 1 <= i < |s| ==> r[i] == if IsSeparator(s[i - 1]) then ToTitle(s[i]) else s[i]
  {
    TitleAfter(' ', s)
  }

  /** Title only raises lower-case letters, so it never adds or removes a dot. */
  lemma TitleChanges(s: string)
    ensures forall i :: 0 <= i < |s| ==> Title(s)[i] == s[i] || (IsLower(s[i]) && Title(s)[i] == ToTitle(s[i]))
    ensures ('.' in Title(s)) <==> ('.' in s)
  {
    var r := Title(s);
    forall i | 0 <= i < |s| ensures r[i] == s[i] || (IsLower(s[i]) && r[i] == ToTitle(s[i])) {
      if i == 0 { assert r[0] == ToTitle(s[0]); }
      else { assert r[i] == if IsSeparator(s[i - 1]) then ToTitle(s[i]) else s[i]; }
    }
    if '.' in r {
      var i :| 0 <= i < |r| && r[i] == '.';
      assert s[i] == '.';
    }
    if '.' in s {
      var i :| 0 <= i < |s| && s[i] == '.';
      assert r[i] == '.';
    }
  }

  /** strings.Join(ss, ""). */
  function Concat(ss: seq<string>): string
  {
    if ss == [] then "" else ss[0] + Concat(ss[1..])
  }

  lemma {:induction false} ConcatAppend(a: seq<string>, b: seq<string>)
    ensures Concat(a + b) == Concat(a) + Concat(b)
  {
    if a != [] {
      assert (a + b)[1..] == a[1..] + b;
      ConcatAppend(a[1..], b);
      calc {
        Concat(a + b);
        (a + b)[0] + Concat((a + b)[1..]);
        a[0] + Concat(a[1..] + b);
        a[0] + (Concat(a[1..]) + Concat(b));
        (a[0] + Concat(a[1..])) + Concat(b);
      }
    } else {
      assert a + b == b;
    }
  }

  /** strings.Join(ss, "."). */
  function JoinDots(ss: seq<string>): string
  {
    if ss == [] then "" else if |ss| == 1 then ss[0] else ss[0] + "." + JoinDots(ss[1..])
  }

  /** The position of the first dot in `s`. */
  function FirstDot(s: string): (k: nat)
    requires '.' in s
    ensures k < |s| && s[k] == '.' && '.' !in s[..k]
  {
    if s[0] == '.' then 0
    else
      assert '.' in s[1..] by {
        var i :| 0 <= i < |s| && s[i] == '.';
        assert s[1..][i - 1] == '.';
      }
      var k := 1 + FirstDot(s[1..]);
      assert s[..k] == [s[0]] + s[1..][..k - 1];
      k
  }

  /** strings.Split(s, "."): the pieces between the dots, empty ones kept. */
  function SplitDots(s: string): (r: seq<string>)
    ensures |r| >= 1
    ensures forall i :: 0 <= i < |r| ==> '.' !in r[i]
    ensures JoinDots(r) == s
    decreases |s|
  {
    if '.' !in s then [s]
    else
      var k := FirstDot(s);
      var rest := SplitDots(s[k + 1..]);
      assert s == s[..k] + "." + s[k + 1..];
      [s[..k]] + rest
  }

  /** The transformed dot-segments, each title-cased. */
  function TitleAll(ss: seq<string>): (r: seq<string>)
    ensures |r| == |ss|
    ensures forall i :: 0 <= i < |ss| ==> r[i] == Title(ss[i])
  {
    if ss == [] then [] else [Title(ss[0])] + TitleAll(ss[1..])
  }

  /** The four character sets camelcase.Split tells apart. */
  datatype CharClass = LowerClass | UpperClass | DigitClass | OtherClass

  function ClassOf(c: char): CharClass
  {
    if IsLower(c) then LowerClass
    else if IsUpper(c) then UpperClass
    else if IsDigit(c) then DigitClass
    else OtherClass
  }

  /** Every character of `w` is in the class of its first one. */
  predicate SameClass(w: string)
    requires w != ""
  {
    forall j :: 0 <= j < |w| ==> ClassOf(w[j]) == ClassOf(w[0])
  }

  /** camelcase.Split's first pass: the maximal runs of characters of one
      class. */
  function Runs(s: string): (r: seq<string>)
    ensures Concat(r) == s
    ensures forall i :: 0 <= i < |r| ==> r[i] != "" && SameClass(r[i])
    ensures forall i :: 0 <= i < |r| - 1 ==> ClassOf(r[i][0]) != ClassOf(r[i + 1][0])
    ensures s != "" ==> r != [] && r[0][0] == s[0]
    decreases |s|
  {
    if s == "" then []
    else
      var rest := Runs(s[1..]);
      if rest != [] && ClassOf(rest[0][0]) == ClassOf(s[0]) then
        assert Concat(rest[1..]) == s[1..][|rest[0]|..];
        [[s[0]] + rest[0]] + rest[1..]
      else
        [[s[0]]] + rest
  }

  /** camelcase.Split's second pass, left to right: whenever a run starting
      with an upper-case letter is followed by one starting with a lower-case
      letter, the last character of the first moves to the front of the
      second ("PDFL", "oader" becomes "PDF", "Loader"). */
  function Adjust(rs: seq<string>): (r: seq<string>)
    requires forall i :: 0 <= i < |rs| ==> rs[i] != ""
    ensures Concat(r) == Concat(rs)
    decreases |rs|
  {
    if |rs| < 2 then rs
    else if IsUpper(rs[0][0]) && IsLower(rs[1][0]) then
      var n := |rs[0]|;
      var moved := [[rs[0][n - 1]] + rs[1]] + rs[2..];
      var r := [rs[0][..n - 1]] + Adjust(moved);
      assert moved[1..] == rs[2..];
      assert rs[0] == rs[0][..n - 1] + [rs[0][n - 1]];
      r
    else
      [rs[0]] + Adjust(rs[1..])
  }

  /** camelcase.Split's last pass: drop the runs the second pass emptied. */
  function NonEmpty(rs: seq<string>): (r: seq<string>)
    ensures Concat(r) == Concat(rs)
    ensures forall i :: 0 <= i < |r| ==> r[i] != ""
  {
    if rs == [] then []
    else if rs[0] == "" then NonEmpty(rs[1..])
    else [rs[0]] + NonEmpty(rs[1..])
  }

  /** camelcase.Split on a valid string: its non-empty camel-case words. */
  function CamelSplit(s: string): (r: seq<string>)
    ensures Concat(r) == s
    ensures forall i :: 0 <= i < |r| ==> r[i] != ""
    ensures s == "" <==> r == []
  {
    NonEmpty(Adjust(Runs(s)))
  }

  /** The parameter name derived from a tag: for a dotted tag the title-cased
      segments joined without separator, otherwise the camel-case words with
      only the first title-cased. A dot-free empty tag has no words and the
      source indexes the first one: the caller must not pass "". */
  function Templatise(tag: string): string
    requires tag != ""
  {
    if '.' in tag then DottedName(tag) else CamelName(tag)
  }

  function DottedName(tag: string): string
    requires '.' in tag
  {
    Concat(TitleAll(SplitDots(tag)))
  }

  function CamelName(tag: string): string
    requires tag != ""
  {
    var tokens := CamelSplit(tag);
    Concat([Title(tokens[0])] + tokens[1..])
  }

  /** `w` is unchanged by Title except for its first character: no lower-case
      letter after the first position follows a separator. */
  predicate TitleStable(w: string)
  {
    forall i :: 1 <= i < |w| && IsLower(w[i]) ==> !IsSeparator(w[i - 1])
  }

  lemma TitleOfStable(w: string)
    requires w != "" && TitleStable(w)
    ensures Title(w) == [ToTitle(w[0])] + w[1..]
  {
    var r := Title(w);
    forall i | 1 <= i < |w| ensures r[i] == w[i] {
      assert r[i] == if IsSeparator(w[i - 1]) then ToTitle(w[i]) else w[i];
      if IsLower(w[i]) { assert !IsSeparator(w[i - 1]); }
    }
  }

  lemma SameClassStable(w: string)
    requires w != "" && SameClass(w)
    ensures TitleStable(w)
  {
    forall i | 1 <= i < |w| && IsLower(w[i]) ensures !IsSeparator(w[i - 1]) {
      assert ClassOf(w[i]) == ClassOf(w[0]) == ClassOf(w[i - 1]);
    }
  }

  /** The first camel-case word of a non-empty string is a prefix that Title
      changes only in its first character. */
  lemma CamelHead(s: string)
    requires s != ""
    ensures var t := CamelSplit(s)[0];
      |t| <= |s| && t == s[..|t|] && TitleStable(t)
  {
    var tokens := CamelSplit(s);
    var t := tokens[0];
    assert Concat(tokens) == t + Concat(tokens[1..]);
    assert t == s[..|t|];
    FirstWordStable(s);
  }

  lemma FirstWordStable(s: string)
    requires s != ""
    ensures TitleStable(CamelSplit(s)[0])
  {
    var rs := Runs(s);
    var t := CamelSplit(s)[0];
    var ad := Adjust(rs);
    if |rs| >= 2 && IsUpper(rs[0][0]) && IsLower(rs[1][0]) {
      var n := |rs[0]|;
      var moved := [[rs[0][n - 1]] + rs[1]] + rs[2..];
      assert ad == [rs[0][..n - 1]] + Adjust(moved);
      if n > 1 {
        assert t == rs[0][..n - 1];
        SameClassStable(rs[0]);
      } else {
        MovedHeadStable(s);
      }
    } else {
      assert ad[0] == rs[0];
      SameClassStable(rs[0]);
    }
  }

  /** The upper-case run was a single letter: it now heads the next word. */
  lemma MovedHeadStable(s: string)
    requires s != ""
    requires |Runs(s)| >= 2 && IsUpper(Runs(s)[0][0]) && IsLower(Runs(s)[1][0]) && |Runs(s)[0]| == 1
    ensures TitleStable(CamelSplit(s)[0])
  {
    var rs := Runs(s);
    var ad := Adjust(rs);
    var moved := [[rs[0][0]] + rs[1]] + rs[2..];
    assert ad == [rs[0][..0]] + Adjust(moved);
    var w := moved[0];
    if |moved| >= 2 {
      assert ClassOf(rs[2][0]) != ClassOf(rs[1][0]) == LowerClass;
      assert !IsLower(moved[1][0]);
    }
    assert Adjust(moved)[0] == w;
    assert ad[1..] == Adjust(moved);
    assert NonEmpty(ad) == NonEmpty(ad[1..]);
    assert CamelSplit(s)[0] == w;
    forall i | 1 <= i < |w| && IsLower(w[i]) ensures !IsSeparator(w[i - 1]) {
      if i > 1 { assert ClassOf(rs[1][i - 2]) == ClassOf(rs[1][0]); }
    }
  }

  /** A dot-free tag comes out with its first character title-cased and
      everything else untouched: only the first camel-case word is passed
      through Title, and Title changes only that word's first letter. */
  lemma TemplatiseCamel(tag: string)
    requires tag != "" && '.' !in tag
    ensures Templatise(tag) == [ToTitle(tag[0])] + tag[1..]
  {
    CamelNameHead(tag);
  }

  lemma CamelNameHead(tag: string)
    requires tag != ""
    ensures CamelName(tag) == [ToTitle(tag[0])] + tag[1..]
  {
    var tokens := CamelSplit(tag);
    var t := tokens[0];
    var tail := Concat(tokens[1..]);
    CamelHead(tag);
    TitleOfStable(t);
    assert tag == t + tail by {
      assert Concat(tokens) == t + tail;
    }
    assert CamelName(tag) == Title(t) + tail by {
      HeadConcat(Title(t), tokens[1..]);
    }
    HeadSwap(tag, t, tail, ToTitle(t[0]));
  }

  lemma HeadConcat(w: string, rest: seq<string>)
    ensures Concat([w] + rest) == w + Concat(rest)
  {
    assert ([w] + rest)[1..] == rest;
  }

  lemma HeadSwap(tag: string, t: string, tail: string, c: char)
    requires t != "" && tag == t + tail
    ensures [c] + t[1..] + tail == [c] + tag[1..]
  {
    assert tag[1..] == t[1..] + tail;
  }

  /** The doc comment's example: `<doSomething>` becomes DoSomething. */
  lemma TemplatiseDoSomething(tag: string)
    requires tag == "doSomething"
    ensures Templatise(tag) == "DoSomething"
  {
    TemplatiseCamel(tag);
    assert ToTitle(tag[0]) == 'D';
  }

  /** Removing the dots from a dot-joined sequence of dot-free pieces leaves
      their concatenation. */
  function RemoveDots(s: string): (r: string)
    ensures '.' !in r
  {
    if s == "" then "" else (if s[0] == '.' then "" else [s[0]]) + RemoveDots(s[1..])
  }

  lemma {:induction false} RemoveDotsOfDotFree(s: string)
    requires '.' !in s
    ensures RemoveDots(s) == s
  {
    if s != "" {
      assert '.' !in s[1..];
      RemoveDotsOfDotFree(s[1..]);
    }
  }

  lemma {:induction false} RemoveDotsAfterSegment(a: string, tail: string)
    requires '.' !in a
    ensures RemoveDots(a + "." + tail) == a + RemoveDots(tail)
  {
    var s := a + "." + tail;
    if a == "" {
      assert s[0] == '.' && s[1..] == tail;
    } else {
      assert s[0] == a[0] && s[1..] == a[1..] + "." + tail;
      RemoveDotsAfterSegment(a[1..], tail);
      assert a == [a[0]] + a[1..];
    }
  }

  lemma {:induction false} RemoveDotsJoin(ss: seq<string>)
    requires forall i :: 0 <= i < |ss| ==> '.' !in ss[i]
    ensures RemoveDots(JoinDots(ss)) == Concat(ss)
  {
    if |ss| == 1 {
      RemoveDotsOfDotFree(ss[0]);
      assert Concat(ss) == ss[0] + Concat([]);
    } else if |ss| > 1 {
      RemoveDotsJoin(ss[1..]);
      RemoveDotsAfterSegment(ss[0], JoinDots(ss[1..]));
    }
  }

  /** Title only raises lower-case letters, character by character. */
  predicate RaisedFrom(r: string, s: string)
  {
    |r| == |s| && forall i :: 0 <= i < |s| ==> r[i] == s[i] || (IsLower(s[i]) && r[i] == ToTitle(s[i]))
  }

  lemma {:induction false} RaisedConcat(rs: seq<string>, ss: seq<string>)
    requires |rs| == |ss| && forall i :: 0 <= i < |ss| ==> RaisedFrom(rs[i], ss[i])
    ensures RaisedFrom(Concat(rs), Concat(ss))
  {
    if ss != [] {
      RaisedConcat(rs[1..], ss[1..]);
      var a, b := Concat(rs[1..]), Concat(ss[1..]);
      assert Concat(rs) == rs[0] + a && Concat(ss) == ss[0] + b;
      forall i | 0 <= i < |Concat(ss)|
        ensures Concat(rs)[i] == Concat(ss)[i] || (IsLower(Concat(ss)[i]) && Concat(rs)[i] == ToTitle(Concat(ss)[i]))
      {
        if i >= |ss[0]| {
          assert Concat(rs)[i] == a[i - |ss[0]|] && Concat(ss)[i] == b[i - |ss[0]|];
        } else {
          assert Concat(rs)[i] == rs[0][i] && Concat(ss)[i] == ss[0][i];
        }
      }
    }
  }

  /** A dotted tag comes out as its dot-free characters, each segment's
      letters possibly raised to upper case, and the first letter of every
      segment title-cased: no dot survives. */
  lemma TemplatiseDotted(tag: string)
    requires '.' in tag
    ensures var r := Templatise(tag);
      '.' !in r && RaisedFrom(r, RemoveDots(tag))
    ensures var segs := SplitDots(tag);
      forall i :: 0 <= i < |segs| && segs[i] != "" ==> TitleAll(segs)[i][0] == ToTitle(segs[i][0])
  {
    var segs := SplitDots(tag);
    var titled := TitleAll(segs);
    forall i | 0 <= i < |segs| ensures RaisedFrom(titled[i], segs[i]) && '.' !in titled[i] {
      TitleChanges(segs[i]);
    }
    RaisedConcat(titled, segs);
    RemoveDotsJoin(segs);
  }
}
