/** The string operations the selector parser takes from the Rust standard library. */
module Text {

  /** The Unicode White_Space property, which is what `str::trim` removes. */
  predicate IsWhitespace(c: char) {
    var u := c as int;
    || 0x09 <= u <= 0x0D || u == 0x20 || u == 0x85 || u == 0xA0 || u == 0x1680
    || 0x2000 <= u <= 0x200A || u == 0x2028 || u == 0x2029 || u == 0x202F || u == 0x205F || u == 0x3000
  }

  predicate NoTrailingSpace(s: string) {
    s != [] ==> !IsWhitespace(s[|s| - 1])
  }

  function TrimStart(s: string): (r: string)
    ensures r != [] ==> !IsWhitespace(r[0])
    ensures forall c :: c in r ==> c in s
  {
    if s != [] && IsWhitespace(s[0]) then TrimStart(s[1..]) else s
  }

  function TrimEnd(s: string): (r: string)
    ensures NoTrailingSpace(r)
    ensures r <= s
  {
    if s != [] && IsWhitespace(s[|s| - 1]) then TrimEnd(s[..|s| - 1]) else s
  }

  function Trim(s: string): (r: string)
    ensures NoTrailingSpace(r)
    ensures forall c :: c in r ==> c in s
  {
    TrimEnd(TrimStart(s))
  }

  predicate AllSpace(s: string) {
    forall i :: 0 <= i < |s| ==> IsWhitespace(s[i])
  }

  /** Neither starts nor ends in whitespace. */
  predicate Tight(s: string) {
    s != "" ==> !IsWhitespace(s[0]) && !IsWhitespace(s[|s| - 1])
  }

  /** Which characters are whitespace, each by its code. */
  lemma WhitespaceCodes(c: char)
    ensures IsWhitespace(c) <==>
              c as int in {9, 10, 11, 12, 13, 32, 133, 160, 5760, 8192, 8193, 8194, 8195, 8196, 8197, 8198, 8199, 8200,
                           8201, 8202, 8232, 8233, 8239, 8287, 12288}
    ensures IsWhitespace(' ') && IsWhitespace('\t') && IsWhitespace('\n') && IsWhitespace('\r')
  {}

  lemma {:induction false} TrimStartCuts(a: string, m: string)
    requires AllSpace(a) && (m != "" ==> !IsWhitespace(m[0]))
    ensures TrimStart(a + m) == m
  {
    if a == "" {
      assert a + m == m;
    } else {
      assert (a + m)[1..] == a[1..] + m;
      TrimStartCuts(a[1..], m);
    }
  }

  lemma {:induction false} TrimEndCuts(m: string, b: string)
    requires AllSpace(b) && (m != "" ==> !IsWhitespace(m[|m| - 1]))
    ensures TrimEnd(m + b) == m
  {
    if b == "" {
      assert m + b == m;
    } else {
      var front := b[..|b| - 1];
      assert (m + b)[..|m + b| - 1] == m + front;
      assert (m + b)[|m + b| - 1] == b[|b| - 1];
      TrimEndCuts(m, front);
    }
  }

  lemma {:induction false} TrimStartSplits(s: string) returns (a: string)
    ensures AllSpace(a) && s == a + TrimStart(s)
  {
    if s != "" && IsWhitespace(s[0]) {
      var rest := TrimStartSplits(s[1..]);
      a := [s[0]] + rest;
    } else {
      a := "";
    }
  }

  lemma {:induction false} TrimEndSplits(s: string) returns (b: string)
    ensures AllSpace(b) && s == TrimEnd(s) + b
  {
    if s != "" && IsWhitespace(s[|s| - 1]) {
      var rest := TrimEndSplits(s[..|s| - 1]);
      b := rest + [s[|s| - 1]];
    } else {
      b := "";
    }
  }

  lemma TrimCuts(a: string, m: string, b: string)
    requires AllSpace(a) && AllSpace(b) && Tight(m)
    ensures Trim(a + m + b) == m
  {
    if m == "" {
      TrimStartCuts(a + b, "");
      assert a + m + b == a + b + "";
    } else {
      TrimStartCuts(a, m + b);
      assert a + m + b == a + (m + b);
      TrimEndCuts(m, b);
    }
  }

  /** Trimming gives exactly the part without outer whitespace: that, and nothing else, is left between two blanks. */
  lemma TrimIff(s: string, m: string)
    ensures Trim(s) == m <==> exists a, b :: s == a + m + b && AllSpace(a) && AllSpace(b) && Tight(m)
  {
    hide TrimStart, TrimEnd;
    if Trim(s) == m {
      var a := TrimStartSplits(s);
      var b := TrimEndSplits(TrimStart(s));
      assert s == a + m + b;
      assert m != "" ==> m[0] == TrimStart(s)[0];
    }
    if a, b :| s == a + m + b && AllSpace(a) && AllSpace(b) && Tight(m) {
      TrimCuts(a, m, b);
    }
  }

  lemma Nested(a: string, c: string, m: string, d: string, b: string)
    ensures a + (c + m + d) + b == (a + c) + m + (d + b)
  {}

  /** Whitespace around a text changes nothing about what is left of it. */
  lemma TrimPadded(a: string, s: string, b: string)
    requires AllSpace(a) && AllSpace(b)
    ensures Trim(a + s + b) == Trim(s)
  {
    hide Trim;
    var m := Trim(s);
    TrimIff(s, m);
    var c, d :| s == c + m + d && AllSpace(c) && AllSpace(d) && Tight(m);
    Nested(a, c, m, d, b);
    assert AllSpace(a + c) && AllSpace(d + b);
    hide AllSpace, Tight;
    TrimIff(a + s + b, m);
  }

  /** `str::split` on one character: always at least one piece. */
  function Split(s: string, sep: char): (parts: seq<string>)
    ensures |parts| >= 1
    ensures forall i :: 0 <= i < |parts| ==> sep !in parts[i]
  {
    if s == [] then [""]
    else
      var rest := Split(s[1..], sep);
      if s[0] == sep then [""] + rest else [[s[0]] + rest[0]] + rest[1..]
  }

  function Join(parts: seq<string>, sep: char): string {
    if parts == [] then ""
    else if |parts| == 1 then parts[0]
    else parts[0] + [sep] + Join(parts[1..], sep)
  }

  function IndexOf(s: string, c: char): (i: nat)
    requires c in s
    ensures i < |s| && s[i] == c && c !in s[..i]
  {
    if s[0] == c then 0 else 1 + IndexOf(s[1..], c)
  }

  /** `str::splitn`: at most `n` pieces, the last one holding the unsplit rest. */
  function SplitN(s: string, n: nat, sep: char): (parts: seq<string>)
    requires n >= 1
    ensures 1 <= |parts| <= n
    decreases n
  {
    if n == 1 || sep !in s then [s]
    else
      var i := IndexOf(s, sep);
      [s[..i]] + SplitN(s[i + 1..], n - 1, sep)
  }

  lemma {:induction false} SplitWhole(s: string, sep: char)
    requires sep !in s
    ensures Split(s, sep) == [s]
  {
    if s != [] {
      SplitWhole(s[1..], sep);
      assert [s[0]] + s[1..] == s;
    }
  }

  /** Splitting distributes over a separator. */
  lemma {:induction false} SplitConcat(a: string, b: string, sep: char)
    ensures Split(a + [sep] + b, sep) == Split(a, sep) + Split(b, sep)
  {
    var whole := a + [sep] + b;
    if a == [] {
      assert whole[1..] == b;
    } else {
      assert whole[1..] == a[1..] + [sep] + b;
      SplitConcat(a[1..], b, sep);
    }
  }

  /** Splitting undoes joining whenever no piece holds the separator. */
  lemma {:induction false} SplitJoin(parts: seq<string>, sep: char)
    requires parts != []
    requires forall i :: 0 <= i < |parts| ==> sep !in parts[i]
    ensures Split(Join(parts, sep), sep) == parts
  {
    SplitWhole(parts[0], sep);
    if |parts| > 1 {
      SplitConcat(parts[0], Join(parts[1..], sep), sep);
      SplitJoin(parts[1..], sep);
    }
  }

  lemma {:induction false} IndexOfConcat(a: string, c: char, b: string)
    requires c !in a
    ensures c in a + [c] + b && IndexOf(a + [c] + b, c) == |a|
  {
    var s := a + [c] + b;
    assert s[|a|] == c;
    if a != [] {
      assert s[1..] == a[1..] + [c] + b;
      IndexOfConcat(a[1..], c, b);
    }
  }

  lemma SplitNFirst(a: string, rest: string, n: nat, sep: char)
    requires sep !in a && n > 1
    ensures SplitN(a + [sep] + rest, n, sep) == [a] + SplitN(rest, n - 1, sep)
  {
    IndexOfConcat(a, sep, rest);
    var s := a + [sep] + rest;
    assert s[..|a|] == a && s[|a| + 1..] == rest;
  }

  /** A three-way split cuts at the first two separators only; separators in the rest survive. */
  lemma SplitThree(a: string, b: string, c: string, sep: char)
    requires sep !in a && sep !in b
    ensures SplitN(a + [sep] + (b + [sep] + c), 3, sep) == [a, b, c]
  {
    SplitNFirst(a, b + [sep] + c, 3, sep);
    SplitNFirst(b, c, 2, sep);
    assert SplitN(c, 1, sep) == [c];
  }

  /** The third piece of a three-way split is a suffix of the text, so it ends as the text ends. */
  lemma SplitThreeLast(s: string, sep: char)
    requires |SplitN(s, 3, sep)| == 3
    ensures var v := SplitN(s, 3, sep)[2]; |v| < |s| && v == s[|s| - |v|..]
  {
    var rest := s[IndexOf(s, sep) + 1..];
    assert SplitN(s, 3, sep)[1..] == SplitN(rest, 2, sep);
    var last := rest[IndexOf(rest, sep) + 1..];
    assert SplitN(rest, 2, sep)[1..] == SplitN(last, 1, sep);
  }

  lemma SplitNStep(s: string, n: nat, sep: char)
    requires n >= 1
    ensures SplitN(s, n, sep) ==
            if n == 1 || sep !in s then [s]
            else [s[..IndexOf(s, sep)]] + SplitN(s[IndexOf(s, sep) + 1..], n - 1, sep)
  {
    hide IndexOf;
  }

  lemma CutAt(s: string, i: nat)
    requires i < |s|
    ensures s == s[..i] + [s[i]] + s[i + 1..]
  {}

  lemma Regroup(a: string, b: string, c: string, sep: char)
    ensures a + [sep] + (b + [sep] + c) == a + [sep] + b + [sep] + c
  {}

  lemma SplitThreeParts(s: string, sep: char)
    requires |SplitN(s, 3, sep)| == 3
    ensures var p := SplitN(s, 3, sep);
            sep !in p[0] && sep !in p[1] && s == p[0] + [sep] + p[1] + [sep] + p[2]
  {
    hide SplitN, IndexOf;
    SplitNStep(s, 3, sep);
    var i := IndexOf(s, sep);
    var rest := s[i + 1..];
    SplitNStep(rest, 2, sep);
    var j := IndexOf(rest, sep);
    var last := rest[j + 1..];
    SplitNStep(last, 1, sep);
    var p := SplitN(s, 3, sep);
    assert p[0] == s[..i] && p[1] == rest[..j] && p[2] == last;
    CutAt(s, i);
    CutAt(rest, j);
    Regroup(p[0], p[1], p[2], sep);
  }

  /** The three pieces are what stands before the first separator, between the first two, and after the second. */
  lemma SplitThreeIff(s: string, a: string, b: string, c: string, sep: char)
    ensures SplitN(s, 3, sep) == [a, b, c] <==> sep !in a && sep !in b && s == a + [sep] + b + [sep] + c
  {
    hide SplitN;
    if SplitN(s, 3, sep) == [a, b, c] {
      SplitThreeParts(s, sep);
    }
    if sep !in a && sep !in b && s == a + [sep] + b + [sep] + c {
      SplitThree(a, b, c, sep);
      assert s == a + [sep] + (b + [sep] + c);
    }
  }

  /** There are three pieces exactly if there are two separators. */
  lemma ThreePiecesIff(s: string, sep: char)
    ensures |SplitN(s, 3, sep)| == 3 <==> exists i, j :: 0 <= i < j < |s| && s[i] == sep && s[j] == sep
  {
    if sep in s {
      var i := IndexOf(s, sep);
      var rest := s[i + 1..];
      assert |SplitN(s, 3, sep)| == 1 + |SplitN(rest, 2, sep)|;
      assert forall k :: i < k < |s| ==> s[k] == rest[k - i - 1];
      assert forall k :: 0 <= k < i ==> s[k] == s[..i][k];
      if sep in rest {
        var j := IndexOf(rest, sep);
        assert s[i + 1 + j] == sep;
        assert |SplitN(rest, 2, sep)| == 2;
      }
    }
  }
}
