/** Small string utilities with the semantics of the JavaScript built-ins the
    chat page relies on: `String.prototype.trim` and `Array.prototype.join`. */
module Text {

  /** The code points `trim` removes: ECMAScript WhiteSpace (tab, vertical tab,
      form feed, space, no-break space, byte order mark and the Unicode Zs
      category) and LineTerminator (LF, CR, LS, PS). */
  predicate IsWhitespace(c: char) {
    c == '\t' || c == '\U{000B}' || c == '\U{000C}' || c == ' ' ||
    c == '\U{00A0}' || c == '\U{FEFF}' || c == '\U{1680}' ||
    ('\U{2000}' <= c <= '\U{200A}') || c == '\U{202F}' || c == '\U{205F}' ||
    c == '\U{3000}' || c == '\n' || c == '\r' || c == '\U{2028}' || c == '\U{2029}'
  }

  predicate AllWhitespace(s: string) {
    forall i :: 0 <= i < |s| ==> IsWhitespace(s[i])
  }

  /** Drops the leading whitespace (see TrimStartSpec). */
  function TrimStart(s: string): (r: string)
    ensures |r| <= |s|
  {
    if s != [] && IsWhitespace(s[0]) then TrimStart(s[1..]) else s
  }

  /** What TrimStart drops is all whitespace and what it keeps is the suffix
      of `s` that does not start with whitespace. */
  lemma {:induction false} TrimStartSpec(s: string)
    ensures var r := TrimStart(s); r == s[|s| - |r|..]
    ensures var r := TrimStart(s); AllWhitespace(s[..|s| - |r|])
    ensures var r := TrimStart(s); r == [] || !IsWhitespace(r[0])
  {
    if s != [] && IsWhitespace(s[0]) {
      var r := TrimStart(s[1..]);
      TrimStartSpec(s[1..]);
      assert TrimStart(s) == r;
      var k := |s| - |r|;
      assert s[1..][|s| - 1 - |r|..] == s[k..];
      forall i | 0 <= i < k
        ensures IsWhitespace(s[..k][i])
      {
        if i > 0 {
          assert s[..k][i] == s[1..][..k - 1][i - 1];
        }
      }
    } else {
      assert s[..0] == [];
    }
  }

  /** Drops the trailing whitespace (see TrimEndSpec). */
  function TrimEnd(s: string): (r: string)
    ensures |r| <= |s|
  {
    if s != [] && IsWhitespace(s[|s| - 1]) then TrimEnd(s[..|s| - 1]) else s
  }

  /** What TrimEnd drops is all whitespace and what it keeps is the prefix of
      `s` that does not end with whitespace. */
  lemma {:induction false} TrimEndSpec(s: string)
    ensures var r := TrimEnd(s); r == s[..|r|]
    ensures var r := TrimEnd(s); AllWhitespace(s[|r|..])
    ensures var r := TrimEnd(s); r == [] || !IsWhitespace(r[|r| - 1])
  {
    if s != [] && IsWhitespace(s[|s| - 1]) {
      var r := TrimEnd(s[..|s| - 1]);
      TrimEndSpec(s[..|s| - 1]);
      assert TrimEnd(s) == r;
      assert s[..|s| - 1][..|r|] == s[..|r|];
      forall i | |r| <= i < |s|
        ensures IsWhitespace(s[i])
      {
        if i < |s| - 1 {
          assert s[i] == s[..|s| - 1][|r|..][i - |r|];
        }
      }
    } else {
      assert s[|s|..] == [];
    }
  }

  /** `s.trim()`: the text without its leading and trailing whitespace, so
      it neither starts nor ends with whitespace. */
  function Trim(s: string): (r: string)
    ensures |r| <= |s|
    ensures r == [] || (!IsWhitespace(r[0]) && !IsWhitespace(r[|r| - 1]))
  {
    TrimStartSpec(s);
    TrimEndSpec(TrimStart(s));
    var r := TrimEnd(TrimStart(s));
    assert r == [] || r[0] == TrimStart(s)[0];
    r
  }

  /** Trimming leaves nothing exactly when the string is all whitespace
      (`!input.trim()` in the source). */
  lemma TrimEmptyIff(s: string)
    ensures Trim(s) == [] <==> AllWhitespace(s)
  {
    var t := TrimStart(s);
    TrimStartSpec(s);
    TrimEndSpec(t);
    if Trim(s) == [] {
      assert t == [];
      assert s[..|s|] == s;
    }
  }

  /** Trim cuts `s` into leading whitespace, the trimmed text and trailing
      whitespace. */
  lemma TrimDecomposes(s: string)
    ensures var lead := |s| - |TrimStart(s)|;
      lead + |Trim(s)| <= |s| &&
      AllWhitespace(s[..lead]) &&
      s[lead..lead + |Trim(s)|] == Trim(s) &&
      AllWhitespace(s[lead + |Trim(s)|..])
  {
    TrimStartSpec(s);
    TrimEndSpec(TrimStart(s));
    Decompose(s, TrimStart(s), Trim(s));
  }

  /** The slicing argument behind TrimDecomposes: a suffix `t` of `s` after
      white space, cut into a prefix `r` and an all-white-space rest. */
  lemma Decompose(s: string, t: string, r: string)
    requires |t| <= |s| && t == s[|s| - |t|..] && AllWhitespace(s[..|s| - |t|])
    requires |r| <= |t| && r == t[..|r|] && AllWhitespace(t[|r|..])
    ensures var lead := |s| - |t|;
      lead + |r| <= |s| &&
      AllWhitespace(s[..lead]) &&
      s[lead..lead + |r|] == r &&
      AllWhitespace(s[lead + |r|..])
  {
    var lead := |s| - |t|;
    assert s[lead + |r|..] == t[|r|..];
  }

  /** Trim is the identity on text padded with whitespace whose first and last
      characters are not whitespace: the unique decomposition of
      TrimDecomposes. */
  lemma TrimPadded(pre: string, body: string, post: string)
    requires AllWhitespace(pre) && AllWhitespace(post)
    requires body != [] && !IsWhitespace(body[0]) && !IsWhitespace(body[|body| - 1])
    ensures Trim(pre + body + post) == body
  {
    assert pre + body + post == pre + (body + post);
    TrimStartPadded(pre, body + post);
    TrimEndPadded(body, post);
  }

  lemma {:induction false} TrimStartPadded(pre: string, rest: string)
    requires AllWhitespace(pre)
    requires rest != [] && !IsWhitespace(rest[0])
    ensures TrimStart(pre + rest) == rest
  {
    if pre != [] {
      assert (pre + rest)[1..] == pre[1..] + rest;
      TrimStartPadded(pre[1..], rest);
    }
  }

  lemma {:induction false} TrimEndPadded(body: string, post: string)
    requires AllWhitespace(post)
    requires body != [] && !IsWhitespace(body[|body| - 1])
    ensures TrimEnd(body + post) == body
  {
    if post != [] {
      assert (body + post)[..|body + post| - 1] == body + post[..|post| - 1];
      TrimEndPadded(body, post[..|post| - 1]);
    } else {
      assert body + post == body;
    }
  }

  /** Trimming twice is trimming once: a general property of
      `String.prototype.trim`. */
  lemma TrimIdempotent(s: string)
    ensures Trim(Trim(s)) == Trim(s)
  {
    var r := Trim(s);
    if r != [] {
      TrimPadded([], r, []);
      assert [] + r + [] == r;
    }
  }

  /** `parts.join(sep)`: the parts in order with `sep` between neighbours,
      nothing before the first and nothing after the last. */
  function Join(parts: seq<string>, sep: string): (r: string)
    ensures |parts| == 0 ==> r == ""
    ensures |parts| > 0 ==> |parts[0]| <= |r| && r[..|parts[0]|] == parts[0]
  {
    if |parts| == 0 then ""
    else if |parts| == 1 then parts[0]
    else parts[0] + sep + Join(parts[1..], sep)
  }

  /** Where part `i` begins in `Join(parts, sep)`. */
  function Offset(parts: seq<string>, sep: string, i: nat): (o: nat)
    requires i < |parts|
  {
    if i == 0 then 0 else |parts[0]| + |sep| + Offset(parts[1..], sep, i - 1)
  }

  /** A slice lying wholly in the right operand of a concatenation. */
  lemma SliceRight(a: string, b: string, lo: nat, hi: nat)
    requires |a| <= lo <= hi <= |a| + |b|
    ensures (a + b)[lo..hi] == b[lo - |a|..hi - |a|]
  {
  }

  /** The layout of a joined string: part `i` sits at `Offset(parts, sep, i)`,
      is preceded by `sep` unless it is the first (which starts the string),
      and the last part ends the string. */
  lemma JoinLayout(parts: seq<string>, sep: string, i: nat)
    requires i < |parts|
    ensures Offset(parts, sep, i) + |parts[i]| <= |Join(parts, sep)|
    ensures Join(parts, sep)[Offset(parts, sep, i)..Offset(parts, sep, i) + |parts[i]|] == parts[i]
    ensures i == 0 ==> Offset(parts, sep, i) == 0
    ensures i > 0 ==> (|sep| <= Offset(parts, sep, i) &&
      Join(parts, sep)[Offset(parts, sep, i) - |sep|..Offset(parts, sep, i)] == sep)
    ensures i == |parts| - 1 ==> Offset(parts, sep, i) + |parts[i]| == |Join(parts, sep)|
  {
    PartPlaced(parts, sep, i);
    if i > 0 {
      SeparatorBefore(parts, sep, i);
    }
  }

  /** Part `i` sits at its offset, and the last part ends the string. */
  lemma {:induction false} PartPlaced(parts: seq<string>, sep: string, i: nat)
    requires i < |parts|
    ensures Offset(parts, sep, i) + |parts[i]| <= |Join(parts, sep)|
    ensures Join(parts, sep)[Offset(parts, sep, i)..Offset(parts, sep, i) + |parts[i]|] == parts[i]
    ensures i == |parts| - 1 ==> Offset(parts, sep, i) + |parts[i]| == |Join(parts, sep)|
  {
    if |parts| == 1 {
      assert Join(parts, sep) == parts[0];
    } else if i == 0 {
      assert Join(parts, sep) == parts[0] + (sep + Join(parts[1..], sep));
    } else {
      var rest := Join(parts[1..], sep);
      var front := parts[0] + sep;
      assert Join(parts, sep) == front + rest;
      PartPlaced(parts[1..], sep, i - 1);
      var o := |front| + Offset(parts[1..], sep, i - 1);
      assert Offset(parts, sep, i) == o;
      assert parts[1..][i - 1] == parts[i];
      SliceRight(front, rest, o, o + |parts[i]|);
    }
  }

  /** Every part but the first follows a separator. */
  lemma {:induction false} SeparatorBefore(parts: seq<string>, sep: string, i: nat)
    requires 0 < i < |parts|
    ensures |sep| <= Offset(parts, sep, i) <= |Join(parts, sep)|
    ensures Join(parts, sep)[Offset(parts, sep, i) - |sep|..Offset(parts, sep, i)] == sep
  {
    var rest := Join(parts[1..], sep);
    var front := parts[0] + sep;
    assert Join(parts, sep) == front + rest;
    if i == 1 {
      assert Offset(parts, sep, i) == |front|;
      assert (front + rest)[|front| - |sep|..|front|] == front[|parts[0]|..];
    } else {
      SeparatorBefore(parts[1..], sep, i - 1);
      var o := |front| + Offset(parts[1..], sep, i - 1);
      assert Offset(parts, sep, i) == o;
      SliceRight(front, rest, o - |sep|, o);
    }
  }

  /** Index of the first occurrence of `c` in `s`. */
  function FirstIndex(s: string, c: char): (k: nat)
    requires c in s
    ensures k < |s| && s[k] == c && c !in s[..k]
  {
    if s[0] == c then 0 else 1 + FirstIndex(s[1..], c)
  }

  /** `s.split(c)` for a one-character separator: the maximal pieces of `s`
      that do not contain `c`, in order. */
  function Split(s: string, c: char): (pieces: seq<string>)
    ensures |pieces| >= 1
    decreases |s|
  {
    if c in s then
      var k := FirstIndex(s, c);
      [s[..k]] + Split(s[k + 1..], c)
    else [s]
  }

  /** Splitting a text on the first separator it holds. */
  lemma SplitAtFirst(a: string, c: char, b: string)
    requires c !in a
    ensures Split(a + [c] + b, c) == [a] + Split(b, c)
  {
    var s := a + [c] + b;
    assert s[|a|] == c;
    var k := FirstIndex(s, c);
    assert k == |a|;
    assert s[..k] == a;
    assert s[k + 1..] == b;
  }

  /** Joining with a one-character separator that no part contains loses
      nothing: splitting on that character gives the parts back. */
  lemma {:induction false} SplitJoin(parts: seq<string>, c: char)
    requires parts != []
    requires forall i :: 0 <= i < |parts| ==> c !in parts[i]
    ensures Split(Join(parts, [c]), c) == parts
  {
    if |parts| == 1 {
      assert Join(parts, [c]) == parts[0];
    } else {
      var rest := Join(parts[1..], [c]);
      assert Join(parts, [c]) == parts[0] + [c] + rest;
      SplitJoin(parts[1..], c);
      SplitAtFirst(parts[0], c, rest);
      assert parts == [parts[0]] + parts[1..];
    }
  }

  /** `Object.entries(m).map(([name, relation]) => name + ": " + relation)`:
      one line per entry, in entry order. */
  function RelationLines(entries: seq<(string, string)>): (lines: seq<string>)
    ensures |lines| == |entries|
    ensures forall i :: 0 <= i < |entries| ==> lines[i] == entries[i].0 + ": " + entries[i].1
  {
    if entries == [] then []
    else [entries[0].0 + ": " + entries[0].1] + RelationLines(entries[1..])
  }
}
