/**
 * The few JavaScript string operations the backend relies on: `trim`, the
 * regular expression `/\s+/g`, `toLowerCase`, `includes` and `Array.join`.
 */
module Text {

  /** The characters JavaScript's `\s` and `String.prototype.trim` treat as
      white space: WhiteSpace and LineTerminator of ECMA-262. */
  predicate IsWhitespace(c: char)
  {
    || c == ' ' || c == '\t' || c == '\n' || c == '\r'
    || c == '\U{000B}' || c == '\U{000C}' || c == '\U{00A0}' || c == '\U{1680}'
    || ('\U{2000}' <= c <= '\U{200A}')
    || c == '\U{2028}' || c == '\U{2029}' || c == '\U{202F}' || c == '\U{205F}'
    || c == '\U{3000}' || c == '\U{FEFF}'
  }

  /** No two white-space characters stand next to each other. */
  predicate SingleSpaced(s: string)
  {
    forall i :: 0 < i < |s| ==> !(IsWhitespace(s[i - 1]) && IsWhitespace(s[i]))
  }

  /** Every white-space character in `s` is a plain space. */
  predicate OnlyPlainSpaces(s: string)
  {
    forall i :: 0 <= i < |s| && IsWhitespace(s[i]) ==> s[i] == ' '
  }

  /** The characters of `s` that are not white space, in order. */
  function Visible(s: string): string
  {
    if s == [] then []
    else if IsWhitespace(s[0]) then Visible(s[1..])
    else [s[0]] + Visible(s[1..])
  }

  predicate StartsWith(s: string, prefix: string)
  {
    |prefix| <= |s| && s[..|prefix|] == prefix
  }

  predicate EndsWith(s: string, suffix: string)
  {
    |suffix| <= |s| && s[|s| - |suffix|..] == suffix
  }

  /** Drops the leading white space. */
  function TrimStart(s: string): (r: string)
    ensures |r| <= |s|
  {
    if s != [] && IsWhitespace(s[0]) then TrimStart(s[1..]) else s
  }

  /** Drops the trailing white space. */
  function TrimEnd(s: string): (r: string)
    ensures |r| <= |s|
  {
    if s != [] && IsWhitespace(s[|s| - 1]) then TrimEnd(s[..|s| - 1]) else s
  }

  /** `TrimStart` keeps a suffix that does not start with white space, and
      what it drops is all white space. */
  lemma {:induction false} TrimStartShape(s: string)
    ensures var r := TrimStart(s);
      && r == s[|s| - |r|..]
      && (r == [] || !IsWhitespace(r[0]))
      && forall i :: 0 <= i < |s| - |r| ==> IsWhitespace(s[i])
  {
    if s != [] && IsWhitespace(s[0]) {
      TrimStartShape(s[1..]);
    }
  }

  /** `TrimEnd` keeps a prefix that does not end with white space, and what
      it drops is all white space. */
  lemma {:induction false} TrimEndShape(s: string)
    ensures var r := TrimEnd(s);
      && r == s[..|r|]
      && (r == [] || !IsWhitespace(r[|r| - 1]))
      && forall i :: |r| <= i < |s| ==> IsWhitespace(s[i])
  {
    if s != [] && IsWhitespace(s[|s| - 1]) {
      TrimEndShape(s[..|s| - 1]);
    }
  }

  /** `String.prototype.trim`. */
  function Trim(s: string): string
  {
    TrimEnd(TrimStart(s))
  }

  /** `Trim` gives a contiguous slice of `s` that neither starts nor ends with
      white space, and everything it cuts away is white space. */
  lemma TrimShape(s: string)
    ensures exists a: nat :: TrimmedAt(s, Trim(s), a)
    ensures var r := Trim(s); r == [] || (!IsWhitespace(r[0]) && !IsWhitespace(r[|r| - 1]))
  {
    var t := TrimStart(s);
    var r := TrimEnd(t);
    TrimStartShape(s);
    TrimEndShape(t);
    var a := |s| - |t|;
    assert r == s[a..a + |r|];
    forall i | a + |r| <= i < |s| ensures IsWhitespace(s[i]) {
      assert s[i] == t[i - a];
    }
    assert forall i :: 0 <= i < a ==> IsWhitespace(s[i]);
    assert Trim(s) == r;
    assert TrimmedAt(s, Trim(s), a);
  }

  /** `r` stands at position `a` of `s`, and only white space is around it. */
  predicate TrimmedAt(s: string, r: string, a: nat)
  {
    && OccursAt(s, r, a)
    && (forall i :: 0 <= i < a ==> IsWhitespace(s[i]))
    && (forall i :: a + |r| <= i < |s| ==> IsWhitespace(s[i]))
  }

  /** `s.replace(/\s+/g, ' ')`: every maximal run of white space becomes one space. */
  function CollapseWhitespace(s: string): string
    decreases |s|
  {
    if s == [] then []
    else if IsWhitespace(s[0]) then [' '] + CollapseWhitespace(TrimStart(s[1..]))
    else [s[0]] + CollapseWhitespace(s[1..])
  }

  /** The collapsed text is single-spaced with plain spaces only, starts with
      white space exactly when the input does, and keeps the visible text. */
  lemma {:induction false} CollapseShape(s: string)
    ensures var r := CollapseWhitespace(s);
      && SingleSpaced(r) && OnlyPlainSpaces(r)
      && (r == []) == (s == [])
      && (r != [] ==> (IsWhitespace(r[0]) == IsWhitespace(s[0])))
      && Visible(r) == Visible(s)
  {
    if s == [] {
    } else if IsWhitespace(s[0]) {
      var rest := TrimStart(s[1..]);
      TrimStartShape(s[1..]);
      CollapseShape(rest);
      VisibleSkipsWhitespace(s[1..], |s[1..]| - |rest|);
      var r := CollapseWhitespace(s);
      assert r == [' '] + CollapseWhitespace(rest);
      assert r[1..] == CollapseWhitespace(rest);
    } else {
      CollapseShape(s[1..]);
      var r := CollapseWhitespace(s);
      assert r[1..] == CollapseWhitespace(s[1..]);
    }
  }

  /** `TrimStart` passes over white space up to the first visible character. */
  lemma {:induction false} TrimStartOverWhitespace(w: string, v: string)
    requires forall i :: 0 <= i < |w| ==> IsWhitespace(w[i])
    requires v == [] || !IsWhitespace(v[0])
    ensures TrimStart(w + v) == v
  {
    if w != [] {
      assert (w + v)[1..] == w[1..] + v;
      TrimStartOverWhitespace(w[1..], v);
    } else {
      assert w + v == v;
    }
  }

  /** `TrimStart` stops inside a text that ends with a visible character, so
      whatever follows that text is kept. */
  lemma {:induction false} TrimStartAppend(x: string, y: string)
    requires x != [] && !IsWhitespace(x[|x| - 1])
    ensures TrimStart(x + y) == TrimStart(x) + y
  {
    if IsWhitespace(x[0]) {
      assert (x + y)[1..] == x[1..] + y;
      TrimStartAppend(x[1..], y);
    }
  }

  /** `TrimEnd` stops inside a text that has a visible character, so whatever
      precedes that text is kept. */
  lemma {:induction false} TrimEndPrepend(x: string, y: string, k: nat)
    requires k < |y| && !IsWhitespace(y[k])
    ensures TrimEnd(x + y) == x + TrimEnd(y)
  {
    if IsWhitespace(y[|y| - 1]) {
      assert (x + y)[..|x + y| - 1] == x + y[..|y| - 1];
      TrimEndPrepend(x, y[..|y| - 1], k);
    }
  }

  /** Collapsing works run by run: text that ends with a visible character is
      collapsed independently of what follows it. */
  lemma {:induction false} CollapseAppend(u: string, v: string)
    requires u == [] || !IsWhitespace(u[|u| - 1])
    ensures CollapseWhitespace(u + v) == CollapseWhitespace(u) + CollapseWhitespace(v)
    decreases |u|
  {
    if u == [] {
      assert u + v == v;
    } else if IsWhitespace(u[0]) {
      var t := TrimStart(u[1..]);
      assert (u + v)[1..] == u[1..] + v;
      TrimStartAppend(u[1..], v);
      TrimStartShape(u[1..]);
      assert t[|t| - 1] == u[|u| - 1];
      CollapseAppend(t, v);
      AppendAssoc([' '], CollapseWhitespace(t), CollapseWhitespace(v));
    } else {
      assert (u + v)[1..] == u[1..] + v;
      CollapseAppend(u[1..], v);
      AppendAssoc([u[0]], CollapseWhitespace(u[1..]), CollapseWhitespace(v));
    }
  }

  lemma AppendAssoc(a: string, b: string, c: string)
    ensures (a + b) + c == a + (b + c)
  {
  }

  /** Collapsing keeps a visible last character in last place. */
  lemma {:induction false} CollapseKeepsLast(u: string)
    requires u != [] && !IsWhitespace(u[|u| - 1])
    ensures var r := CollapseWhitespace(u); r != [] && r[|r| - 1] == u[|u| - 1]
    decreases |u|
  {
    if |u| > 1 {
      if IsWhitespace(u[0]) {
        var t := TrimStart(u[1..]);
        TrimStartShape(u[1..]);
        assert t[|t| - 1] == u[|u| - 1];
        CollapseKeepsLast(t);
      } else {
        CollapseKeepsLast(u[1..]);
      }
    }
  }

  /** Every run of white space between two words, whatever its length and
      its characters, becomes exactly one plain space. */
  lemma CollapseRun(u: string, w: string, v: string)
    requires u == [] || !IsWhitespace(u[|u| - 1])
    requires w != [] && forall i :: 0 <= i < |w| ==> IsWhitespace(w[i])
    requires v == [] || !IsWhitespace(v[0])
    ensures CollapseWhitespace(u + w + v) == CollapseWhitespace(u) + (" " + CollapseWhitespace(v))
  {
    var x := w + v;
    var cu, cv := CollapseWhitespace(u), CollapseWhitespace(v);
    assert CollapseWhitespace(x) == " " + cv by {
      CollapseLeadingRun(w, v);
    }
    assert CollapseWhitespace(u + x) == cu + CollapseWhitespace(x) by {
      CollapseAppend(u, x);
    }
    assert u + w + v == u + x;
  }

  /** A leading run of white space becomes one space before the first word. */
  lemma CollapseLeadingRun(w: string, v: string)
    requires w != [] && forall i :: 0 <= i < |w| ==> IsWhitespace(w[i])
    requires v == [] || !IsWhitespace(v[0])
    ensures CollapseWhitespace(w + v) == " " + CollapseWhitespace(v)
  {
    var x := w + v;
    assert IsWhitespace(x[0]);
    assert x[1..] == w[1..] + v;
    TrimStartOverWhitespace(w[1..], v);
  }

  /** Dropping a white-space prefix does not change the visible text. */
  lemma {:induction false} VisibleSkipsWhitespace(s: string, k: nat)
    requires k <= |s|
    requires forall i :: 0 <= i < k ==> IsWhitespace(s[i])
    ensures Visible(s[k..]) == Visible(s)
  {
    if k > 0 {
      assert s[1..][k - 1..] == s[k..];
      VisibleSkipsWhitespace(s[1..], k - 1);
    }
  }

  /** The visible text of a concatenation is the concatenation of the visible texts. */
  lemma {:induction false} VisibleAppend(a: string, b: string)
    ensures Visible(a + b) == Visible(a) + Visible(b)
  {
    if a == [] {
      assert a + b == b;
    } else {
      assert (a + b)[1..] == a[1..] + b;
      VisibleAppend(a[1..], b);
    }
  }

  /** White space alone has no visible text. */
  lemma {:induction false} VisibleOfWhitespace(s: string)
    requires forall i :: 0 <= i < |s| ==> IsWhitespace(s[i])
    ensures Visible(s) == []
  {
    if s != [] {
      VisibleOfWhitespace(s[1..]);
    }
  }

  /** A contiguous slice of a single-spaced string is single-spaced. */
  lemma SliceSingleSpaced(s: string, a: nat, b: nat)
    requires a <= b <= |s| && SingleSpaced(s) && OnlyPlainSpaces(s)
    ensures SingleSpaced(s[a..b]) && OnlyPlainSpaces(s[a..b])
  {
    forall i | 0 <= i < b - a && IsWhitespace(s[a..b][i]) ensures s[a..b][i] == ' ' {
      assert s[a..b][i] == s[a + i];
    }
    forall i | 0 < i < b - a
      ensures !(IsWhitespace(s[a..b][i - 1]) && IsWhitespace(s[a..b][i]))
    {
      assert s[a..b][i - 1] == s[a + i - 1] && s[a..b][i] == s[a + i];
    }
  }

  function LowerChar(c: char): char
  {
    if 'A' <= c <= 'Z' then (c as int + 32) as char else c
  }

  /** `toLowerCase`, restricted to the ASCII letters. */
  function Lower(s: string): (r: string)
    ensures |r| == |s|
    ensures forall i :: 0 <= i < |s| ==> r[i] == LowerChar(s[i])
  {
    if s == [] then [] else [LowerChar(s[0])] + Lower(s[1..])
  }

  /** Lowering works character by character, so it distributes over concatenation. */
  lemma LowerAppend(a: string, b: string)
    ensures Lower(a + b) == Lower(a) + Lower(b)
  {
    assert forall i :: 0 <= i < |a + b| ==> Lower(a + b)[i] == (Lower(a) + Lower(b))[i];
  }

  /** Lowering twice is lowering once. */
  lemma LowerIdempotent(s: string)
    ensures Lower(Lower(s)) == Lower(s)
  {
  }

  predicate OccursAt(s: string, sub: string, i: nat)
  {
    i + |sub| <= |s| && s[i..i + |sub|] == sub
  }

  /** `s.includes(sub)`. */
  predicate Contains(s: string, sub: string)
  {
    StartsWith(s, sub) || (s != [] && Contains(s[1..], sub))
  }

  /** `Contains` agrees with the positional definition of a substring. */
  lemma {:induction false} ContainsIffOccurs(s: string, sub: string)
    ensures Contains(s, sub) <==> exists i: nat :: OccursAt(s, sub, i)
  {
    if StartsWith(s, sub) {
      assert OccursAt(s, sub, 0);
    } else if s == [] {
    } else {
      ContainsIffOccurs(s[1..], sub);
      if i: nat :| OccursAt(s, sub, i) {
        assert i != 0;
        assert s[1..][i - 1..i - 1 + |sub|] == s[i..i + |sub|];
        assert OccursAt(s[1..], sub, i - 1);
      }
      if i: nat :| OccursAt(s[1..], sub, i) {
        assert s[1..][i..i + |sub|] == s[i + 1..i + 1 + |sub|];
        assert OccursAt(s, sub, i + 1);
      }
    }
  }

  /** A string that starts with `sub` contains it, whatever follows. */
  lemma StartsWithContains(s: string, sub: string)
    requires StartsWith(s, sub)
    ensures Contains(s, sub)
  {
  }

  /** `subs.some(sub => s.includes(sub))`. */
  predicate ContainsAny(s: string, subs: seq<string>)
  {
    subs != [] && (Contains(s, subs[0]) || ContainsAny(s, subs[1..]))
  }

  /** `ContainsAny` holds exactly when one of the strings occurs. */
  lemma {:induction false} ContainsAnyIff(s: string, subs: seq<string>)
    ensures ContainsAny(s, subs) <==> exists i :: 0 <= i < |subs| && Contains(s, subs[i])
  {
    if subs != [] {
      ContainsAnyIff(s, subs[1..]);
      if exists i :: 0 <= i < |subs| && Contains(s, subs[i]) {
        var i :| 0 <= i < |subs| && Contains(s, subs[i]);
        if i > 0 {
          assert subs[1..][i - 1] == subs[i];
        }
      }
    }
  }

  /** `Array.prototype.join`. */
  function Join(parts: seq<string>, sep: string): string
  {
    if |parts| == 0 then ""
    else if |parts| == 1 then parts[0]
    else parts[0] + sep + Join(parts[1..], sep)
  }

  /** Joining one more part puts a separator and that part at the end. */
  lemma {:induction false} JoinSnoc(parts: seq<string>, p: string, sep: string)
    requires parts != []
    ensures Join(parts + [p], sep) == Join(parts, sep) + sep + p
  {
    if |parts| > 1 {
      assert (parts + [p])[1..] == parts[1..] + [p];
      JoinSnoc(parts[1..], p, sep);
    }
  }

  /** A join of non-empty parts is empty exactly when there are no parts. */
  lemma {:induction false} JoinEmpty(parts: seq<string>, sep: string)
    requires forall i :: 0 <= i < |parts| ==> parts[i] != ""
    ensures Join(parts, sep) == "" <==> parts == []
  {
    if |parts| > 1 {
      JoinEmpty(parts[1..], sep);
    }
  }
}
