/** The string helpers of the tracker: JavaScript's `String.prototype.trim`,
    the comma split that turns a free-text field into a subcategory list, and
    the HTML escaping applied to every user string before it is rendered. */
module Text {
  import opened Results

  /** The code points `trim` strips: ECMAScript's WhiteSpace and LineTerminator. */
  predicate IsSpace(c: char) {
    || c == '\t' || c == '\n' || c == '\U{B}' || c == '\U{C}' || c == '\r' || c == ' '
    || c == '\U{A0}' || c == '\U{1680}' || ('\U{2000}' <= c <= '\U{200A}')
    || c == '\U{2028}' || c == '\U{2029}' || c == '\U{202F}' || c == '\U{205F}'
    || c == '\U{3000}' || c == '\U{FEFF}'
  }

  predicate AllSpace(s: string) {
    forall k :: 0 <= k < |s| ==> IsSpace(s[k])
  }

  /** Neither end of `s` is white space. */
  predicate Trimmed(s: string) {
    s == [] || (!IsSpace(s[0]) && !IsSpace(s[|s| - 1]))
  }

  /** `r` occurs in `s` at offset `i` and only white space surrounds it. */
  predicate Framed(s: string, i: int, r: string) {
    && 0 <= i && i + |r| <= |s|
    && s[i..i + |r|] == r
    && AllSpace(s[..i])
    && AllSpace(s[i + |r|..])
  }

  /** White space removed from the front. */
  function TrimStart(s: string): (r: string)
    ensures |r| <= |s|
    ensures r != [] ==> !IsSpace(r[0])
  {
    if |s| > 0 && IsSpace(s[0]) then TrimStart(s[1..]) else s
  }

  /** White space removed from the back. */
  function TrimEnd(s: string): (r: string)
    ensures |r| <= |s|
    ensures r != [] ==> r[0] == s[0] && !IsSpace(r[|r| - 1])
  {
    if |s| > 0 && IsSpace(s[|s| - 1]) then TrimEnd(s[..|s| - 1]) else s
  }

  /** `TrimStart` keeps a suffix and drops only white space. */
  lemma {:induction false} TrimStartDrops(s: string)
    ensures TrimStart(s) == s[|s| - |TrimStart(s)|..]
    ensures AllSpace(s[..|s| - |TrimStart(s)|])
    decreases |s|
  {
    if |s| > 0 && IsSpace(s[0]) {
      TrimStartDrops(s[1..]);
      var n := |s| - |TrimStart(s)|;
      assert s[1..][n - 1..] == s[n..];
      assert s[..n] == [s[0]] + s[1..][..n - 1];
    }
  }

  /** `TrimEnd` keeps a prefix and drops only white space. */
  lemma {:induction false} TrimEndDrops(s: string)
    ensures TrimEnd(s) == s[..|TrimEnd(s)|]
    ensures AllSpace(s[|TrimEnd(s)|..])
    decreases |s|
  {
    if |s| > 0 && IsSpace(s[|s| - 1]) {
      var init := s[..|s| - 1];
      TrimEndDrops(init);
      var n := |TrimEnd(s)|;
      assert init[..n] == s[..n];
      assert s[n..] == init[n..] + [s[|s| - 1]];
    }
  }

  /** JavaScript's `s.trim()`: white space removed from both ends. */
  function Trim(s: string): (r: string)
    ensures Trimmed(r) && |r| <= |s|
  {
    TrimEnd(TrimStart(s))
  }

  /** What trimming removes is white space on either side: the result sits
      in `s` framed by nothing but white space. */
  lemma TrimIsFramed(s: string)
    ensures Framed(s, |s| - |TrimStart(s)|, Trim(s))
  {
    var t := TrimStart(s);
    var r := TrimEnd(t);
    var i := |s| - |t|;
    TrimStartDrops(s);
    TrimEndDrops(t);
    assert s[i..i + |r|] == r by {
      assert t[..|r|] == r;
    }
    assert s[i + |r|..] == t[|r|..];
  }

  /** Trimming leaves nothing exactly when the text is all white space, which
      is when the handlers that trim a name reject it. */
  lemma TrimBlank(s: string)
    ensures Trim(s) == [] <==> AllSpace(s)
  {
    TrimIsFramed(s);
    var i := |s| - |TrimStart(s)|;
    if Trim(s) == [] {
      assert s == s[..i] + s[i..];
    } else {
      assert s[i] == Trim(s)[0];
    }
  }

  /** Outside a framed infix there is only white space. */
  lemma SpaceOutside(s: string, i: int, r: string)
    requires Framed(s, i, r)
    ensures forall k :: 0 <= k < i ==> IsSpace(s[k])
    ensures forall k :: i + |r| <= k < |s| ==> IsSpace(s[k])
    ensures forall k :: 0 <= k < |r| ==> s[i + k] == r[k]
  {
    forall k | 0 <= k < i ensures IsSpace(s[k]) {
      assert s[..i][k] == s[k];
    }
    forall k | i + |r| <= k < |s| ensures IsSpace(s[k]) {
      assert s[i + |r|..][k - (i + |r|)] == s[k];
    }
    forall k | 0 <= k < |r| ensures s[i + k] == r[k] {
      assert s[i..i + |r|][k] == s[i + k];
    }
  }

  /** Trimming is determined by its specification: any white-space-framed
      infix of `s` without white space at its ends is `Trim(s)`. */
  lemma {:induction false} TrimUnique(s: string, i: int, r: string)
    requires Trimmed(r) && Framed(s, i, r)
    ensures r == Trim(s)
  {
    TrimIsFramed(s);
    var t, j := Trim(s), |s| - |TrimStart(s)|;
    SpaceOutside(s, i, r);
    SpaceOutside(s, j, t);
    if r != [] && t != [] {
      assert s[i] == r[0] && s[j] == t[0];
      assert i == j;
      assert s[i + |r| - 1] == r[|r| - 1] && s[j + |t| - 1] == t[|t| - 1];
      assert |r| == |t|;
    }
  }

  /** Trimming only removes characters. */
  lemma TrimKeeps(s: string, c: char)
    requires c !in s
    ensures c !in Trim(s)
  {
    TrimIsFramed(s);
  }

  const Comma: char := ','

  /** Inverse of `Split`: the parts joined by commas. */
  function Join(parts: seq<string>): string
    requires |parts| >= 1
  {
    if |parts| == 1 then parts[0] else parts[0] + [Comma] + Join(parts[1..])
  }

  predicate CommaFree(parts: seq<string>) {
    forall k :: 0 <= k < |parts| ==> Comma !in parts[k]
  }

  /** JavaScript's `s.split(',')`: the comma-free pieces that join back to `s`
      (the empty string splits into one empty piece). */
  function Split(s: string): (parts: seq<string>)
    ensures |parts| >= 1
    ensures CommaFree(parts)
    ensures Join(parts) == s
  {
    if |s| == 0 then [[]]
    else
      var rest := Split(s[1..]);
      if s[0] == Comma then
        [[]] + rest
      else
        var parts := [[s[0]] + rest[0]] + rest[1..];
        assert parts[1..] == rest[1..];
        assert Comma !in [s[0]] + rest[0];
        parts
  }

  lemma {:induction false} JoinAppend(xs: seq<string>, ys: seq<string>)
    requires |xs| >= 1 && |ys| >= 1
    ensures Join(xs + ys) == Join(xs) + [Comma] + Join(ys)
    decreases |xs|
  {
    if |xs| == 1 {
      assert (xs + ys)[1..] == ys;
    } else {
      assert (xs + ys)[1..] == xs[1..] + ys;
      JoinAppend(xs[1..], ys);
    }
  }

  /** Splitting is determined by its specification: comma-free pieces that
      join to `s` are exactly `Split(s)`. */
  lemma {:induction false} SplitUnique(s: string, parts: seq<string>)
    requires |parts| >= 1 && CommaFree(parts) && Join(parts) == s
    ensures parts == Split(s)
    decreases |s|, |parts[0]|
  {
    var p := parts[0];
    if |parts| == 1 {
      if |s| > 0 {
        assert s[0] != Comma by { assert s[0] == p[0]; }
        var rest := Split(s[1..]);
        SplitUnique(s[1..], [p[1..]]);
        assert rest == [p[1..]];
        assert [s[0]] + p[1..] == p;
      }
    } else {
      var tail := parts[1..];
      assert s == p + [Comma] + Join(tail);
      assert CommaFree(tail) by {
        forall k | 0 <= k < |tail| ensures Comma !in tail[k] {
          assert tail[k] == parts[k + 1];
        }
      }
      if p == [] {
        assert s[1..] == Join(tail);
        SplitUnique(s[1..], tail);
        assert parts == [[]] + tail;
      } else {
        assert s[0] == p[0];
        assert s[0] != Comma;
        var parts' := [p[1..]] + tail;
        assert parts'[1..] == tail;
        assert s[1..] == p[1..] + [Comma] + Join(tail);
        assert CommaFree(parts') by {
          forall k | 0 <= k < |parts'| ensures Comma !in parts'[k] {
            if k > 0 { assert parts'[k] == parts[k]; }
          }
        }
        SplitUnique(s[1..], parts');
        assert [s[0]] + p[1..] == p;
      }
    }
  }

  /** Splitting at a comma splits the two sides independently. */
  lemma SplitAppend(a: string, b: string)
    ensures Split(a + [Comma] + b) == Split(a) + Split(b)
  {
    var parts := Split(a) + Split(b);
    JoinAppend(Split(a), Split(b));
    assert CommaFree(parts) by {
      forall k | 0 <= k < |parts| ensures Comma !in parts[k] {
        if k >= |Split(a)| { assert parts[k] == Split(b)[k - |Split(a)|]; }
      }
    }
    SplitUnique(a + [Comma] + b, parts);
  }

  function TrimAll(xs: seq<string>): (ys: seq<string>)
    ensures |ys| == |xs|
    ensures forall k :: 0 <= k < |xs| ==> ys[k] == Trim(xs[k])
  {
    if xs == [] then [] else [Trim(xs[0])] + TrimAll(xs[1..])
  }

  /** `filter(Boolean)` on strings: the empty strings removed, order kept. */
  function DropEmpty(xs: seq<string>): (ys: seq<string>)
    ensures |ys| <= |xs|
    ensures forall k :: 0 <= k < |ys| ==> ys[k] != [] && ys[k] in xs
  {
    if xs == [] then []
    else if xs[0] == [] then DropEmpty(xs[1..])
    else [xs[0]] + DropEmpty(xs[1..])
  }

  lemma {:induction false} TrimAllAppend(xs: seq<string>, ys: seq<string>)
    ensures TrimAll(xs + ys) == TrimAll(xs) + TrimAll(ys)
  {
    if xs == [] {
      assert xs + ys == ys;
    } else {
      assert (xs + ys)[1..] == xs[1..] + ys;
      TrimAllAppend(xs[1..], ys);
    }
  }

  lemma {:induction false} DropEmptyAppend(xs: seq<string>, ys: seq<string>)
    ensures DropEmpty(xs + ys) == DropEmpty(xs) + DropEmpty(ys)
  {
    if xs != [] {
      assert (xs + ys)[1..] == xs[1..] + ys;
      DropEmptyAppend(xs[1..], ys);
    } else {
      assert xs + ys == ys;
    }
  }

  /** The subcategory list built from the comma-separated input field:
      split on commas, trim every piece, drop the empty ones. */
  function Subcategories(field: string): (subs: seq<string>)
    ensures forall k :: 0 <= k < |subs| ==> subs[k] != [] && Trimmed(subs[k]) && Comma !in subs[k]
  {
    var pieces := Split(field);
    var trimmed := TrimAll(pieces);
    assert CommaFree(trimmed) by {
      forall k | 0 <= k < |trimmed| ensures Comma !in trimmed[k] {
        TrimKeeps(pieces[k], Comma);
      }
    }
    DropEmpty(trimmed)
  }

  /** A field without commas yields its trimmed text, or nothing when blank. */
  lemma SubcategoriesOfOne(a: string)
    requires Comma !in a
    ensures Subcategories(a) == (if Trim(a) == [] then [] else [Trim(a)])
  {
    assert Join([a]) == a;
    SplitUnique(a, [a]);
  }

  /** Order follows the input: the text before a comma contributes its
      entries first, the text after it contributes the rest. */
  lemma SubcategoriesAppend(a: string, b: string)
    ensures Subcategories(a + [Comma] + b) == Subcategories(a) + Subcategories(b)
  {
    SplitAppend(a, b);
    TrimAllAppend(Split(a), Split(b));
    DropEmptyAppend(TrimAll(Split(a)), TrimAll(Split(b)));
  }

  /** The characters HTML escaping replaces. */
  predicate IsSpecial(c: char) {
    c == '&' || c == '<' || c == '>' || c == '"' || c == '\''
  }

  /** The replacement for one character: an entity for the five special ones. */
  function Entity(c: char): string {
    match c
    case '&' => "&amp;"
    case '<' => "&lt;"
    case '>' => "&gt;"
    case '"' => "&quot;"
    case '\'' => "&#39;"
    case _ => [c]
  }

  /** A character the escaped text never contains. */
  predicate IsMarkup(c: char) {
    c == '<' || c == '>' || c == '"' || c == '\''
  }

  function Escape(s: string): (r: string)
    ensures |r| >= |s|
    ensures forall k :: 0 <= k < |r| ==> !IsMarkup(r[k])
  {
    if s == [] then [] else Entity(s[0]) + Escape(s[1..])
  }

  /** `escapeHtml`: `null` and `undefined` become the empty string. */
  function EscapeHtml(s: Option<string>): (r: string)
    ensures forall k :: 0 <= k < |r| ==> !IsMarkup(r[k])
    ensures s.None? ==> r == []
    ensures s.Some? ==> r == Escape(s.value) && |r| >= |s.value|
  {
    match s
    case None => []
    case Some(text) => Escape(text)
  }

  /** The decoding of the five entities `Escape` produces. */
  function Unescape(s: string): string {
    if |s| == 0 then []
    else if s[0] != '&' then [s[0]] + Unescape(s[1..])
    else if |s| >= 5 && s[..5] == "&amp;" then ['&'] + Unescape(s[5..])
    else if |s| >= 4 && s[..4] == "&lt;" then ['<'] + Unescape(s[4..])
    else if |s| >= 4 && s[..4] == "&gt;" then ['>'] + Unescape(s[4..])
    else if |s| >= 6 && s[..6] == "&quot;" then ['"'] + Unescape(s[6..])
    else if |s| >= 5 && s[..5] == "&#39;" then ['\''] + Unescape(s[5..])
    else [s[0]] + Unescape(s[1..])
  }

  lemma UnescapeEntity(c: char, t: string)
    ensures Unescape(Entity(c) + t) == [c] + Unescape(t)
  {
    var e := Entity(c);
    var s := e + t;
    assert s[..|e|] == e && s[|e|..] == t;
    if IsSpecial(c) {
      assert s[0] == '&';
      // The second character tells the five entities apart.
      assert s[1] == e[1];
      if c == '>' {
        assert s[..4] != "&lt;" by { assert s[..4][1] == 'g'; }
      } else if c == '"' {
        assert s[..4][1] == 'q';
      } else if c == '\'' {
        assert s[..4][1] == '#';
      }
    } else {
      assert e == [c];
      assert s[0] == c && s[1..] == t;
    }
  }

  /** Escaping loses nothing: decoding the entities gives the input back. */
  lemma {:induction false} EscapeRoundTrip(s: string)
    ensures Unescape(Escape(s)) == s
  {
    if s != [] {
      UnescapeEntity(s[0], Escape(s[1..]));
      EscapeRoundTrip(s[1..]);
    }
  }

  /** Escaping works character by character. */
  lemma {:induction false} EscapeAppend(a: string, b: string)
    ensures Escape(a + b) == Escape(a) + Escape(b)
  {
    if a == [] {
      assert a + b == b;
    } else {
      assert (a + b)[1..] == a[1..] + b;
      EscapeAppend(a[1..], b);
    }
  }

  /** Every character is replaced by its own entity, in place: the five
      special ones by their entities, every other one by itself. */
  lemma EscapeEachChar(a: string, c: char, b: string)
    ensures Escape(a + [c] + b) == Escape(a) + Entity(c) + Escape(b)
  {
    EscapeAppend(a + [c], b);
    EscapeAppend(a, [c]);
    assert Escape([c]) == Entity(c) + Escape([]);
  }

  /** Text without the five special characters is left unchanged. */
  lemma {:induction false} EscapeKeepsPlainText(s: string)
    requires forall k :: 0 <= k < |s| ==> !IsSpecial(s[k])
    ensures Escape(s) == s
  {
    if s != [] {
      EscapeKeepsPlainText(s[1..]);
    }
  }
}
