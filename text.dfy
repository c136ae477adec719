/** The string primitives the analysis engine relies on: `toLowerCase`,
    `split(' ')`, `includes` and the decimal rendering of a number inside a
    template string. Strings are sequences of code points. */
module Text {

  /** Lower-cases one character: ASCII A-Z and the Latin-1 capitals
      U+00C0..U+00DE (except the multiplication sign U+00D7) move up by 32;
      everything else is left alone. */
  function LowerChar(c: char): (r: char)
    ensures IsUpper(c) ==> r as int == c as int + 32
    ensures !IsUpper(c) ==> r == c
    ensures !IsUpper(r)
  {
    if IsUpper(c) then (c as int + 32) as char else c
  }

  predicate IsUpper(c: char) {
    ('A' <= c <= 'Z') || ('\U{00C0}' <= c <= '\U{00DE}' && c != '\U{00D7}')
  }

  /** `s.toLowerCase()`, character by character. */
  function Lower(s: string): (r: string)
    ensures |r| == |s|
    ensures forall i :: 0 <= i < |s| ==> r[i] == LowerChar(s[i])
  {
    seq(|s|, i requires 0 <= i < |s| => LowerChar(s[i]))
  }

  lemma LowerIdempotent(s: string)
    ensures Lower(Lower(s)) == Lower(s)
  {
  }

  lemma LowerKeepsSpaces(c: char)
    ensures LowerChar(c) == ' ' <==> c == ' '
  {
  }

  lemma LowerConcat(a: string, b: string)
    ensures Lower(a + b) == Lower(a) + Lower(b)
  {
    assert Lower(a + b) == Lower(a) + Lower(b);
  }

  /** `s.split(' ')` with JavaScript semantics: the empty string gives one
      empty token, and two adjacent spaces give an empty token between them. */
  function Split(s: string): (r: seq<string>)
    ensures |r| >= 1
    decreases |s|
  {
    if s == [] then [[]]
    else if s[0] == ' ' then [[]] + Split(s[1..])
    else
      var rest := Split(s[1..]);
      [[s[0]] + rest[0]] + rest[1..]
  }

  /** `tokens.join(' ')`, the inverse of Split. */
  function Join(tokens: seq<string>): string
    requires |tokens| >= 1
  {
    if |tokens| == 1 then tokens[0] else tokens[0] + " " + Join(tokens[1..])
  }

  predicate SpaceFree(t: string) {
    forall i :: 0 <= i < |t| ==> t[i] != ' '
  }

  /** Number of occurrences of `c` in `s`. */
  function Occurrences(s: string, c: char): nat {
    if s == [] then 0 else (if s[0] == c then 1 else 0) + Occurrences(s[1..], c)
  }

  /** No token of a split contains the separator, and there is one more
      token than there are separators. */
  lemma {:induction false} SplitTokens(s: string)
    ensures forall k :: 0 <= k < |Split(s)| ==> SpaceFree(Split(s)[k])
    ensures |Split(s)| == Occurrences(s, ' ') + 1
    decreases |s|
  {
    if s != [] {
      SplitTokens(s[1..]);
    }
  }

  /** Joining the tokens of a split gives back the string. */
  lemma {:induction false} JoinSplit(s: string)
    ensures Join(Split(s)) == s
    decreases |s|
  {
    if s == [] {
    } else if s[0] == ' ' {
      JoinSplit(s[1..]);
      assert s == [' '] + s[1..];
    } else {
      var rest := Split(s[1..]);
      JoinSplit(s[1..]);
      if |rest| == 1 {
        assert s == [s[0]] + rest[0];
      } else {
        assert Join(rest) == rest[0] + " " + Join(rest[1..]);
        assert Split(s)[1..] == rest[1..];
        assert s == [s[0]] + s[1..];
      }
    }
  }

  /** Splitting `t + rest` for a separator-free `t` glues `t` onto the first
      token of `rest`. */
  lemma {:induction false} SplitSpaceFreePrefix(t: string, rest: string)
    requires SpaceFree(t)
    ensures Split(t + rest) == [t + Split(rest)[0]] + Split(rest)[1..]
    decreases |t|
  {
    if t == [] {
      assert t + rest == rest;
      assert t + Split(rest)[0] == Split(rest)[0];
      assert Split(rest) == [Split(rest)[0]] + Split(rest)[1..];
    } else {
      SplitSpaceFreePrefix(t[1..], rest);
      assert t + rest == [t[0]] + (t[1..] + rest);
      SplitCons(t[0], t[1..] + rest);
      assert [t[0]] + (t[1..] + Split(rest)[0]) == t + Split(rest)[0];
    }
  }

  /** Splitting a join of separator-free tokens gives the tokens back. */
  lemma {:induction false} SplitJoin(tokens: seq<string>)
    requires |tokens| >= 1
    requires forall k :: 0 <= k < |tokens| ==> SpaceFree(tokens[k])
    ensures Split(Join(tokens)) == tokens
    decreases |tokens|
  {
    if |tokens| == 1 {
      SplitSpaceFreePrefix(tokens[0], []);
      assert tokens[0] + [] == tokens[0];
    } else {
      var rest := Join(tokens[1..]);
      SplitJoin(tokens[1..]);
      SplitSpaceFreePrefix(tokens[0], " " + rest);
      assert tokens[0] + " " + rest == tokens[0] + (" " + rest);
      assert (" " + rest)[0] == ' ' && (" " + rest)[1..] == rest;
      assert Split(" " + rest) == [[]] + tokens[1..];
      assert tokens[0] + [] == tokens[0];
      assert tokens == [tokens[0]] + tokens[1..];
    }
  }

  /** Splitting at a space splits each side on its own. */
  lemma {:induction false} SplitAtSpace(a: string, b: string)
    ensures Split(a + " " + b) == Split(a) + Split(b)
    decreases |a|
  {
    if a == [] {
      SplitLeadingSpace(b);
      assert a + " " + b == " " + b;
    } else {
      SplitAtSpace(a[1..], b);
      assert a + " " + b == [a[0]] + (a[1..] + " " + b);
      assert a == [a[0]] + a[1..];
      SplitAtSpaceStep(a[0], a[1..], b);
    }
  }

  /** The inductive step of SplitAtSpace: one more leading character. */
  lemma SplitAtSpaceStep(c: char, tail: string, b: string)
    requires Split(tail + " " + b) == Split(tail) + Split(b)
    ensures Split([c] + (tail + " " + b)) == Split([c] + tail) + Split(b)
  {
    if c == ' ' {
      SplitCons(c, tail + " " + b);
      SplitCons(c, tail);
      var s, t := Split(tail), Split(b);
      assert [[]] + (s + t) == ([[]] + s) + t;
    } else {
      SplitAtSpaceStepWord(c, tail, b);
    }
  }

  /** The step for a character that is not a space: it joins the first
      word. */
  lemma SplitAtSpaceStepWord(c: char, tail: string, b: string)
    requires c != ' '
    requires Split(tail + " " + b) == Split(tail) + Split(b)
    ensures Split([c] + (tail + " " + b)) == Split([c] + tail) + Split(b)
  {
    SplitCons(c, tail + " " + b);
    SplitCons(c, tail);
    var s, t := Split(tail), Split(b);
    HeadOfConcat(s, t, [c] + s[0]);
  }

  lemma HeadOfConcat<T>(s: seq<T>, t: seq<T>, h: T)
    requires |s| >= 1
    ensures (s + t)[0] == s[0]
    ensures (s + t)[1..] == s[1..] + t
    ensures [h] + (s[1..] + t) == ([h] + s[1..]) + t
  {
  }

  lemma SplitLeadingSpace(b: string)
    ensures Split(" " + b) == [[]] + Split(b)
  {
    assert (" " + b)[1..] == b;
  }

  /** One step of Split, as a statement about `[c] + s`. */
  lemma SplitCons(c: char, s: string)
    ensures c == ' ' ==> Split([c] + s) == [[]] + Split(s)
    ensures c != ' ' ==> Split([c] + s) == [[c] + Split(s)[0]] + Split(s)[1..]
  {
    assert ([c] + s)[1..] == s;
  }

  /** A separator-free string is a single token. */
  lemma SplitSpaceFree(t: string)
    requires SpaceFree(t)
    ensures Split(t) == [t]
  {
    SplitSpaceFreePrefix(t, []);
    assert t + [] == t;
  }

  /** Lower-casing commutes with splitting on spaces, since lower-casing
      neither creates nor removes a space. */
  lemma {:induction false} SplitLower(s: string)
    ensures |Split(Lower(s))| == |Split(s)|
    ensures forall k :: 0 <= k < |Split(s)| ==> Split(Lower(s))[k] == Lower(Split(s)[k])
    decreases |s|
  {
    if s != [] {
      SplitLower(s[1..]);
      SplitLowerStep(s[0], s[1..]);
      assert [s[0]] + s[1..] == s;
    }
  }

  /** The inductive step of SplitLower: one more leading character. */
  lemma SplitLowerStep(c: char, t: string)
    requires |Split(Lower(t))| == |Split(t)|
    requires forall k :: 0 <= k < |Split(t)| ==> Split(Lower(t))[k] == Lower(Split(t)[k])
    ensures |Split(Lower([c] + t))| == |Split([c] + t)|
    ensures forall k :: 0 <= k < |Split([c] + t)| ==> Split(Lower([c] + t))[k] == Lower(Split([c] + t)[k])
  {
    LowerKeepsSpaces(c);
    LowerConcat([c], t);
    assert Lower([c]) == [LowerChar(c)];
    SplitCons(c, t);
    SplitCons(LowerChar(c), Lower(t));
    if c != ' ' {
      LowerConcat([c], Split(t)[0]);
    }
  }

  /** `s` has `sub` starting at position `i`. */
  ghost predicate OccursAt(s: string, sub: string, i: nat) {
    i + |sub| <= |s| && s[i..i + |sub|] == sub
  }

  /** `s.includes(sub)`. */
  function Includes(s: string, sub: string): (r: bool)
    ensures r ==> |sub| <= |s|
    ensures sub == [] ==> r
    decreases |s|
  {
    if |sub| > |s| then false else s[..|sub|] == sub || Includes(s[1..], sub)
  }

  /** Includes holds exactly when `sub` occurs somewhere in `s`. */
  lemma {:induction false} IncludesIff(s: string, sub: string)
    ensures Includes(s, sub) <==> exists i: nat :: OccursAt(s, sub, i)
    decreases |s|
  {
    if s == [] && sub == [] {
      assert OccursAt(s, sub, 0);
    } else if |sub| <= |s| {
      IncludesIff(s[1..], sub);
      if s[..|sub|] == sub {
        assert OccursAt(s, sub, 0);
      } else if Includes(s[1..], sub) {
        var i: nat :| OccursAt(s[1..], sub, i);
        assert s[i + 1..i + 1 + |sub|] == s[1..][i..i + |sub|];
        assert OccursAt(s, sub, i + 1);
      } else {
        forall i: nat | OccursAt(s, sub, i) ensures false {
          if i > 0 {
            assert s[1..][i - 1..i - 1 + |sub|] == s[i..i + |sub|];
            assert OccursAt(s[1..], sub, i - 1);
          }
        }
      }
    } else {
      forall i: nat | OccursAt(s, sub, i) ensures false {
      }
    }
  }

  /** A string that lacks one of the characters of `sub` does not
      include `sub`. */
  lemma {:induction false} NotIncludesMissingChar(s: string, sub: string, k: nat)
    requires k < |sub| && sub[k] !in s
    ensures !Includes(s, sub)
    decreases |s|
  {
    if |sub| <= |s| {
      assert s[..|sub|][k] == s[k];
      NotIncludesMissingChar(s[1..], sub, k);
    }
  }

  /** A string whose only occurrence of the first character of `sub` is
      not followed by the second one does not include `sub`. */
  lemma NotIncludesSingleCandidate(x: string, z: string, sub: string)
    requires |sub| >= 2 && sub[0] !in x && sub[0] !in z
    requires z == [] || z[0] != sub[1]
    ensures !Includes(x + [sub[0]] + z, sub)
  {
    var s := x + [sub[0]] + z;
    forall i: nat | OccursAt(s, sub, i) ensures false {
    }
    IncludesIff(s, sub);
  }

  /** Whatever sits in the middle of a concatenation is included in it. */
  lemma IncludesMiddle(a: string, b: string, c: string)
    ensures Includes(a + b + c, b)
  {
    assert (a + b + c)[|a|..|a| + |b|] == b;
    assert OccursAt(a + b + c, b, |a|);
    IncludesIff(a + b + c, b);
  }

  /** The concatenation of all pieces, in order. */
  function Concat(pieces: seq<string>): string {
    if pieces == [] then [] else pieces[0] + Concat(pieces[1..])
  }

  lemma {:induction false} ConcatAround(pieces: seq<string>, i: nat)
    requires i < |pieces|
    ensures Concat(pieces) == Concat(pieces[..i]) + pieces[i] + Concat(pieces[i + 1..])
  {
    if i > 0 {
      ConcatAround(pieces[1..], i - 1);
      assert pieces[1..][..i - 1] == pieces[1..i];
      assert pieces[1..][i - 1 + 1..] == pieces[i + 1..];
      assert pieces[..i][1..] == pieces[1..i];
    } else {
      assert pieces[..0] == [];
      assert pieces[1..] == pieces[0 + 1..];
    }
  }

  /** Every piece appears in the concatenation. */
  lemma ConcatIncludes(pieces: seq<string>, i: nat)
    requires i < |pieces|
    ensures Includes(Concat(pieces), pieces[i])
  {
    ConcatAround(pieces, i);
    IncludesMiddle(Concat(pieces[..i]), pieces[i], Concat(pieces[i + 1..]));
  }

  /** Inclusion is transitive. */
  lemma IncludesTrans(a: string, b: string, c: string)
    requires Includes(a, b) && Includes(b, c)
    ensures Includes(a, c)
  {
    IncludesIff(a, b);
    IncludesIff(b, c);
    var i: nat :| OccursAt(a, b, i);
    var j: nat :| OccursAt(b, c, j);
    forall k | 0 <= k < |c| ensures a[i + j + k] == c[k] {
      assert a[i..i + |b|][j + k] == b[j + k];
      assert b[j..j + |c|][k] == c[k];
    }
    assert a[i + j..i + j + |c|] == c;
    assert OccursAt(a, c, i + j);
    IncludesIff(a, c);
  }

  /** A piece of a piece appears in the concatenation. */
  lemma ConcatIncludesVia(outer: seq<string>, i: nat, inner: seq<string>, j: nat)
    requires i < |outer| && j < |inner| && outer[i] == Concat(inner)
    ensures Includes(Concat(outer), inner[j])
  {
    ConcatIncludes(outer, i);
    ConcatIncludes(inner, j);
    IncludesTrans(Concat(outer), Concat(inner), inner[j]);
  }

  /** The concatenation starts with the first piece and ends with the
      last. */
  lemma ConcatEnds(pieces: seq<string>)
    requires |pieces| >= 2
    ensures |Concat(pieces)| >= |pieces[0]| + |pieces[|pieces| - 1]|
    ensures Concat(pieces)[..|pieces[0]|] == pieces[0]
    ensures Concat(pieces)[|Concat(pieces)| - |pieces[|pieces| - 1]|..] == pieces[|pieces| - 1]
  {
    var last := |pieces| - 1;
    ConcatAround(pieces, last);
    assert pieces[last + 1..] == [];
    var init := pieces[..last];
    assert Concat(init) == init[0] + Concat(init[1..]);
  }

  function DigitChar(d: nat): (c: char)
    requires d < 10
    ensures '0' <= c <= '9'
  {
    "0123456789"[d]
  }

  function DigitValue(c: char): nat {
    if '0' <= c <= '9' then c as int - '0' as int else 0
  }

  /** How a natural number is rendered by a template string: decimal,
      without leading zeros. */
  function NatToString(n: nat): (r: string)
    ensures 1 <= |r|
    ensures forall i :: 0 <= i < |r| ==> '0' <= r[i] <= '9'
    ensures |r| > 1 ==> r[0] != '0'
  {
    if n < 10 then [DigitChar(n)] else NatToString(n / 10) + [DigitChar(n % 10)]
  }

  /** Reads a string of decimal digits back as a number. */
  function ParseNat(s: string): nat {
    if s == [] then 0 else 10 * ParseNat(s[..|s| - 1]) + DigitValue(s[|s| - 1])
  }

  /** Rendering a number and reading it back is the identity. */
  lemma {:induction false} ParseNatToString(n: nat)
    ensures ParseNat(NatToString(n)) == n
  {
    var s := NatToString(n);
    if n < 10 {
      assert s[..0] == [];
    } else {
      ParseNatToString(n / 10);
      assert s[..|s| - 1] == NatToString(n / 10);
    }
  }
}
