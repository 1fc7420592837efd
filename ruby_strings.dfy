/** The Ruby String operations the adapters rely on: `split`, `join`,
    `strip`, `delete`, `[start, len]`/`slice`, `=~` with a literal pattern and
    `sprintf("%.2i")`. */
module RubyStrings {
  import opened RubyValues

  /** Every field between occurrences of `sep`, empty fields included; there is
      always one more field than there are separators. */
  function SplitAll(s: string, sep: char): (r: seq<string>)
    ensures |r| >= 1
    ensures forall i :: 0 <= i < |r| ==> sep !in r[i]
    decreases |s|
  {
    if s == [] then [""]
    else if s[0] == sep then [""] + SplitAll(s[1..], sep)
    else
      var rest := SplitAll(s[1..], sep);
      [[s[0]] + rest[0]] + rest[1..]
  }

  /** Ruby's `split` without a limit removes trailing empty fields. */
  function DropTrailingEmpty(xs: seq<string>): (r: seq<string>)
    ensures |r| <= |xs| && r == xs[..|r|]
    ensures |r| > 0 ==> r[|r| - 1] != ""
    ensures forall i :: |r| <= i < |xs| ==> xs[i] == ""
    decreases |xs|
  {
    if xs == [] then []
    else if xs[|xs| - 1] == "" then DropTrailingEmpty(xs[..|xs| - 1])
    else xs
  }

  /** `s.split(sep)` for a one-character separator. */
  function Split(s: string, sep: char): seq<string> {
    DropTrailingEmpty(SplitAll(s, sep))
  }

  /** `xs.join(sep)`. */
  function Join(xs: seq<string>, sep: char): string
    decreases |xs|
  {
    if xs == [] then ""
    else if |xs| == 1 then xs[0]
    else xs[0] + [sep] + Join(xs[1..], sep)
  }

  /** The first field of `SplitAll` is everything before the first separator. */
  lemma {:induction false} FirstFieldEmpty(s: string, sep: char)
    ensures SplitAll(s, sep)[0] == "" <==> (s == [] || s[0] == sep)
  {
    if s != [] && s[0] != sep {
      var rest := SplitAll(s[1..], sep);
      assert SplitAll(s, sep)[0] == [s[0]] + rest[0];
    }
  }

  /** No separator: the whole string is the only field. */
  lemma {:induction false} SplitAllNoSep(w: string, sep: char)
    requires sep !in w
    ensures SplitAll(w, sep) == [w]
    decreases |w|
  {
    if w != [] {
      SplitAllNoSep(w[1..], sep);
      assert [w[0]] + w[1..] == w;
    }
  }

  /** A separator-free word followed by a separator becomes one field. */
  lemma {:induction false} SplitAllCons(w: string, sep: char, rest: string)
    requires sep !in w
    ensures SplitAll(w + [sep] + rest, sep) == [w] + SplitAll(rest, sep)
    decreases |w|
  {
    var s := w + [sep] + rest;
    if w == [] {
      assert s == [sep] + rest;
      assert s[1..] == rest;
    } else {
      assert s[0] == w[0];
      assert s[1..] == w[1..] + [sep] + rest;
      SplitAllCons(w[1..], sep, rest);
      assert [w[0]] + w[1..] == w;
    }
  }

  /** Splitting a join gives the parts back when no part holds the separator. */
  lemma {:induction false} SplitAllJoin(xs: seq<string>, sep: char)
    requires |xs| >= 1
    requires forall i :: 0 <= i < |xs| ==> sep !in xs[i]
    ensures SplitAll(Join(xs, sep), sep) == xs
    decreases |xs|
  {
    if |xs| == 1 {
      SplitAllNoSep(xs[0], sep);
    } else {
      SplitAllJoin(xs[1..], sep);
      SplitAllCons(xs[0], sep, Join(xs[1..], sep));
      assert [xs[0]] + xs[1..] == xs;
    }
  }

  /** Joining the fields of a split gives the original string back. */
  lemma {:induction false} JoinSplitAll(s: string, sep: char)
    ensures Join(SplitAll(s, sep), sep) == s
    decreases |s|
  {
    if s != [] {
      var rest := SplitAll(s[1..], sep);
      JoinSplitAll(s[1..], sep);
      if s[0] == sep {
        assert SplitAll(s, sep) == [""] + rest;
        assert ([""] + rest)[1..] == rest;
        assert s == [sep] + s[1..];
      } else {
        var r := SplitAll(s, sep);
        assert r == [[s[0]] + rest[0]] + rest[1..];
        if |rest| == 1 {
          assert Join(rest, sep) == rest[0];
        } else {
          assert r[1..] == rest[1..];
          assert Join(rest, sep) == rest[0] + [sep] + Join(rest[1..], sep);
        }
        assert s == [s[0]] + s[1..];
      }
    }
  }

  /** Ruby's `split` is the inverse of `join` when no part holds the separator
      and the last part is not empty (trailing empty fields are lost). */
  lemma SplitJoin(xs: seq<string>, sep: char)
    requires |xs| >= 1 && xs[|xs| - 1] != ""
    requires forall i :: 0 <= i < |xs| ==> sep !in xs[i]
    ensures Split(Join(xs, sep), sep) == xs
  {
    SplitAllJoin(xs, sep);
  }

  /** The characters `String#strip` removes. */
  predicate IsStripSpace(c: char) {
    c == ' ' || c == '\t' || c == '\n' || c == '\U{000B}' || c == '\U{000C}' || c == '\r' || c == '\U{0000}'
  }

  function LStrip(s: string): (r: string)
    ensures |r| <= |s| && r == s[|s| - |r|..]
    ensures forall i :: 0 <= i < |s| - |r| ==> IsStripSpace(s[i])
    ensures r != [] ==> !IsStripSpace(r[0])
    decreases |s|
  {
    if s != [] && IsStripSpace(s[0]) then
      var r := LStrip(s[1..]);
      assert s[1..][|s| - 1 - |r|..] == s[|s| - |r|..];
      assert forall i :: 1 <= i < |s| - |r| ==> s[i] == s[1..][i - 1];
      r
    else s
  }

  function RStrip(s: string): (r: string)
    ensures |r| <= |s| && r == s[..|r|]
    ensures forall i :: |r| <= i < |s| ==> IsStripSpace(s[i])
    ensures r != [] ==> !IsStripSpace(r[|r| - 1])
    decreases |s|
  {
    if s != [] && IsStripSpace(s[|s| - 1]) then
      var r := RStrip(s[..|s| - 1]);
      assert s[..|s| - 1][..|r|] == s[..|r|];
      assert forall i :: |r| <= i < |s| - 1 ==> s[i] == s[..|s| - 1][i];
      r
    else s
  }

  /** Everything of `s` outside `s[a..b]` is strip space. */
  predicate SpaceOutside(s: string, a: nat, b: nat) {
    a <= b <= |s| &&
    (forall i :: 0 <= i < a ==> IsStripSpace(s[i])) &&
    (forall i :: b <= i < |s| ==> IsStripSpace(s[i]))
  }

  /** Cutting strip space off the front and then off the back leaves a slice
      with only strip space outside it. */
  lemma SliceOfSlice(s: string, a: nat, l: string, r: string)
    requires a <= |s| && l == s[a..] && (forall i :: 0 <= i < a ==> IsStripSpace(s[i]))
    requires |r| <= |l| && r == l[..|r|] && (forall j :: |r| <= j < |l| ==> IsStripSpace(l[j]))
    ensures SpaceOutside(s, a, a + |r|) && r == s[a..a + |r|]
  {
    forall i | a + |r| <= i < |s|
      ensures IsStripSpace(s[i])
    {
      assert s[i] == l[i - a];
    }
  }

  /** `String#strip`: leading and trailing white space (and NUL) removed. */
  function Strip(s: string): (r: string)
    ensures r == [] || (!IsStripSpace(r[0]) && !IsStripSpace(r[|r| - 1]))
    ensures |r| <= |s|
    ensures (s == [] || (!IsStripSpace(s[0]) && !IsStripSpace(s[|s| - 1]))) ==> r == s
  {
    var l := LStrip(s);
    var r := RStrip(l);
    assert r != [] ==> r[0] == l[0];
    r
  }

  /** `strip` removes only what stands at the edges: its result is a slice
      `s[a..b]` of the input with nothing but strip space outside it, so the
      inside of the string is kept as it is. */
  lemma StripIsSlice(s: string)
    ensures exists a: nat, b: nat :: SpaceOutside(s, a, b) && Strip(s) == s[a..b]
  {
    var l := LStrip(s);
    var r := RStrip(l);
    var a := |s| - |l|;
    SliceOfSlice(s, a, l, r);
    assert SpaceOutside(s, a, a + |r|) && Strip(s) == s[a..a + |r|];
  }

  /** Stripping twice strips nothing more. */
  lemma StripIdempotent(s: string)
    ensures Strip(Strip(s)) == Strip(s)
  {
  }

  /** `String#delete(chars)` with a plain character list (no ranges, no `^`),
      given as the set of its characters: every character of the set is
      removed, wherever it stands. */
  function DeleteChars(s: string, chars: set<char>): (r: string)
    ensures |r| <= |s|
    ensures forall i :: 0 <= i < |r| ==> r[i] !in chars
    ensures (forall i :: 0 <= i < |s| ==> s[i] !in chars) ==> r == s
    decreases |s|
  {
    if s == [] then []
    else if s[0] in chars then DeleteChars(s[1..], chars)
    else [s[0]] + DeleteChars(s[1..], chars)
  }

  /** Every character outside the set is kept, as often as it occurs. */
  lemma {:induction false} DeleteCharsKeeps(s: string, chars: set<char>)
    ensures forall c :: c !in chars ==> multiset(DeleteChars(s, chars))[c] == multiset(s)[c]
    decreases |s|
  {
    if s != [] {
      DeleteCharsKeeps(s[1..], chars);
      assert s == [s[0]] + s[1..];
    }
  }

  /** One character is deleted when it is in the set and kept otherwise. */
  lemma DeleteCharsOne(c: char, chars: set<char>)
    ensures DeleteChars([c], chars) == if c in chars then [] else [c]
  {
    assert [c][1..] == [];
  }

  /** Deleting distributes over concatenation, so the kept characters stay in
      their order: with `DeleteCharsOne` this determines `DeleteChars`. */
  lemma {:induction false} DeleteCharsAppend(a: string, b: string, chars: set<char>)
    ensures DeleteChars(a + b, chars) == DeleteChars(a, chars) + DeleteChars(b, chars)
    decreases |a|
  {
    if a != [] {
      assert (a + b)[0] == a[0];
      assert (a + b)[1..] == a[1..] + b;
      DeleteCharsAppend(a[1..], b, chars);
    } else {
      assert a + b == b;
    }
  }

  /** One character in upper case: an ASCII lower-case letter becomes its
      capital, and every other character is kept. */
  function UpcaseChar(c: char): (u: char)
    ensures !('a' <= u <= 'z')
    ensures 'a' <= c <= 'z' ==> 'A' <= u <= 'Z' && u - 'A' == c - 'a'
    ensures !('a' <= c <= 'z') ==> u == c
  {
    if 'a' <= c <= 'z' then (c as int - 32) as char else c
  }

  /** `String#upcase` with the ASCII case mapping: each character in upper
      case, in place. */
  function Upcase(s: string): (r: string)
    ensures |r| == |s|
    ensures forall i :: 0 <= i < |s| ==> r[i] == UpcaseChar(s[i])
  {
    seq(|s|, i requires 0 <= i < |s| => UpcaseChar(s[i]))
  }

  /** Upcasing an upcased string changes nothing. */
  lemma UpcaseIdempotent(s: string)
    ensures Upcase(Upcase(s)) == Upcase(s)
  {
  }

  /** Upcasing keeps white space as it is, so it neither makes nor unmakes a
      blank string. */
  lemma UpcaseBlank(s: string)
    ensures Blank(Str(Upcase(s))) <==> Blank(Str(s))
  {
    assert forall i :: 0 <= i < |s| ==> (IsRegexSpace(Upcase(s)[i]) <==> IsRegexSpace(s[i]));
  }

  /** `String#[start, len]` (and `slice(start, len)`) for a non-negative start:
      nil past the end, otherwise at most `len` characters from `start`. */
  function Slice(s: string, start: nat, len: nat): (r: Value)
    ensures start > |s| <==> r.Nil?
    ensures start <= |s| ==> r.Str? && |r.s| <= len && start + |r.s| <= |s| && r.s == s[start..start + |r.s|]
    ensures start + len <= |s| ==> r == Str(s[start..start + len])
    ensures start <= |s| < start + len ==> r == Str(s[start..])
  {
    if start > |s| then Nil
    else if start + len <= |s| then Str(s[start..start + len])
    else Str(s[start..])
  }

  /** `s =~ /t/` for a pattern without metacharacters, as a truth value. */
  predicate Contains(s: string, t: string)
    decreases |s|
  {
    if |s| < |t| then false
    else s[..|t|] == t || Contains(s[1..], t)
  }

  lemma {:induction false} ContainsAt(s: string, t: string, i: nat)
    requires i + |t| <= |s| && s[i..i + |t|] == t
    ensures Contains(s, t)
    decreases i
  {
    if i > 0 {
      assert s[1..][i - 1..i - 1 + |t|] == t;
      ContainsAt(s[1..], t, i - 1);
    }
  }

  /** `sprintf("%.2i", n)`: at least two digits, zero-padded, sign in front. */
  function TwoDigits(n: int): (r: string)
    ensures |r| >= 2
    ensures 0 <= n < 10 ==> r == "0" + Digits(n)
    ensures n >= 10 ==> r == Digits(n)
    ensures n < 0 ==> r[0] == '-'
  {
    var magnitude := if n < 0 then -n else n;
    var digits := if magnitude < 10 then "0" + Digits(magnitude) else Digits(magnitude);
    if n < 0 then "-" + digits else digits
  }

  /** `sprintf("%.2i", n)` of a natural number reads back as that number. */
  lemma TwoDigitsReadsBack(n: nat)
    ensures forall i :: 0 <= i < |TwoDigits(n)| ==> '0' <= TwoDigits(n)[i] <= '9'
    ensures NumberOf(TwoDigits(n)) == n
  {
    DigitsRoundTrip(n);
    if n < 10 {
      NumberOfLeadingZero(Digits(n));
    }
  }
}
