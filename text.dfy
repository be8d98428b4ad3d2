/** The parts of Rust's `str` the extractor relies on: `replace` of a set of
    characters by nothing, `split` on one character, `strip_prefix` and
    `str::parse::<i32>()`. */
module Text {
  import opened Errors

  /** `s.replace(chars, "")`. */
  function RemoveChars(s: string, cs: set<char>): (r: string)
    ensures |r| <= |s|
  {
    if s == [] then []
    else (if s[0] in cs then [] else [s[0]]) + RemoveChars(s[1..], cs)
  }

  /** One step of the removal, as an equation. */
  lemma RemoveCharsCons(c: char, t: string, cs: set<char>)
    ensures RemoveChars([c] + t, cs) == (if c in cs then [] else [c]) + RemoveChars(t, cs)
  {
    assert ([c] + t)[0] == c && ([c] + t)[1..] == t;
  }

  /** No removed character is left. */
  lemma {:induction false} RemoveCharsRemoves(s: string, cs: set<char>)
    ensures forall i :: 0 <= i < |RemoveChars(s, cs)| ==> RemoveChars(s, cs)[i] !in cs
  {
    if s != [] {
      RemoveCharsRemoves(s[1..], cs);
    }
  }

  /** A character outside the removed set survives the removal. */
  lemma {:induction false} RemoveCharsKeeps(s: string, cs: set<char>, i: nat)
    requires i < |s| && s[i] !in cs
    ensures s[i] in RemoveChars(s, cs)
  {
    if i > 0 {
      assert s[1..][i - 1] == s[i];
      RemoveCharsKeeps(s[1..], cs, i - 1);
    }
  }

  /** Removing characters that do not occur changes nothing. */
  lemma {:induction false} RemoveAbsentChars(s: string, cs: set<char>)
    requires forall i :: 0 <= i < |s| ==> s[i] !in cs
    ensures RemoveChars(s, cs) == s
  {
    if s != [] {
      RemoveAbsentChars(s[1..], cs);
    }
  }

  /** Two removals in a row are one removal of both sets. */
  lemma {:induction false} RemoveCharsTwice(s: string, a: set<char>, b: set<char>)
    ensures RemoveChars(RemoveChars(s, a), b) == RemoveChars(s, a + b)
  {
    if s != [] {
      RemoveCharsTwice(s[1..], a, b);
      var head := if s[0] in a then [] else [s[0]];
      assert RemoveChars(s, a) == head + RemoveChars(s[1..], a);
      RemoveCharsConcat(head, RemoveChars(s[1..], a), b);
    }
  }

  lemma {:induction false} RemoveCharsConcat(x: string, y: string, cs: set<char>)
    ensures RemoveChars(x + y, cs) == RemoveChars(x, cs) + RemoveChars(y, cs)
  {
    if x != [] {
      assert (x + y)[0] == x[0] && (x + y)[1..] == x[1..] + y;
      RemoveCharsConcat(x[1..], y, cs);
      var head := if x[0] in cs then [] else [x[0]];
      calc {
        RemoveChars(x + y, cs);
        head + RemoveChars(x[1..] + y, cs);
        head + (RemoveChars(x[1..], cs) + RemoveChars(y, cs));
        (head + RemoveChars(x[1..], cs)) + RemoveChars(y, cs);
        RemoveChars(x, cs) + RemoveChars(y, cs);
      }
    } else {
      assert x + y == y;
    }
  }

  /** `s.split(sep)`: the pieces between separators, always at least one. */
  function Split(s: string, sep: char): (parts: seq<string>)
    ensures |parts| >= 1
  {
    if s == [] then [""]
    else
      var rest := Split(s[1..], sep);
      if s[0] == sep then [""] + rest
      else [[s[0]] + rest[0]] + rest[1..]
  }

  /** Re-joining the pieces with the separator gives back the input. */
  function Join(parts: seq<string>, sep: char): string
    requires |parts| >= 1
  {
    if |parts| == 1 then parts[0] else parts[0] + [sep] + Join(parts[1..], sep)
  }

  lemma {:induction false} SplitJoin(s: string, sep: char)
    ensures Join(Split(s, sep), sep) == s
  {
    if s != [] {
      SplitJoin(s[1..], sep);
      var rest := Split(s[1..], sep);
      if s[0] == sep {
        assert ([""] + rest)[1..] == rest;
      } else {
        var parts := [[s[0]] + rest[0]] + rest[1..];
        if |rest| == 1 {
          assert parts == [[s[0]] + rest[0]];
        } else {
          assert parts[1..] == rest[1..];
          assert Join(rest, sep) == rest[0] + [sep] + Join(rest[1..], sep);
        }
      }
    }
  }

  /** A string without the separator is one piece. */
  lemma {:induction false} SplitNoSeparator(s: string, sep: char)
    requires sep !in s
    ensures Split(s, sep) == [s]
  {
    if s != [] {
      SplitNoSeparator(s[1..], sep);
      assert [s[0]] + s[1..] == s;
    }
  }

  /** Splitting at one occurrence of the separator splits each side apart. */
  lemma {:induction false} SplitConcat(a: string, sep: char, b: string)
    ensures Split(a + [sep] + b, sep) == Split(a, sep) + Split(b, sep)
  {
    var right := Split(b, sep);
    if a == [] {
      assert a + [sep] + b == [sep] + b;
      SplitCons(sep, b, sep);
    } else {
      var t := a[1..] + [sep] + b;
      assert a + [sep] + b == [a[0]] + t;
      assert a == [a[0]] + a[1..];
      SplitConcat(a[1..], sep, b);
      SplitCons(a[0], t, sep);
      SplitCons(a[0], a[1..], sep);
      ConsPieces(a[0], sep, Split(a[1..], sep), right);
    }
  }

  /** One step of `Split`, as an equation. */
  lemma SplitCons(c: char, t: string, sep: char)
    ensures Split([c] + t, sep) ==
      if c == sep then [""] + Split(t, sep) else [[c] + Split(t, sep)[0]] + Split(t, sep)[1..]
  {
    assert ([c] + t)[0] == c && ([c] + t)[1..] == t;
  }

  lemma ConsPieces(c: char, sep: char, left: seq<string>, right: seq<string>)
    requires |left| >= 1
    ensures c == sep ==> [""] + (left + right) == ([""] + left) + right
    ensures c != sep ==> [[c] + (left + right)[0]] + (left + right)[1..] == ([[c] + left[0]] + left[1..]) + right
  {
    assert (left + right)[0] == left[0];
    assert (left + right)[1..] == left[1..] + right;
  }

  /** No piece holds the separator. */
  lemma {:induction false} SplitPiecesFree(s: string, sep: char)
    ensures forall k :: 0 <= k < |Split(s, sep)| ==> sep !in Split(s, sep)[k]
  {
    if s != [] {
      SplitPiecesFree(s[1..], sep);
      var rest := Split(s[1..], sep);
      if s[0] != sep {
        assert sep !in [s[0]] + rest[0];
      }
    }
  }

  /** A character absent from the input is absent from every piece. */
  lemma {:induction false} SplitPiecesAvoid(s: string, sep: char, c: char)
    requires c !in s
    ensures forall k :: 0 <= k < |Split(s, sep)| ==> c !in Split(s, sep)[k]
  {
    if s != [] {
      SplitPiecesAvoid(s[1..], sep, c);
      var rest := Split(s[1..], sep);
      if s[0] != sep {
        assert c !in [s[0]] + rest[0];
      }
    }
  }

  /** `s.strip_prefix(p)`. */
  function StripPrefix(s: string, p: string): (r: Option<string>)
    ensures r.Some? <==> p <= s
    ensures r.Some? ==> s == p + r.value
  {
    if p <= s then Some(s[|p|..]) else None
  }

  predicate IsDigit(c: char)
  {
    '0' <= c <= '9'
  }

  predicate AllDigits(s: string)
  {
    forall i :: 0 <= i < |s| ==> IsDigit(s[i])
  }

  /** The value of a run of decimal digits, most significant first. */
  function DigitsValue(s: string): nat
    requires AllDigits(s)
  {
    if s == [] then 0
    else DigitsValue(s[..|s| - 1]) * 10 + (s[|s| - 1] as int - '0' as int)
  }

  /** One more digit on the right: the value shifts by one decimal place. */
  lemma DigitsValueSnoc(s: string, c: char)
    requires AllDigits(s) && IsDigit(c)
    ensures AllDigits(s + [c])
    ensures DigitsValue(s + [c]) == DigitsValue(s) * 10 + (c as int - '0' as int)
  {
    assert (s + [c])[..|s|] == s;
  }

  /** An unsigned run of digits that fits parses to its value. */
  lemma ParseDigits(s: string)
    requires |s| > 0 && AllDigits(s) && DigitsValue(s) <= I32Max
    ensures ParseI32(s) == Some(DigitsValue(s))
  {
  }

  /** `str::parse::<i32>()`: an optional `+` or `-`, then one or more decimal
      digits, and the value must fit in 32 bits. */
  function ParseI32(s: string): (r: Option<i32>)
    ensures r.Some? ==> |s| > 0 && (IsDigit(s[0]) || s[0] == '+' || s[0] == '-')
    ensures r.Some? && s[0] != '-' ==> r.value >= 0
  {
    if |s| == 0 then None
    else if (s[0] == '+' || s[0] == '-') && |s| == 1 then None
    else
      var digits := if s[0] == '+' || s[0] == '-' then s[1..] else s;
      if !AllDigits(digits) then None
      else
        var v: int := if s[0] == '-' then - (DigitsValue(digits) as int) else DigitsValue(digits);
        if I32Min <= v <= I32Max then Some(v) else None
  }

  /** The decimal form of a natural number, without sign or leading zeros. */
  function ShowNat(n: nat): (s: string)
    ensures |s| > 0 && AllDigits(s)
  {
    if n < 10 then [('0' as int + n) as char]
    else ShowNat(n / 10) + [('0' as int + n % 10) as char]
  }

  lemma {:induction false} DigitsOfShowNat(n: nat)
    ensures DigitsValue(ShowNat(n)) == n
  {
    if n >= 10 {
      DigitsOfShowNat(n / 10);
      var s := ShowNat(n);
      assert s[..|s| - 1] == ShowNat(n / 10);
    }
  }

  /** Everything `i32`'s printer produces for a non-negative value parses back. */
  lemma ParseShowNat(n: nat)
    requires n <= I32Max
    ensures ParseI32(ShowNat(n)) == Some(n)
  {
    DigitsOfShowNat(n);
  }

  /** A leading `-` negates. */
  lemma ParseNegative(n: nat)
    requires n <= -I32Min
    ensures ParseI32("-" + ShowNat(n)) == Some(- (n as int))
  {
    DigitsOfShowNat(n);
    assert ("-" + ShowNat(n))[1..] == ShowNat(n);
  }

  /** A digit run past `i32::MAX` is the overflow error of `parse::<i32>`. */
  lemma OverflowRejected(n: nat)
    requires n > I32Max
    ensures ParseI32(ShowNat(n)) == None
    ensures ParseI32("+" + ShowNat(n)) == None
  {
    DigitsOfShowNat(n);
    assert ("+" + ShowNat(n))[1..] == ShowNat(n);
  }

  /** A negative value below `i32::MIN` is the underflow error of `parse::<i32>`. */
  lemma NegativeOverflowRejected(n: nat)
    requires n > -I32Min
    ensures ParseI32("-" + ShowNat(n)) == None
  {
    DigitsOfShowNat(n);
    assert ("-" + ShowNat(n))[1..] == ShowNat(n);
  }

  /** A sign with no digits after it, and the empty string, fail. */
  lemma NoDigitsRejected()
    ensures ParseI32("") == None && ParseI32("+") == None && ParseI32("-") == None
  {
  }

  /** A character outside the digits and the leading sign makes the parse fail. */
  lemma NonDigitRejected(s: string, i: nat)
    requires 0 < i < |s| && !IsDigit(s[i])
    ensures ParseI32(s) == None
  {
    if s[0] == '+' || s[0] == '-' {
      assert s[1..][i - 1] == s[i];
    }
  }

  lemma LeadingNonDigitRejected(s: string)
    requires |s| > 0 && !IsDigit(s[0]) && s[0] != '+' && s[0] != '-'
    ensures ParseI32(s) == None
  {
  }
}
