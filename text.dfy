/** String operations of the Python standard library that the documentation
    handlers and the component table rely on, each modelled as Python
    defines it for the inputs the system gives them. */
module Text {

  predicate StartsWith(s: string, prefix: string) {
    |prefix| <= |s| && s[..|prefix|] == prefix
  }

  predicate EndsWith(s: string, suffix: string) {
    |suffix| <= |s| && s[|s| - |suffix|..] == suffix
  }

  /** `pat` occurs in `s` at index `i`. */
  predicate OccursAt(s: string, pat: string, i: int) {
    0 <= i && i + |pat| <= |s| && s[i..i + |pat|] == pat
  }

  predicate Contains(s: string, pat: string) {
    exists i :: 0 <= i <= |s| - |pat| && OccursAt(s, pat, i)
  }

  function Last<T>(s: seq<T>): T
    requires |s| > 0
  {
    s[|s| - 1]
  }

  // ---------------------------------------------------------------------
  // str.replace(old, new): every non-overlapping occurrence, left to right

  function ReplaceAll(s: string, pat: string, rep: string): string
    requires pat != []
    decreases |s|
  {
    if |s| < |pat| then s
    else if s[..|pat|] == pat then rep + ReplaceAll(s[|pat|..], pat, rep)
    else [s[0]] + ReplaceAll(s[1..], pat, rep)
  }

  /** Replacing one character by another works character by character. */
  lemma {:induction false} ReplaceCharAt(s: string, c: char, d: char)
    ensures |ReplaceAll(s, [c], [d])| == |s|
    ensures forall i :: 0 <= i < |s| ==>
      ReplaceAll(s, [c], [d])[i] == if s[i] == c then d else s[i]
  {
    if |s| > 0 {
      ReplaceCharAt(s[1..], c, d);
      assert s[..1] == [s[0]];
      var r := ReplaceAll(s, [c], [d]);
      var t := ReplaceAll(s[1..], [c], [d]);
      assert r == (if s[0] == c then [d] else [s[0]]) + t;
      forall i | 0 <= i < |s|
        ensures r[i] == if s[i] == c then d else s[i]
      {
        if i > 0 { assert r[i] == t[i - 1] && s[i] == s[1..][i - 1]; }
      }
    }
  }

  /** Every character of the result comes from the input or from the replacement. */
  lemma {:induction false} ReplaceAllChars(s: string, pat: string, rep: string, ch: char)
    requires pat != []
    requires ch in ReplaceAll(s, pat, rep)
    ensures ch in s || ch in rep
    decreases |s|
  {
    if |s| < |pat| {
    } else if s[..|pat|] == pat {
      var t := ReplaceAll(s[|pat|..], pat, rep);
      if ch !in rep {
        assert ch in t;
        ReplaceAllChars(s[|pat|..], pat, rep, ch);
      }
    } else {
      var t := ReplaceAll(s[1..], pat, rep);
      if ch != s[0] {
        assert ch in t;
        ReplaceAllChars(s[1..], pat, rep, ch);
      }
    }
  }

  /** Removing ".md" from a stem followed by ".md" leaves exactly the stem when
      the stem itself holds no ".md": no occurrence can straddle the boundary. */
  lemma {:induction false} RemoveMdSuffix(stem: string)
    requires !Contains(stem, ".md")
    ensures ReplaceAll(stem + ".md", ".md", "") == stem
    decreases |stem|
  {
    var s := stem + ".md";
    if |stem| == 0 {
      assert s[..3] == ".md";
      assert s[3..] == [];
    } else if |stem| < 3 {
      assert s[..3] != ".md" by {
        if |stem| == 1 { assert s[1] == '.'; } else { assert s[2] == '.'; }
      }
      assert s[1..] == stem[1..] + ".md";
      assert !Contains(stem[1..], ".md") by {
        forall i | OccursAt(stem[1..], ".md", i) ensures false { }
      }
      RemoveMdSuffix(stem[1..]);
    } else {
      assert s[..3] == stem[..3];
      assert !OccursAt(stem, ".md", 0);
      assert s[1..] == stem[1..] + ".md";
      assert !Contains(stem[1..], ".md") by {
        forall i | OccursAt(stem[1..], ".md", i) ensures false {
          assert stem[i + 1..i + 4] == stem[1..][i..i + 3];
          assert OccursAt(stem, ".md", i + 1);
        }
      }
      RemoveMdSuffix(stem[1..]);
    }
  }

  // ---------------------------------------------------------------------
  // str.split(sep) with a one-character separator, and its inverse

  function Split(s: string, sep: char): (parts: seq<string>)
    ensures |parts| >= 1
    ensures forall k :: 0 <= k < |parts| ==> sep !in parts[k]
  {
    if s == [] then [[]]
    else
      var rest := Split(s[1..], sep);
      if s[0] == sep then [[]] + rest
      else [[s[0]] + rest[0]] + rest[1..]
  }

  function Join(parts: seq<string>, sep: char): string
    requires |parts| >= 1
  {
    if |parts| == 1 then parts[0] else parts[0] + [sep] + Join(parts[1..], sep)
  }

  /** Joining the pieces of a split with the separator gives back the string. */
  lemma {:induction false} JoinSplit(s: string, sep: char)
    ensures Join(Split(s, sep), sep) == s
  {
    if s != [] {
      var rest := Split(s[1..], sep);
      JoinSplit(s[1..], sep);
      if s[0] == sep {
        assert Split(s, sep)[1..] == rest;
      } else {
        var parts := Split(s, sep);
        if |rest| == 1 {
          assert parts == [[s[0]] + rest[0]];
        } else {
          assert parts[1..] == rest[1..];
          assert Join(rest, sep) == rest[0] + [sep] + Join(rest[1..], sep);
        }
      }
    }
  }

  /** Splitting a join of separator-free pieces gives back the pieces. */
  lemma {:induction false} SplitJoin(parts: seq<string>, sep: char)
    requires |parts| >= 1
    requires forall k :: 0 <= k < |parts| ==> sep !in parts[k]
    ensures Split(Join(parts, sep), sep) == parts
    decreases |parts|, |parts[0]|
  {
    var s := Join(parts, sep);
    if parts[0] == [] {
      if |parts| > 1 {
        assert s == [sep] + Join(parts[1..], sep);
        assert s[1..] == Join(parts[1..], sep);
        SplitJoin(parts[1..], sep);
      }
    } else {
      var p0 := parts[0];
      var tail := [p0[1..]] + parts[1..];
      assert tail[0] == p0[1..] && tail[1..] == parts[1..];
      assert forall k :: 0 <= k < |tail| ==> sep !in tail[k] by {
        forall k | 0 <= k < |tail| ensures sep !in tail[k] {
          if k == 0 { assert forall c :: c in p0[1..] ==> c in p0; }
        }
      }
      assert s == [p0[0]] + Join(tail, sep) by {
        if |parts| == 1 { assert p0 == [p0[0]] + p0[1..]; }
        else { assert p0 + [sep] + Join(parts[1..], sep) == [p0[0]] + (p0[1..] + [sep] + Join(parts[1..], sep)); }
      }
      assert s[1..] == Join(tail, sep);
      SplitJoin(tail, sep);
      assert p0[0] != sep;
      assert [p0[0]] + p0[1..] == p0;
    }
  }

  /** A split yields more than one piece exactly when the separator occurs. */
  lemma {:induction false} SplitPieceCount(s: string, sep: char)
    ensures |Split(s, sep)| == 1 <==> sep !in s
  {
    if s != [] {
      SplitPieceCount(s[1..], sep);
      assert s == [s[0]] + s[1..];
    }
  }

  /** A join of several pieces ends with the separator and the last piece. */
  lemma {:induction false} JoinLast(parts: seq<string>, sep: char)
    requires |parts| > 1
    ensures Join(parts, sep) == Join(parts[..|parts| - 1], sep) + [sep] + Last(parts)
  {
    var n := |parts|;
    var init := parts[..n - 1];
    if n == 2 {
      assert parts[1..] == [Last(parts)];
    } else {
      JoinLast(parts[1..], sep);
      assert parts[1..][..n - 2] == init[1..];
      assert Last(parts[1..]) == Last(parts);
      var x, y := Join(init[1..], sep), Last(parts);
      assert parts[0] + [sep] + (x + [sep] + y) == parts[0] + [sep] + x + [sep] + y;
    }
  }

  /** The last piece of a split is the text after the last separator: a
      separator-free suffix of `s`, preceded by the separator whenever it is
      shorter than `s`, and shorter than `s` exactly when `s` holds one. */
  lemma LastPiece(s: string, sep: char)
    ensures |Last(Split(s, sep))| <= |s|
    ensures s[|s| - |Last(Split(s, sep))|..] == Last(Split(s, sep))
    ensures sep !in Last(Split(s, sep))
    ensures |Last(Split(s, sep))| < |s| <==> sep in s
    ensures |Last(Split(s, sep))| < |s| ==> s[|s| - |Last(Split(s, sep))| - 1] == sep
  {
    var parts := Split(s, sep);
    JoinSplit(s, sep);
    SplitPieceCount(s, sep);
    if |parts| > 1 {
      JoinLast(parts, sep);
      var front := Join(parts[..|parts| - 1], sep);
      assert s == front + [sep] + Last(parts);
      assert s[|s| - |Last(parts)|..] == Last(parts);
      assert s[|s| - |Last(parts)| - 1] == sep;
    }
  }

  // ---------------------------------------------------------------------
  // str(n) for integers, and the decimal value that reads it back

  function DigitChar(d: nat): (c: char)
    requires d < 10
    ensures '0' <= c <= '9'
  {
    ((d + 48) as char)
  }

  predicate IsDigits(s: string) {
    forall k :: 0 <= k < |s| ==> '0' <= s[k] <= '9'
  }

  function DecimalValue(s: string): nat
    requires IsDigits(s)
  {
    if s == [] then 0
    else DecimalValue(s[..|s| - 1]) * 10 + ((Last(s) as int) - 48)
  }

  /** The decimal digits of `n`, most significant first, without leading zeros. */
  function NatToString(n: nat): (r: string)
    ensures |r| >= 1 && IsDigits(r)
    ensures |r| > 1 ==> r[0] != '0'
  {
    if n < 10 then [DigitChar(n)] else NatToString(n / 10) + [DigitChar(n % 10)]
  }

  /** Reading the digits back gives the number. */
  lemma {:induction false} NatToStringValue(n: nat)
    ensures DecimalValue(NatToString(n)) == n
  {
    if n >= 10 {
      NatToStringValue(n / 10);
      var r := NatToString(n);
      assert r[..|r| - 1] == NatToString(n / 10);
    }
  }

  function IntToString(n: int): (r: string)
    ensures n < 0 ==> |r| >= 2 && r[0] == '-' && IsDigits(r[1..]) && DecimalValue(r[1..]) == -n
    ensures n >= 0 ==> IsDigits(r) && DecimalValue(r) == n
  {
    NatToStringValue(if n < 0 then -n else n);
    if n < 0 then "-" + NatToString(-n) else NatToString(n)
  }

  // ---------------------------------------------------------------------
  // str.title() on ASCII text

  predicate IsCased(c: char) {
    'a' <= c <= 'z' || 'A' <= c <= 'Z'
  }

  function ToUpper(c: char): char {
    if 'a' <= c <= 'z' then (c as int - 32) as char else c
  }

  function ToLower(c: char): char {
    if 'A' <= c <= 'Z' then (c as int + 32) as char else c
  }

  /** How str.title() writes character `c`, given whether a letter precedes it. */
  function TitledChar(c: char, afterCased: bool): char {
    if !IsCased(c) then c else if afterCased then ToLower(c) else ToUpper(c)
  }

  /** Title-cases `s`, where `afterCased` says whether the character before
      `s` was a letter. */
  function TitleFrom(s: string, afterCased: bool): string {
    if s == [] then []
    else [TitledChar(s[0], afterCased)] + TitleFrom(s[1..], IsCased(s[0]))
  }

  function TitleCase(s: string): string {
    TitleFrom(s, false)
  }

  /** Whether a letter precedes index `i` of `s`. */
  function CasedBefore(s: string, afterCased: bool, i: int): bool
    requires 0 <= i < |s|
  {
    if i == 0 then afterCased else IsCased(s[i - 1])
  }

  /** A letter is upper-cased when it starts a word (no letter before it)
      and lower-cased otherwise; every other character is kept. */
  lemma {:induction false} TitleFromAt(s: string, afterCased: bool)
    ensures |TitleFrom(s, afterCased)| == |s|
    ensures forall i :: 0 <= i < |s| ==>
      TitleFrom(s, afterCased)[i] == TitledChar(s[i], CasedBefore(s, afterCased, i))
  {
    if s != [] {
      var t := s[1..];
      TitleFromAt(t, IsCased(s[0]));
      var r := TitleFrom(s, afterCased);
      assert r == [TitledChar(s[0], afterCased)] + TitleFrom(t, IsCased(s[0]));
      forall i | 1 <= i < |s|
        ensures r[i] == TitledChar(s[i], CasedBefore(s, afterCased, i))
      {
        assert r[i] == TitleFrom(t, IsCased(s[0]))[i - 1];
        assert t[i - 1] == s[i];
        assert CasedBefore(t, IsCased(s[0]), i - 1) == CasedBefore(s, afterCased, i) by {
          if i > 1 { assert t[i - 2] == s[i - 1]; }
        }
      }
    }
  }
}
