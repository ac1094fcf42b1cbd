/** The two text operations a 'Chg Func' step goes through before its
    expression is parsed: Python's str.split on '|' and the single regular
    expression pass that rewrites the tokens CRATE and STIME. */
module Text {

  /** Python's s.split(sep): the fields between occurrences of sep, in
      order; there is always at least one field and no field contains sep. */
  function Split(s: string, sep: char): (fields: seq<string>)
    ensures |fields| >= 1
    ensures forall i | 0 <= i < |fields| :: sep !in fields[i]
    ensures |fields| >= 2 <==> sep in s
    decreases |s|
  {
    if s == [] then [[]]
    else
      var rest := Split(s[1..], sep);
      if s[0] == sep then [[]] + rest
      else [[s[0]] + rest[0]] + rest[1..]
  }

  /** sep.join(fields), the inverse of Split. */
  function Join(fields: seq<string>, sep: char): string
    requires |fields| >= 1
    decreases |fields|
  {
    if |fields| == 1 then fields[0]
    else fields[0] + [sep] + Join(fields[1..], sep)
  }

  lemma {:induction false} JoinSplit(s: string, sep: char)
    ensures Join(Split(s, sep), sep) == s
    decreases |s|
  {
    if s != [] {
      var rest := Split(s[1..], sep);
      JoinSplit(s[1..], sep);
      if s[0] == sep {
        assert Split(s, sep) == [[]] + rest;
        assert ([[]] + rest)[1..] == rest;
      } else if |rest| == 1 {
        assert Split(s, sep) == [[s[0]] + rest[0]];
      } else {
        var fields := [[s[0]] + rest[0]] + rest[1..];
        assert Split(s, sep) == fields;
        assert fields[1..] == rest[1..];
        assert Join(rest, sep) == rest[0] + [sep] + Join(rest[1..], sep);
        assert [s[0]] + s[1..] == s;
      }
    }
  }

  /** The first two fields of a text that contains sep: the first field is
      everything before the first sep, the second field runs from there up
      to the second sep or to the end of the text. */
  lemma FirstTwoFields(s: string, sep: char)
    requires sep in s
    ensures var f := Split(s, sep);
      |f| >= 2 &&
      f[0] + [sep] + f[1] <= s &&
      sep !in f[0] && sep !in f[1] &&
      (|f[0]| + 1 + |f[1]| < |s| ==> s[|f[0]| + 1 + |f[1]|] == sep)
  {
    var f := Split(s, sep);
    JoinSplit(s, sep);
    assert Join(f, sep) == f[0] + [sep] + Join(f[1..], sep);
    if |f| == 2 {
      assert Join(f[1..], sep) == f[1];
    } else {
      assert f[1..][1..] == f[2..];
      assert Join(f[1..], sep) == f[1] + [sep] + Join(f[2..], sep);
      assert s == (f[0] + [sep] + f[1]) + ([sep] + Join(f[2..], sep));
    }
  }

  /** A text without sep is a single field. */
  lemma SplitWithoutSeparator(s: string, sep: char)
    requires sep !in s
    ensures Split(s, sep) == [s]
  {
    JoinSplit(s, sep);
  }

  /** The first field ends at the first sep: splitting a + [sep] + b, where a
      has no sep, gives a followed by the fields of b. */
  lemma {:induction false} SplitAtFirstSeparator(a: string, b: string, sep: char)
    requires sep !in a
    ensures Split(a + [sep] + b, sep) == [a] + Split(b, sep)
    decreases |a|
  {
    var s := a + [sep] + b;
    if a == [] {
      assert s[1..] == b;
    } else {
      assert s[1..] == a[1..] + [sep] + b;
      SplitAtFirstSeparator(a[1..], b, sep);
      assert [a[0]] + a[1..] == a;
    }
  }

  const CrateToken: string := "CRATE"
  const StimeToken: string := "STIME"

  /** A token of the step language starts at position i of s. */
  predicate TokenAt(s: string, i: nat) {
    i + 5 <= |s| && (s[i..i + 5] == CrateToken || s[i..i + 5] == StimeToken)
  }

  predicate NoToken(s: string) {
    forall i | 0 <= i < |s| :: !TokenAt(s, i)
  }

  /** re.compile('CRATE|STIME').sub with CRATE -> '1' and STIME -> 't':
      one left-to-right scan that replaces each non-overlapping occurrence,
      also inside longer identifiers. The two tokens have the same length
      and never start at the same position, so the alternation order does
      not matter. */
  function Substitute(s: string): (r: string)
    ensures |r| <= |s|
    ensures |r| == |s| ==> r == s
    decreases |s|
  {
    if s == [] then []
    else if |s| >= 5 && s[..5] == CrateToken then "1" + Substitute(s[5..])
    else if |s| >= 5 && s[..5] == StimeToken then "t" + Substitute(s[5..])
    else [s[0]] + Substitute(s[1..])
  }

  /** Every character of the substituted text is a replacement character
      or a character of the original text. */
  lemma {:induction false} SubstituteAlphabet(s: string)
    ensures forall k | 0 <= k < |Substitute(s)| ::
      Substitute(s)[k] in s || Substitute(s)[k] == '1' || Substitute(s)[k] == 't'
    decreases |s|
  {
    if s != [] {
      var n := if |s| >= 5 && (s[..5] == CrateToken || s[..5] == StimeToken) then 5 else 1;
      var r := Substitute(s);
      var tail := Substitute(s[n..]);
      SubstituteAlphabet(s[n..]);
      assert r == [r[0]] + tail;
      assert r[0] == s[0] || r[0] == '1' || r[0] == 't';
      forall k | 1 <= k < |r|
        ensures r[k] in s || r[k] == '1' || r[k] == 't'
      {
        assert r[k] == tail[k - 1];
        if tail[k - 1] in s[n..] {
          var j :| 0 <= j < |s[n..]| && s[n..][j] == tail[k - 1];
          assert s[n + j] == r[k];
        }
      }
    }
  }

  /** Neither replacement character can be part of a token. */
  predicate TokenFree(w: string) {
    forall k | 0 <= k < |w| :: w[k] != '1' && w[k] != 't'
  }

  /** A prefix of the substituted text made of characters that no
      replacement produces is already a prefix of the original text. */
  lemma {:induction false} PrefixComesFromSource(s: string, w: string)
    requires TokenFree(w)
    requires w <= Substitute(s)
    ensures w <= s
    decreases |s|
  {
    if w != [] {
      assert s != [];
      var r := Substitute(s);
      assert w[0] == r[0] && w[0] != '1' && w[0] != 't';
      if |s| >= 5 && (s[..5] == CrateToken || s[..5] == StimeToken) {
        assert false;
      } else {
        assert r == [s[0]] + Substitute(s[1..]);
        assert w[1..] <= Substitute(s[1..]);
        PrefixComesFromSource(s[1..], w[1..]);
      }
    }
  }

  /** After the pass no token is left: the replacement characters '1' and
      't' never combine with their neighbours into a new CRATE or STIME. */
  lemma {:induction false} SubstituteLeavesNoToken(s: string)
    ensures NoToken(Substitute(s))
    decreases |s|
  {
    var r := Substitute(s);
    if s == [] {
      assert r == [];
    } else {
      var k := if |s| >= 5 && (s[..5] == CrateToken || s[..5] == StimeToken) then 5 else 1;
      var tail := Substitute(s[k..]);
      SubstituteLeavesNoToken(s[k..]);
      assert r == [r[0]] + tail;
      forall i: nat
        ensures !TokenAt(r, i)
      {
        if i == 0 {
          if k == 1 && 5 <= |r| && TokenFree(r[..5]) {
            PrefixComesFromSource(s, r[..5]);
          }
        } else if i + 5 <= |r| {
          assert r[1..] == tail;
          assert r[i..i + 5] == r[1..][i - 1..i - 1 + 5];
          assert !TokenAt(tail, i - 1);
        }
      }
    }
  }

  /** A text without tokens passes through unchanged. */
  lemma {:induction false} SubstituteKeepsTokenFreeText(s: string)
    requires NoToken(s)
    ensures Substitute(s) == s
    decreases |s|
  {
    if s != [] {
      assert !TokenAt(s, 0);
      forall i: nat
        ensures !TokenAt(s[1..], i)
      {
        if TokenAt(s[1..], i) {
          assert s[1..][i..i + 5] == s[i + 1..i + 1 + 5];
          assert TokenAt(s, i + 1);
        }
      }
      SubstituteKeepsTokenFreeText(s[1..]);
    }
  }

  /** A text that does not start with a token: its first character is
      copied and the scan goes on after it. */
  lemma CopiesFirst(s: string)
    requires s != [] && !TokenAt(s, 0)
    ensures Substitute(s) == [s[0]] + Substitute(s[1..])
  {
    if |s| >= 5 {
      assert s[..5] == s[0..5];
    }
  }

  /** No token starts inside a + token + b before the token: the same
      holds once the first character of a is dropped. */
  lemma NoTokenInRest(a: string, token: string, b: string)
    requires a != []
    requires forall i | 0 <= i < |a| :: !TokenAt(a + token + b, i)
    ensures forall i | 0 <= i < |a[1..]| :: !TokenAt(a[1..] + token + b, i)
  {
    var s := a + token + b;
    assert s[1..] == a[1..] + token + b;
    forall i | 0 <= i < |a[1..]|
      ensures !TokenAt(a[1..] + token + b, i)
    {
      assert !TokenAt(s, i + 1);
      if i + 5 <= |s[1..]| {
        assert s[1..][i..i + 5] == s[i + 1..i + 1 + 5];
      }
    }
  }

  /** Regrouping a + c + t around the first character of a. */
  lemma FirstOfConcat(a: string, c: string, t: string)
    requires a != []
    ensures (a + c + t)[1..] == a[1..] + c + t
    ensures a + c + t == [a[0]] + (a[1..] + c + t)
  {
  }

  /** One step of the copy: the first character of a is copied. */
  lemma CopyFirst(a: string, token: string, c: string, b: string)
    requires a != [] && !TokenAt(a + token + b, 0)
    requires Substitute(a[1..] + token + b) == a[1..] + c + Substitute(b)
    ensures Substitute(a + token + b) == a + c + Substitute(b)
  {
    FirstOfConcat(a, token, b);
    CopiesFirst(a + token + b);
    FirstOfConcat(a, c, Substitute(b));
  }

  /** A text that starts with a token: the token becomes its character. */
  lemma SubstituteOfToken(token: string, c: string, b: string)
    requires (token == CrateToken && c == "1") || (token == StimeToken && c == "t")
    ensures Substitute(token + b) == c + Substitute(b)
  {
    var s := token + b;
    assert s[..5] == token && s[5..] == b;
  }

  /** Text before a prefix that the scan replaces by c is copied unchanged,
      provided no token starts inside it. */
  lemma {:induction false} CopyUpTo(a: string, token: string, c: string, b: string)
    requires Substitute(token + b) == c + Substitute(b)
    requires forall i | 0 <= i < |a| :: !TokenAt(a + token + b, i)
    ensures Substitute(a + token + b) == a + c + Substitute(b)
    decreases |a|
  {
    if a == [] {
      assert a + token + b == token + b;
    } else {
      NoTokenInRest(a, token, b);
      CopyUpTo(a[1..], token, c, b);
      CopyFirst(a, token, c, b);
    }
  }

  /** The first token of a text is replaced by its character ('1' for
      CRATE, 't' for STIME), the text before it is copied, and the scan
      goes on after it. With a non-empty a the token sits inside a longer
      identifier ("XCRATEY" becomes "X1Y"). */
  lemma SubstituteAtToken(a: string, token: string, c: string, b: string)
    requires (token == CrateToken && c == "1") || (token == StimeToken && c == "t")
    requires forall i | 0 <= i < |a| :: !TokenAt(a + token + b, i)
    ensures Substitute(a + token + b) == a + c + Substitute(b)
  {
    SubstituteOfToken(token, c, b);
    CopyUpTo(a, token, c, b);
  }
}
