/**
 * The string operations the adapters use: `String.Split(char)`, `String.Contains(string)`
 * (ordinal) and `ToUpperInvariant` restricted to ASCII letters.
 */
module Text {

  /** `s.Split(sep)`: every separator ends one field; there is always at least one field. */
  function Split(s: string, sep: char): (r: seq<string>)
    ensures |r| >= 1
    ensures forall i :: 0 <= i < |r| ==> sep !in r[i]
  {
    if |s| == 0 then [""]
    else if s[0] == sep then [""] + Split(s[1..], sep)
    else
      var rest := Split(s[1..], sep);
      [[s[0]] + rest[0]] + rest[1..]
  }

  /** Places `sep` between consecutive fields: the message a sender builds. */
  function Join(fields: seq<string>, sep: char): string
    requires |fields| >= 1
  {
    if |fields| == 1 then fields[0] else fields[0] + [sep] + Join(fields[1..], sep)
  }

  /** Number of fields `Split` yields: one more than the number of separators. */
  function Count(s: string, c: char): nat
  {
    if |s| == 0 then 0 else (if s[0] == c then 1 else 0) + Count(s[1..], c)
  }

  lemma {:induction false} SplitLength(s: string, sep: char)
    ensures |Split(s, sep)| == Count(s, sep) + 1
  {
    if |s| > 0 {
      SplitLength(s[1..], sep);
    }
  }

  /** A field without a separator, followed by one, comes back as one field. */
  lemma {:induction false} SplitField(f: string, sep: char, rest: string)
    requires sep !in f
    ensures Split(f + [sep] + rest, sep) == [f] + Split(rest, sep)
  {
    if |f| == 0 {
      assert f + [sep] + rest == [sep] + rest;
      assert ([sep] + rest)[1..] == rest;
    } else {
      var s := f + [sep] + rest;
      assert s[0] == f[0];
      assert s[1..] == f[1..] + [sep] + rest;
      SplitField(f[1..], sep, rest);
      assert [f[0]] + f[1..] == f;
    }
  }

  /** A string without the separator is a single field. */
  lemma {:induction false} SplitNoSeparator(f: string, sep: char)
    requires sep !in f
    ensures Split(f, sep) == [f]
  {
    if |f| > 0 {
      SplitNoSeparator(f[1..], sep);
      assert [f[0]] + f[1..] == f;
    }
  }

  /** No field holds the separator. */
  predicate NoneContains(fields: seq<string>, sep: char)
  {
    forall i :: 0 <= i < |fields| ==> sep !in fields[i]
  }

  lemma NoneContainsTwo(a: string, b: string, sep: char)
    requires sep !in a && sep !in b
    ensures NoneContains([a, b], sep)
  {
  }

  lemma NoneContainsFour(a: string, b: string, c: string, d: string, sep: char)
    requires sep !in a && sep !in b && sep !in c && sep !in d
    ensures NoneContains([a, b, c, d], sep)
  {
  }

  lemma NoneContainsConcat(a: seq<string>, b: seq<string>, sep: char)
    requires NoneContains(a, sep) && NoneContains(b, sep)
    ensures NoneContains(a + b, sep)
  {
    forall i | 0 <= i < |a + b| ensures sep !in (a + b)[i] {
      if i < |a| {
        assert (a + b)[i] == a[i];
      } else {
        assert (a + b)[i] == b[i - |a|];
      }
    }
  }

  /** Splitting a joined message gives back exactly its fields, provided no field holds the separator. */
  lemma {:induction false} SplitJoin(fields: seq<string>, sep: char)
    requires |fields| >= 1
    requires NoneContains(fields, sep)
    ensures Split(Join(fields, sep), sep) == fields
  {
    if |fields| == 1 {
      SplitNoSeparator(fields[0], sep);
    } else {
      SplitJoin(fields[1..], sep);
      SplitField(fields[0], sep, Join(fields[1..], sep));
      assert [fields[0]] + fields[1..] == fields;
    }
  }

  /** Joining the fields of a message gives back the message. */
  lemma {:induction false} JoinSplit(s: string, sep: char)
    ensures Join(Split(s, sep), sep) == s
  {
    if |s| > 0 {
      JoinSplit(s[1..], sep);
      var rest := Split(s[1..], sep);
      if s[0] != sep {
        var r := Split(s, sep);
        assert r[0] == [s[0]] + rest[0];
        assert r[1..] == rest[1..];
        if |rest| == 1 {
          assert Join(r, sep) == [s[0]] + rest[0];
        } else {
          assert Join(r, sep) == [s[0]] + rest[0] + [sep] + Join(rest[1..], sep);
        }
      }
      assert [s[0]] + s[1..] == s;
    }
  }

  /** Ordinal substring test, as `String.Contains(string)`. */
  function Contains(s: string, pattern: string): (r: bool)
    ensures r ==> |pattern| <= |s|
    decreases |s|
  {
    if |s| < |pattern| then false
    else s[..|pattern|] == pattern || Contains(s[1..], pattern)
  }

  /** `pattern` occurs in `s` starting at index `i`. */
  predicate OccursAt(s: string, pattern: string, i: int)
  {
    0 <= i && i + |pattern| <= |s| && s[i..i + |pattern|] == pattern
  }

  /** `Contains` holds exactly when the pattern occurs at some position. */
  lemma {:induction false} ContainsOccurrence(s: string, pattern: string)
    ensures Contains(s, pattern) <==> exists i :: OccursAt(s, pattern, i)
    decreases |s|
  {
    if |s| >= |pattern| {
      if s[..|pattern|] == pattern {
        assert OccursAt(s, pattern, 0);
      } else {
        if |s| > 0 {
          ContainsOccurrence(s[1..], pattern);
          if Contains(s[1..], pattern) {
            var i :| OccursAt(s[1..], pattern, i);
            assert s[i + 1..i + 1 + |pattern|] == s[1..][i..i + |pattern|];
            assert OccursAt(s, pattern, i + 1);
          }
        }
        if exists i :: OccursAt(s, pattern, i) {
          var i :| OccursAt(s, pattern, i);
          assert i > 0;
          assert s[1..][i - 1..i - 1 + |pattern|] == s[i..i + |pattern|];
          assert OccursAt(s[1..], pattern, i - 1);
        }
      }
    }
  }

  /** `Char.ToUpperInvariant` on ASCII letters; every other character is left as it is. */
  function UpperChar(c: char): char
  {
    if 'a' <= c <= 'z' then (c as int - 'a' as int + 'A' as int) as char else c
  }

  /** `ToUpperInvariant` over a string, character by character. */
  function ToUpper(s: string): (r: string)
    ensures |r| == |s|
    ensures forall i :: 0 <= i < |s| ==> r[i] == UpperChar(s[i])
    ensures forall i :: 0 <= i < |r| ==> !('a' <= r[i] <= 'z')
  {
    if |s| == 0 then "" else [UpperChar(s[0])] + ToUpper(s[1..])
  }

  /** Upper-casing twice is upper-casing once. */
  lemma ToUpperIdempotent(s: string)
    ensures ToUpper(ToUpper(s)) == ToUpper(s)
  {
  }
}
