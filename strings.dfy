/**
 * The two PHP string built-ins the class-diagram writer relies on, each with
 * a partner that undoes it:
 *   - addslashes (AddSlashes), undone by stripslashes (StripSlashes);
 *   - implode with a one-character glue (Join), undone by Split.
 * Strings are sequences of characters; PHP works on bytes, which behave the
 * same for the four characters addslashes touches.
 */
module Strings {

  /** The characters addslashes puts a backslash in front of. */
  predicate IsSlashed(c: char) {
    c == '\'' || c == '"' || c == '\\' || c == '\0'
  }

  /** The escape of one character: NUL becomes a backslash and the digit 0. */
  function SlashedChar(c: char): (r: string)
    ensures IsSlashed(c) ==> |r| == 2 && r[0] == '\\'
    ensures !IsSlashed(c) ==> r == [c]
  {
    if c == '\0' then ['\\', '0']
    else if IsSlashed(c) then ['\\', c]
    else [c]
  }

  /** PHP addslashes: every quote, double quote, backslash and NUL gets a backslash in front. */
  function AddSlashes(s: string): (r: string)
  {
    if s == [] then [] else SlashedChar(s[0]) + AddSlashes(s[1..])
  }

  /** PHP stripslashes: a backslash is dropped and the next character kept; a backslash-0 is NUL. */
  function StripSlashes(s: string): (r: string)
    ensures |r| <= |s|
  {
    if s == [] then []
    else if s[0] != '\\' then [s[0]] + StripSlashes(s[1..])
    else if |s| == 1 then []
    else (if s[1] == '0' then ['\0'] else [s[1]]) + StripSlashes(s[2..])
  }

  /** addslashes at most doubles a name: every character gives one or two. */
  lemma {:induction false} AddSlashesLength(s: string)
    ensures |s| <= |AddSlashes(s)| <= 2 * |s|
  {
    if s != [] {
      AddSlashesLength(s[1..]);
    }
  }

  /** stripslashes undoes addslashes, so two distinct names never escape to the same text. */
  lemma {:induction false} StripAddSlashes(s: string)
    ensures StripSlashes(AddSlashes(s)) == s
  {
    if s != [] {
      var head, tail := SlashedChar(s[0]), AddSlashes(s[1..]);
      StripAddSlashes(s[1..]);
      if IsSlashed(s[0]) {
        assert (head + tail)[2..] == tail;
      } else {
        assert (head + tail)[1..] == tail;
      }
    }
  }

  lemma AddSlashesInjective(s: string, t: string)
    requires AddSlashes(s) == AddSlashes(t)
    ensures s == t
  {
    StripAddSlashes(s);
    StripAddSlashes(t);
  }

  /** A name holding none of the four escaped characters passes through addslashes unchanged. */
  lemma {:induction false} AddSlashesIdentity(s: string)
    requires forall i :: 0 <= i < |s| ==> !IsSlashed(s[i])
    ensures AddSlashes(s) == s
  {
    if s != [] {
      AddSlashesIdentity(s[1..]);
    }
  }

  /** addslashes only ever inserts backslashes and the digit 0: any other character occurs in the escape exactly when it occurs in the input. */
  lemma {:induction false} AddSlashesKeeps(s: string, c: char)
    requires !IsSlashed(c) && c != '0'
    ensures c in AddSlashes(s) <==> c in s
  {
    if s != [] {
      AddSlashesKeeps(s[1..], c);
      assert AddSlashes(s) == SlashedChar(s[0]) + AddSlashes(s[1..]);
      assert s == [s[0]] + s[1..];
    }
  }

  /** Concatenation regroups freely: the one associativity fact the proofs lean on. */
  lemma AppendAssociates<T>(a: seq<T>, b: seq<T>, c: seq<T>)
    ensures (a + b) + c == a + (b + c)
  {
  }

  /** PHP implode with a one-character glue: the parts in order with the glue between neighbours. */
  function Join(parts: seq<string>, sep: char): (r: string)
    ensures |parts| > 1 ==> sep in r
    ensures |parts| >= 1 ==> |r| >= |parts| - 1
  {
    if |parts| == 0 then ""
    else if |parts| == 1 then parts[0]
    else parts[0] + [sep] + Join(parts[1..], sep)
  }

  /** The inverse of Join: cut a string at every occurrence of the separator. */
  function Split(s: string, sep: char): (r: seq<string>)
    ensures |r| >= 1
  {
    if s == [] then [""]
    else
      var rest := Split(s[1..], sep);
      if s[0] == sep then [""] + rest
      else [[s[0]] + rest[0]] + rest[1..]
  }

  /** No piece holds the separator. */
  lemma {:induction false} SplitPieces(s: string, sep: char)
    ensures forall i :: 0 <= i < |Split(s, sep)| ==> sep !in Split(s, sep)[i]
  {
    if s != [] {
      SplitPieces(s[1..], sep);
    }
  }

  lemma {:induction false} SplitWithout(a: string, sep: char)
    requires sep !in a
    ensures Split(a, sep) == [a]
  {
    if a != [] {
      SplitWithout(a[1..], sep);
      assert [a[0]] + a[1..] == a;
    }
  }

  lemma {:induction false} SplitAt(a: string, b: string, sep: char)
    requires sep !in a
    ensures Split(a + [sep] + b, sep) == [a] + Split(b, sep)
  {
    if a == [] {
      assert (a + [sep] + b)[1..] == b;
    } else {
      SplitAt(a[1..], b, sep);
      assert (a + [sep] + b)[1..] == a[1..] + [sep] + b;
      assert [a[0]] + a[1..] == a;
    }
  }

  /** Splitting the implode of separator-free parts gives back exactly those parts, in order. */
  lemma {:induction false} SplitJoin(parts: seq<string>, sep: char)
    requires |parts| >= 1
    requires forall i :: 0 <= i < |parts| ==> sep !in parts[i]
    ensures Split(Join(parts, sep), sep) == parts
  {
    if |parts| == 1 {
      SplitWithout(parts[0], sep);
    } else {
      SplitJoin(parts[1..], sep);
      SplitAt(parts[0], Join(parts[1..], sep), sep);
    }
  }

  /** Joining two non-empty lists is joining each and gluing the results. */
  lemma {:induction false} JoinAppend(a: seq<string>, b: seq<string>, sep: char)
    requires |a| >= 1 && |b| >= 1
    ensures Join(a + b, sep) == Join(a, sep) + [sep] + Join(b, sep)
  {
    if |a| == 1 {
      assert (a + b)[1..] == b;
    } else {
      JoinAppend(a[1..], b, sep);
      assert (a + b)[1..] == a[1..] + b;
    }
  }

  /** implode introduces no character other than its glue. */
  lemma {:induction false} JoinExcludes(parts: seq<string>, sep: char, c: char)
    requires c != sep
    requires forall i :: 0 <= i < |parts| ==> c !in parts[i]
    ensures c !in Join(parts, sep)
  {
    if |parts| > 1 {
      JoinExcludes(parts[1..], sep, c);
    }
  }
}
