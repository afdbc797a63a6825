/**
 The string helpers the authorizer takes from its language's library, on
 `seq<char>`. Case folding is ASCII.
 */
module Text {
  function LowerChar(c: char): char {
    if 'A' <= c <= 'Z' then (c as int + 32) as char else c
  }

  function UpperChar(c: char): char {
    if 'a' <= c <= 'z' then (c as int - 32) as char else c
  }

  function ToLower(s: string): string {
    seq(|s|, i requires 0 <= i < |s| => LowerChar(s[i]))
  }

  function ToUpper(s: string): string {
    seq(|s|, i requires 0 <= i < |s| => UpperChar(s[i]))
  }

  predicate HasPrefix(s: string, prefix: string) {
    |prefix| <= |s| && s[..|prefix|] == prefix
  }

  predicate HasSuffix(s: string, suffix: string) {
    |suffix| <= |s| && s[|s| - |suffix|..] == suffix
  }

  function TrimSuffix(s: string, suffix: string): string {
    if HasSuffix(s, suffix) then s[..|s| - |suffix|] else s
  }

  predicate Contains(s: string, part: string) {
    HasPrefix(s, part) || (s != "" && Contains(s[1..], part))
  }

  predicate ContainsAny(s: string, chars: set<char>) {
    exists c :: c in chars && c in s
  }

  /** Drops leading characters of `cutset`. */
  function TrimLeft(s: string, cutset: set<char>): string {
    if s != "" && s[0] in cutset then TrimLeft(s[1..], cutset) else s
  }

  /** Drops trailing characters of `cutset`. */
  function TrimRight(s: string, cutset: set<char>): string {
    if s != "" && s[|s| - 1] in cutset then TrimRight(s[..|s| - 1], cutset) else s
  }

  function Trim(s: string, cutset: set<char>): string {
    TrimRight(TrimLeft(s, cutset), cutset)
  }

  /** The text before the first character of `stops`. */
  function UpTo(s: string, stops: set<char>): string {
    if s == "" || s[0] in stops then "" else [s[0]] + UpTo(s[1..], stops)
  }

  /** A character in front of text already split: a new piece, or a longer first piece. */
  function Pushed(c: char, sep: char, pieces: seq<string>): seq<string>
    requires |pieces| >= 1
  {
    if c == sep then [""] + pieces else [[c] + pieces[0]] + pieces[1..]
  }

  /** Every piece between separators, empty pieces included. */
  function Split(s: string, sep: char): (pieces: seq<string>)
    ensures |pieces| >= 1
    ensures forall k :: 0 <= k < |pieces| ==> sep !in pieces[k]
  {
    if s == "" then [""] else Pushed(s[0], sep, Split(s[1..], sep))
  }

  /** The pieces that are not empty, in order. */
  function NonEmpty(pieces: seq<string>): seq<string> {
    if pieces == [] then []
    else (if pieces[0] == "" then [] else [pieces[0]]) + NonEmpty(pieces[1..])
  }

  lemma LowerIdempotent(s: string)
    ensures ToLower(ToLower(s)) == ToLower(s)
  {
  }

  lemma UpperIdempotent(s: string)
    ensures ToUpper(ToUpper(s)) == ToUpper(s)
  {
  }

  /** Case changes never add or remove a character outside the letters. */
  lemma LowerKeeps(s: string, c: char)
    requires !('a' <= c <= 'z') && !('A' <= c <= 'Z')
    ensures c in ToLower(s) <==> c in s
  {
    forall k | 0 <= k < |s| ensures ToLower(s)[k] == c <==> s[k] == c {}
  }

  lemma PushedConcat(c: char, sep: char, left: seq<string>, right: seq<string>)
    requires |left| >= 1
    ensures Pushed(c, sep, left + right) == Pushed(c, sep, left) + right
  {
    if c != sep {
      assert (left + right)[1..] == left[1..] + right;
    }
  }

  /** A separator splits a string into the pieces of its two sides. */
  lemma {:induction false} SplitAtSeparator(a: string, sep: char, b: string)
    ensures Split(a + [sep] + b, sep) == Split(a, sep) + Split(b, sep)
  {
    if a == "" {
      assert a + [sep] + b == [sep] + b;
    } else {
      SplitAtSeparator(a[1..], sep, b);
      PushedConcat(a[0], sep, Split(a[1..], sep), Split(b, sep));
      assert (a + [sep] + b)[1..] == a[1..] + [sep] + b;
    }
  }

  lemma {:induction false} SplitWithout(a: string, sep: char)
    requires sep !in a
    ensures Split(a, sep) == [a]
  {
    if a != "" {
      assert a[0] in a;
      SplitWithout(a[1..], sep);
      assert [a[0]] + a[1..] == a;
    }
  }

  lemma {:induction false} NonEmptyConcat(a: seq<string>, b: seq<string>)
    ensures NonEmpty(a + b) == NonEmpty(a) + NonEmpty(b)
  {
    if a == [] {
      assert a + b == b;
    } else {
      NonEmptyConcat(a[1..], b);
      var head := if a[0] == "" then [] else [a[0]];
      assert a + b == [a[0]] + (a[1..] + b);
      assert NonEmpty(a) == head + NonEmpty(a[1..]);
      assert head + (NonEmpty(a[1..]) + NonEmpty(b)) == (head + NonEmpty(a[1..])) + NonEmpty(b);
    }
  }

  lemma {:induction false} UpToStops(a: string, stop: char, b: string, stops: set<char>)
    requires stop in stops
    ensures UpTo(a + [stop] + b, stops) == UpTo(a, stops)
  {
    if a == "" {
      assert (a + [stop] + b)[0] == stop;
    } else {
      UpToStops(a[1..], stop, b, stops);
      assert (a + [stop] + b)[1..] == a[1..] + [stop] + b;
    }
  }

  lemma {:induction false} UpToWhole(a: string, stops: set<char>)
    requires forall c :: c in stops ==> c !in a
    ensures UpTo(a, stops) == a
  {
    if a != "" {
      assert a[0] in a;
      UpToWhole(a[1..], stops);
    }
  }
}
