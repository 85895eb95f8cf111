/**
 * The three Python string operations the naming grammar rests on:
 * `s.split(" ")`, `" ".join(parts)` and `s.upper()`.
 */
module Text {

  /**
   * Python's `s.split(" ")`: split on every single space. There is always at
   * least one token, `""` splits to `[""]`, and consecutive, leading or
   * trailing spaces give empty tokens.
   */
  function Split(s: string): (parts: seq<string>)
    ensures |parts| >= 1
    decreases |s|
  {
    if s == [] then [""]
    else
      var rest := Split(s[1..]);
      if s[0] == ' ' then [""] + rest
      else [[s[0]] + rest[0]] + rest[1..]
  }

  /** Python's `" ".join(parts)`; the empty list joins to `""`. */
  function Join(parts: seq<string>): string {
    if |parts| == 0 then ""
    else if |parts| == 1 then parts[0]
    else parts[0] + " " + Join(parts[1..])
  }

  /** A token as produced by `Split`: it holds no space. */
  predicate IsWord(w: string) {
    ' ' !in w
  }

  predicate AreWords(parts: seq<string>) {
    forall w :: w in parts ==> IsWord(w)
  }

  /** Splitting never produces a token with a space in it. */
  lemma {:induction false} SplitGivesWords(s: string)
    ensures AreWords(Split(s))
    decreases |s|
  {
    if s != [] {
      SplitGivesWords(s[1..]);
      var rest := Split(s[1..]);
      if s[0] != ' ' {
        assert IsWord(rest[0]);
        forall c | c in [s[0]] + rest[0] ensures c != ' ' {
          if c != s[0] { assert c in rest[0]; }
        }
      }
    }
  }

  /** Joining the tokens of a split gives back the original string. */
  lemma {:induction false} JoinSplit(s: string)
    ensures Join(Split(s)) == s
    decreases |s|
  {
    if s != [] {
      JoinSplit(s[1..]);
      var rest := Split(s[1..]);
      if s[0] == ' ' {
        assert ([""] + rest)[1..] == rest;
      } else if |rest| == 1 {
        assert Join(rest) == rest[0];
      } else {
        assert Join(rest) == rest[0] + " " + Join(rest[1..]);
        assert ([[s[0]] + rest[0]] + rest[1..])[1..] == rest[1..];
      }
    }
  }

  /** A word splits to itself. */
  lemma {:induction false} SplitWord(w: string)
    requires IsWord(w)
    ensures Split(w) == [w]
    decreases |w|
  {
    if w != [] {
      SplitWord(w[1..]);
      assert [w[0]] + w[1..] == w;
    }
  }

  /** One unfolding of `Split` on a non-empty string. */
  lemma SplitStep(s: string)
    requires s != []
    ensures Split(s) == if s[0] == ' ' then [""] + Split(s[1..])
                        else [[s[0]] + Split(s[1..])[0]] + Split(s[1..])[1..]
  {
  }

  /** A space cuts the split in two: `(a + " " + b).split(" ") == a.split(" ") + b.split(" ")`. */
  lemma {:induction false} SplitAtSpace(a: string, b: string)
    ensures Split(a + " " + b) == Split(a) + Split(b)
    decreases |a|
  {
    var s := a + " " + b;
    SplitStep(s);
    if a == [] {
      assert s[0] == ' ' && s[1..] == b;
    } else {
      assert s[0] == a[0] && s[1..] == a[1..] + " " + b;
      SplitAtSpace(a[1..], b);
      SplitStep(a);
      var ra, rb := Split(a[1..]), Split(b);
      if a[0] != ' ' {
        assert (ra + rb)[0] == ra[0];
        assert (ra + rb)[1..] == ra[1..] + rb;
      }
    }
  }

  /** Splitting a join of words gives back the words. */
  lemma {:induction false} SplitJoin(parts: seq<string>)
    requires |parts| >= 1 && AreWords(parts)
    ensures Split(Join(parts)) == parts
    decreases |parts|
  {
    if |parts| == 1 {
      SplitWord(parts[0]);
    } else {
      SplitJoin(parts[1..]);
      SplitWord(parts[0]);
      SplitAtSpace(parts[0], Join(parts[1..]));
      assert [parts[0]] + parts[1..] == parts;
    }
  }

  /**
   * The fixed leading tokens of a name followed by a free-text label: the
   * split gives back the fixed tokens, and joining what follows them gives
   * back the label.
   */
  lemma WordsThenLabel(fixed: seq<string>, freeText: string)
    requires |fixed| >= 1 && AreWords(fixed)
    ensures var parts := Split(Join(fixed) + " " + freeText);
      |parts| > |fixed| && parts[..|fixed|] == fixed && Join(parts[|fixed|..]) == freeText
  {
    SplitAtSpace(Join(fixed), freeText);
    SplitJoin(fixed);
    JoinSplit(freeText);
    var parts := Split(Join(fixed) + " " + freeText);
    assert parts == fixed + Split(freeText);
    assert parts[|fixed|..] == Split(freeText);
  }

  /**
   * Python's `c.upper()` restricted to what a comparison against an
   * upper-case ASCII tag can observe: ASCII letters, and the two non-ASCII
   * letters whose upper case is a single ASCII letter (dotless i and long s).
   * Every other character either upper-cases to itself or to something that
   * holds a non-ASCII character or one of SS, FF, FI, FL, ST, none of which
   * occurs in a tag.
   */
  function UpperChar(c: char): char {
    if 'a' <= c <= 'z' then (c as int - 32) as char
    else if c == '\U{0131}' then 'I'
    else if c == '\U{017F}' then 'S'
    else c
  }

  function Upper(s: string): string {
    seq(|s|, i requires 0 <= i < |s| => UpperChar(s[i]))
  }

  /** Upper-casing is idempotent. */
  lemma UpperIdempotent(s: string)
    ensures Upper(Upper(s)) == Upper(s)
  {
  }

  /** Upper-casing changes only letters: a name with no lower-case letter is its own upper case. */
  lemma UpperOfUpperCase(s: string)
    requires forall i :: 0 <= i < |s| ==> !('a' <= s[i] <= 'z') && s[i] != '\U{0131}' && s[i] != '\U{017F}'
    ensures Upper(s) == s
  {
  }
}
