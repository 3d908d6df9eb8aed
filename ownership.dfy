// The ownership exercise: an owned, growable byte buffer standing for a
// `String`, the byte scan that finds the end of its first word, and the
// small ownership-passing functions around it. Strings are handled as bytes,
// as the scan itself does (`as_bytes`).

module Ownership {

  newtype byte = b: int | 0 <= b < 256

  /** The ASCII space, `b' '`. */
  const Space: byte := 0x20

  /** "hello" */
  const Hello: seq<byte> := [0x68, 0x65, 0x6c, 0x6c, 0x6f]

  /** ", world" */
  const CommaWorld: seq<byte> := [0x2c, 0x20, 0x77, 0x6f, 0x72, 0x6c, 0x64]

  /** "hello world" */
  const HelloWorld: seq<byte> := Hello + [Space] + CommaWorld[2..]

  /** An owned `String`: a byte buffer its owner may clear or extend in place. */
  class RustString {
    var bytes: seq<byte>

    /** `String::from(lit)` */
    constructor From(lit: seq<byte>)
      ensures bytes == lit
    {
      bytes := lit;
    }

    /** `s.clear()`: empties the buffer. */
    method Clear()
      modifies this
      ensures bytes == []
    {
      bytes := [];
    }

    /** `s.push_str(t)`: appends `t` at the end of the buffer. */
    method PushStr(t: seq<byte>)
      modifies this
      ensures bytes == old(bytes) + t
    {
      bytes := bytes + t;
    }
  }

  // ---------------------------------------------------------------------
  // first_word

  /** The index where the first word of `s` ends: the position of the first
      space byte, or the length of `s` when it holds no space. */
  function FirstWordIndex(s: seq<byte>): (r: nat)
    ensures r <= |s|
    ensures r < |s| ==> s[r] == Space
    ensures forall i :: 0 <= i < r ==> s[i] != Space
  {
    if s == [] || s[0] == Space then 0 else 1 + FirstWordIndex(s[1..])
  }

  /** The three properties of FirstWordIndex determine it: any in-bounds index
      with no space before it, and a space at it unless it is the end, is it. */
  lemma FirstWordIndexUnique(s: seq<byte>, r: nat)
    requires r <= |s|
    requires forall i :: 0 <= i < r ==> s[i] != Space
    requires r < |s| ==> s[r] == Space
    ensures FirstWordIndex(s) == r
  {
    // Follows from the contract of FirstWordIndex: a smaller index would
    // land on a space before r, a larger one would skip the space at r.
  }

  /** The first word ends at the length of the string exactly when the
      string holds no space at all. */
  lemma FirstWordIndexIsLengthIffNoSpace(s: seq<byte>)
    ensures FirstWordIndex(s) == |s| <==> Space !in s
  {
    if Space in s {
      var j :| 0 <= j < |s| && s[j] == Space;
      assert FirstWordIndex(s) <= j;
    }
  }

  /** A space-free word followed by a space and anything at all: the first
      word ends right after that word. */
  lemma FirstWordIndexOfWordThenSpace(w: seq<byte>, rest: seq<byte>)
    requires Space !in w
    ensures FirstWordIndex(w + [Space] + rest) == |w|
  {
    var s := w + [Space] + rest;
    forall i | 0 <= i < |w| ensures s[i] != Space {
      assert s[i] == w[i];
    }
    FirstWordIndexUnique(s, |w|);
  }

  lemma HelloWorldFirstWord()
    ensures FirstWordIndex(HelloWorld) == 5
  {
    FirstWordIndexOfWordThenSpace(Hello, CommaWorld[2..]);
  }

  /** `first_word(s: &String) -> usize`: scans the bytes of `s` and returns
      the index of the first space, or `s.len()` when there is none. The
      string is only borrowed for reading, so the method modifies nothing. */
  method FirstWord(s: RustString) returns (r: nat)
    ensures r == FirstWordIndex(s.bytes)
  {
    var bytes := s.bytes;
    var i := 0;
    while i < |bytes|
      invariant i <= |bytes|
      invariant forall j :: 0 <= j < i ==> bytes[j] != Space
    {
      if bytes[i] == Space {
        FirstWordIndexUnique(bytes, i);
        return i;
      }
      i := i + 1;
    }
    FirstWordIndexUnique(bytes, |bytes|);
    return |bytes|;
  }

  /** `first_word(s: &str) -> &str`: the same scan, returning the slice
      `&s[0..i]` up to the first space, or the whole of `s`. */
  method FirstWordSlice(s: seq<byte>) returns (word: seq<byte>)
    ensures word == s[..FirstWordIndex(s)]
    ensures word <= s
    ensures Space !in word
    ensures |word| < |s| ==> s[|word|] == Space
    ensures word == s <==> Space !in s
  {
    var i := 0;
    while i < |s|
      invariant i <= |s|
      invariant forall j :: 0 <= j < i ==> s[j] != Space
    {
      if s[i] == Space {
        FirstWordIndexUnique(s, i);
        return s[0..i];
      }
      i := i + 1;
    }
    FirstWordIndexUnique(s, |s|);
    return s[..];
  }

  /** The body of `main`: take the first-word index of a string, then clear
      the string. The index describes the string as it was, not as it is. */
  method FirstWordThenClear(s: RustString) returns (word: nat)
    modifies s
    ensures word == FirstWordIndex(old(s.bytes))
    ensures s.bytes == []
  {
    word := FirstWord(s);
    s.Clear();
  }

  /** `main` on "hello world": the index is 5, and once the string is cleared
      its length is 0, so 5 no longer denotes any position in it. */
  method StaleIndexScenario() returns (word: nat, lengthAfterClear: nat)
    ensures word == 5
    ensures lengthAfterClear == 0
    ensures word > lengthAfterClear
  {
    var s := new RustString.From(HelloWorld);
    HelloWorldFirstWord();
    word := FirstWordThenClear(s);
    lengthAfterClear := |s.bytes|;
  }

  // ---------------------------------------------------------------------
  // The ownership-passing helpers

  /** `gives_ownership() -> String`: a fresh "hello" handed to the caller. */
  method GivesOwnership() returns (s: RustString)
    ensures fresh(s)
    ensures s.bytes == Hello
  {
    s := new RustString.From(Hello);
  }

  /** `takes_and_gives_back(a_string: String) -> String`: ownership of the
      argument goes in and the very same string comes back out. */
  function TakesAndGivesBack(aString: RustString): (r: RustString)
    ensures r == aString
  {
    aString
  }

  /** `calculate_length(s: &String) -> usize`: the byte length of the
      borrowed string. */
  function CalculateLength(s: RustString): (length: nat)
    reads s
    ensures length == |s.bytes|
  {
    |s.bytes|
  }

  /** `calculate_length(s: String) -> (String, usize)`: takes ownership of
      `s` and hands it back together with its length. */
  function CalculateLengthMoved(s: RustString): (r: (RustString, nat))
    reads s
    ensures r.0 == s
    ensures r.1 == |s.bytes|
  {
    (s, |s.bytes|)
  }

  /** Moving the string in and out, or only borrowing it, measures the same
      length, and the moved-in string is the one that comes back. */
  lemma CalculateLengthVersionsAgree(s: RustString)
    ensures CalculateLengthMoved(s) == (s, CalculateLength(s))
  {
  }

  /** `change(some_string: &mut String)`: appends ", world" in place. */
  method Change(someString: RustString)
    modifies someString
    ensures someString.bytes == old(someString.bytes) + CommaWorld
  {
    someString.PushStr(CommaWorld);
  }

  /** The `main` around `change`: a mutable "hello" lent out exclusively
      comes back as "hello, world". */
  method ChangeScenario() returns (contents: seq<byte>)
    ensures contents == Hello + CommaWorld
    ensures |contents| == |Hello| + 7
  {
    var s := new RustString.From(Hello);
    Change(s);
    contents := s.bytes;
  }
}
