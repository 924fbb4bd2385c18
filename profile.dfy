/**
 * `updateUserProfile`: the missing-data guard and the initials worked out from the
 * display name ("John Doe" gives "JD").
 */
module Profile {
  import opened Common

  // ---------------------------------------------------------------------------
  // `name.split(' ')` and its inverse

  /** `s.split(' ')`: never empty; pieces may be empty where spaces are leading, trailing or repeated. */
  function Split(s: string): (r: seq<string>)
    ensures |r| >= 1
    ensures forall p :: p in r ==> ' ' !in p
  {
    if s == [] then [[]]
    else
      var rest := Split(s[1..]);
      if s[0] == ' ' then [[]] + rest
      else [[s[0]] + rest[0]] + rest[1..]
  }

  /** `pieces.join(' ')` */
  function JoinSpaced(pieces: seq<string>): string
    requires |pieces| >= 1
  {
    if |pieces| == 1 then pieces[0] else pieces[0] + " " + JoinSpaced(pieces[1..])
  }

  /** Joining the pieces with spaces gives back the original name. */
  lemma {:induction false} JoinSplit(s: string)
    ensures JoinSpaced(Split(s)) == s
  {
    if s != [] {
      var rest := Split(s[1..]);
      JoinSplit(s[1..]);
      if s[0] == ' ' {
        assert Split(s)[1..] == rest;
      } else {
        var r := Split(s);
        if |rest| > 1 {
          assert r[1..] == rest[1..];
          assert JoinSpaced(rest) == rest[0] + " " + JoinSpaced(rest[1..]);
        }
      }
    }
  }

  /** Splitting a space-joined list of space-free pieces gives back the pieces. */
  lemma {:induction false} SplitJoin(pieces: seq<string>)
    requires |pieces| >= 1
    requires forall p :: p in pieces ==> ' ' !in p
    ensures Split(JoinSpaced(pieces)) == pieces
  {
    if |pieces| == 1 {
      SplitWord(pieces[0], []);
      assert pieces[0] + [] == pieces[0];
      assert Split([]) == [[]];
      assert [pieces[0]] == pieces;
    } else {
      var tail := pieces[1..];
      assert forall p :: p in tail ==> p in pieces;
      SplitJoin(tail);
      var rest := JoinSpaced(tail);
      assert (" " + rest)[1..] == rest;
      assert JoinSpaced(pieces) == pieces[0] + (" " + rest);
      SplitWord(pieces[0], " " + rest);
      var t := Split(" " + rest);
      assert t == [[]] + tail;
      assert pieces[0] + t[0] == pieces[0];
      assert [pieces[0]] + t[1..] == pieces;
    }
  }

  /** A space-free word in front of `s` merges into the first piece of `s`. */
  lemma {:induction false} SplitWord(w: string, s: string)
    requires ' ' !in w
    ensures var t := Split(s); Split(w + s) == [w + t[0]] + t[1..]
  {
    if w != [] {
      SplitWord(w[1..], s);
      assert (w + s)[0] == w[0];
      assert (w + s)[1..] == w[1..] + s;
      assert [w[0]] + (w[1..] + Split(s)[0]) == w + Split(s)[0];
    } else {
      var t := Split(s);
      assert w + s == s;
      assert w + t[0] == t[0];
      assert [t[0]] + t[1..] == t;
    }
  }

  // ---------------------------------------------------------------------------
  // First characters

  /** `pieces.map(n => n[0]).join('')`: an empty piece gives `undefined`, which joins as nothing. */
  function FirstChars(pieces: seq<string>): (r: string)
    ensures |r| <= |pieces|
    ensures (forall i :: 0 <= i < |pieces| ==> pieces[i] != []) ==> |r| == |pieces|
  {
    if pieces == [] then []
    else (if pieces[0] == [] then [] else [pieces[0][0]]) + FirstChars(pieces[1..])
  }

  /**
   * The word starts of `s`, found by scanning left to right: a non-space character
   * right after a space (`afterSpace`) or at the very beginning.
   */
  function WordStarts(s: string, afterSpace: bool): string
  {
    if s == [] then []
    else (if afterSpace && s[0] != ' ' then [s[0]] else []) + WordStarts(s[1..], s[0] == ' ')
  }

  /** Taking the first character of every piece of the split is the same as collecting word starts. */
  lemma {:induction false} FirstCharsAreWordStarts(s: string)
    ensures FirstChars(Split(s)) == WordStarts(s, true)
    ensures FirstChars(Split(s)[1..]) == WordStarts(s, false)
  {
    if s != [] {
      var rest := Split(s[1..]);
      FirstCharsAreWordStarts(s[1..]);
      var r := Split(s);
      if s[0] == ' ' {
        assert r[1..] == rest;
        assert FirstChars(r) == FirstChars(rest);
      } else {
        assert r[1..] == rest[1..];
        assert FirstChars(r) == [s[0]] + FirstChars(rest[1..]);
      }
    }
  }

  // ---------------------------------------------------------------------------
  // Initials

  /** `toUpperCase` on one character, for ASCII letters. */
  function UpperChar(c: char): (u: char)
    ensures !('a' <= u <= 'z')
    ensures 'a' <= c <= 'z' ==> u as int == c as int - 32
    ensures !('a' <= c <= 'z') ==> u == c
  {
    if 'a' <= c <= 'z' then (c as int - 32) as char else c
  }

  function Upper(s: string): (r: string)
    ensures |r| == |s|
    ensures forall i :: 0 <= i < |s| ==> r[i] == UpperChar(s[i])
  {
    seq(|s|, i requires 0 <= i < |s| => UpperChar(s[i]))
  }

  /** `name.split(' ').map(n => n[0]).join('').substring(0, 2).toUpperCase()` */
  function Initials(name: string): (r: string)
    ensures |r| <= 2
    ensures forall i :: 0 <= i < |r| ==> !('a' <= r[i] <= 'z')
    ensures var starts := WordStarts(name, true);
      |r| == (if |starts| < 2 then |starts| else 2)
      && forall i :: 0 <= i < |r| ==> r[i] == UpperChar(starts[i])
  {
    var chars := FirstChars(Split(name));
    FirstCharsAreWordStarts(name);
    Upper(if |chars| < 2 then chars else chars[..2])
  }

  /** A space-free word contributes its first character, when it starts a word, and nothing more. */
  lemma {:induction false} WordStartsWord(w: string, s: string, afterSpace: bool)
    requires w != [] && ' ' !in w
    ensures WordStarts(w + s, afterSpace) == (if afterSpace then [w[0]] else []) + WordStarts(s, false)
  {
    assert (w + s)[0] == w[0];
    assert (w + s)[1..] == w[1..] + s;
    if |w| > 1 {
      WordStartsWord(w[1..], s, false);
    } else {
      assert w[1..] + s == s;
    }
  }

  /** Two space-free words give their first letters, upper-cased: "John Doe" gives "JD". */
  lemma InitialsOfTwoWords(first: string, last: string)
    requires first != [] && ' ' !in first
    requires last != [] && ' ' !in last
    ensures Initials(first + " " + last) == [UpperChar(first[0]), UpperChar(last[0])]
  {
    WordStartsWord(last, [], true);
    assert last + [] == last;
    assert (" " + last)[0] == ' ' && (" " + last)[1..] == last;
    WordStartsWord(first, " " + last, true);
    assert first + " " + last == first + (" " + last);
    assert WordStarts(first + " " + last, true) == [first[0], last[0]];
  }

  // ---------------------------------------------------------------------------
  // The action

  /** What the upsert writes: the profile name for the user with that email. */
  datatype ProfileWrite = ProfileWrite(email: string, name: string)

  /** The upsert `updateUserProfile` issues, if its guard lets it through: both fields non-empty. */
  function ProfileUpsert(email: string, name: string): (w: Option<ProfileWrite>)
    ensures w.None? <==> email == [] || name == []
    ensures w.Some? ==> w.value == ProfileWrite(email, name)
  {
    if email == [] || name == [] then None else Some(ProfileWrite(email, name))
  }

  /** The reply of `updateUserProfile`: `{ success: true }` exactly when the upsert is issued. */
  function UpdateUserProfile(email: string, name: string): (r: Reply<()>)
    ensures r.Error? <==> email == [] || name == []
    ensures r.Error? ==> r.message == "Missing Data"
    ensures !r.Error? ==> r == Success
    ensures r == Success <==> ProfileUpsert(email, name).Some?
  {
    if email == [] || name == [] then Error("Missing Data") else Success
  }
}
