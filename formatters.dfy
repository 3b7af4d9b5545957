/** Display formatters: cutting a text to a maximum length, the initials of a
    name, and the email format check. */
module Formatters {
  import opened Seqs
  import opened Text
  import Validation

  /** truncateText: the text itself when it fits, otherwise the part that
      slice(0, maxLength) keeps followed by "...". */
  function TruncateText(text: string, maxLength: int): (r: string)
    ensures |text| <= maxLength ==> r == text
    ensures |text| > maxLength ==>
              |r| == SliceEnd(|text|, maxLength) + 3 && r[..|r| - 3] <= text && r[|r| - 3..] == "..."
    ensures 0 <= maxLength < |text| ==> |r| == maxLength + 3 && r[..maxLength] == text[..maxLength]
  {
    if |text| <= maxLength then text
    else
      var kept := text[..SliceEnd(|text|, maxLength)];
      assert (kept + "...")[..|kept|] == kept;
      kept + "..."
  }

  /** name.split(' '): the pieces between single spaces, empty pieces included. */
  function SplitOnSpace(s: string): (parts: seq<string>)
    ensures |parts| >= 1
    ensures forall i :: 0 <= i < |parts| ==> ' ' !in parts[i]
  {
    if s == [] then [""]
    else
      var rest := SplitOnSpace(s[1..]);
      if s[0] == ' ' then [""] + rest
      else [[s[0]] + rest[0]] + rest[1..]
  }

  /** parts.join(' '). */
  function JoinWithSpace(parts: seq<string>): string
    requires |parts| >= 1
  {
    if |parts| == 1 then parts[0] else parts[0] + " " + JoinWithSpace(parts[1..])
  }

  /** Splitting on spaces and joining with spaces gives the text back. */
  lemma {:induction false} SplitJoin(s: string)
    ensures JoinWithSpace(SplitOnSpace(s)) == s
  {
    if s != [] {
      var rest := SplitOnSpace(s[1..]);
      SplitJoin(s[1..]);
      if s[0] == ' ' {
        assert SplitOnSpace(s)[1..] == rest;
      } else {
        var parts := SplitOnSpace(s);
        assert parts[1..] == rest[1..];
        if |rest| == 1 {
          assert JoinWithSpace(parts) == [s[0]] + s[1..];
        } else {
          assert JoinWithSpace(rest) == rest[0] + " " + JoinWithSpace(rest[1..]);
          assert JoinWithSpace(parts) == ([s[0]] + rest[0]) + " " + JoinWithSpace(rest[1..]);
          assert JoinWithSpace(parts) == [s[0]] + JoinWithSpace(rest);
        }
        assert [s[0]] + s[1..] == s;
      }
    }
  }

  /** A space in the text splits it into the pieces of either side. */
  lemma {:induction false} SplitAppend(a: string, b: string)
    ensures SplitOnSpace(a + " " + b) == SplitOnSpace(a) + SplitOnSpace(b)
  {
    var s := a + " " + b;
    if a == [] {
      assert s[1..] == b;
    } else {
      assert s[1..] == a[1..] + " " + b;
      SplitAppend(a[1..], b);
    }
  }

  /** A text without spaces is a single piece. */
  lemma {:induction false} SplitWord(w: string)
    requires ' ' !in w
    ensures SplitOnSpace(w) == [w]
  {
    if w != [] {
      SplitWord(w[1..]);
      assert [w[0]] + w[1..] == w;
    }
  }

  /** .map(n => n[0]).join(''): the first character of every piece; an empty
      piece gives undefined, which join turns into nothing. */
  function FirstChars(parts: seq<string>): (r: string)
    ensures |r| <= |parts|
  {
    if parts == [] then ""
    else (if parts[0] == "" then "" else [parts[0][0]]) + FirstChars(parts[1..])
  }

  lemma {:induction false} FirstCharsAppend(p: seq<string>, q: seq<string>)
    ensures FirstChars(p + q) == FirstChars(p) + FirstChars(q)
  {
    if p != [] {
      assert (p + q)[1..] == p[1..] + q;
      FirstCharsAppend(p[1..], q);
    } else {
      assert p + q == q;
    }
  }

  /** getInitials. */
  function GetInitials(name: string): (r: string)
    ensures |r| <= |SplitOnSpace(name)|
    ensures forall i :: 0 <= i < |r| ==> !IsLowerAscii(r[i])
  {
    Upper(FirstChars(SplitOnSpace(name)))
  }

  /** The initials of two names joined by a space are the initials of each. */
  lemma InitialsAppend(a: string, b: string)
    ensures GetInitials(a + " " + b) == GetInitials(a) + GetInitials(b)
  {
    SplitAppend(a, b);
    FirstCharsAppend(SplitOnSpace(a), SplitOnSpace(b));
    UpperAppend(FirstChars(SplitOnSpace(a)), FirstChars(SplitOnSpace(b)));
  }

  /** A word gives its upper-cased first character; an empty piece (from a
      leading, trailing or repeated space) gives nothing. */
  lemma InitialsOfWord(w: string)
    requires ' ' !in w
    ensures w == "" ==> GetInitials(w) == ""
    ensures w != "" ==> GetInitials(w) == [UpperChar(w[0])]
  {
    SplitWord(w);
  }

  /** validateEmail: the same regular expression as the form validators use. */
  function ValidateEmail(email: string): (b: bool)
    ensures b <==> Validation.EmailShape(email)
  {
    Validation.EmailRegexShape(email);
    Validation.ValidateEmail(email)
  }
}
