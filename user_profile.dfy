/** The account menu: the avatar initials and the name shown beside them. */
module UserProfile {
  import opened Wrappers

  /** `s.split(sep)` for a one-character separator: the pieces between separators, empty ones included. */
  function Split(s: string, sep: char): (parts: seq<string>)
    ensures |parts| >= 1
    ensures forall p :: p in parts ==> sep !in p
  {
    if s == [] then [""]
    else
      var rest := Split(s[1..], sep);
      if s[0] == sep then [""] + rest
      else [[s[0]] + rest[0]] + rest[1..]
  }

  /** A string without the separator is one piece. */
  lemma {:induction false} SplitWithoutSeparator(s: string, sep: char)
    requires sep !in s
    ensures Split(s, sep) == [s]
  {
    if s != [] {
      SplitWithoutSeparator(s[1..], sep);
      assert s == [s[0]] + s[1..];
    }
  }

  /** `parts.join(sep)`. */
  function Join(parts: seq<string>, sep: char): string
    requires |parts| >= 1
  {
    if |parts| == 1 then parts[0] else parts[0] + [sep] + Join(parts[1..], sep)
  }

  /** Joining the pieces with the separator gives the string back. */
  lemma {:induction false} SplitJoin(s: string, sep: char)
    ensures Join(Split(s, sep), sep) == s
  {
    if s != [] {
      var rest := Split(s[1..], sep);
      SplitJoin(s[1..], sep);
      if s[0] == sep {
        assert ([""] + rest)[1..] == rest;
        assert s == [sep] + s[1..];
      } else {
        var parts := [[s[0]] + rest[0]] + rest[1..];
        if |rest| == 1 {
          assert s == [s[0]] + rest[0];
        } else {
          assert parts[1..] == rest[1..];
          assert s == [s[0]] + (rest[0] + [sep] + Join(rest[1..], sep));
        }
      }
    }
  }

  /** `.map(n => n[0]).join('')`: each piece's first character; an empty piece's `undefined` joins as "". */
  function FirstChars(parts: seq<string>): string {
    if parts == [] then "" else (if parts[0] == "" then "" else [parts[0][0]]) + FirstChars(parts[1..])
  }

  /**
   * The reference reading of the initials: a left-to-right scan that keeps each non-space
   * character standing at the start or right after a space.
   */
  function WordStarts(s: string, afterSpace: bool): string {
    if s == [] then ""
    else (if s[0] != ' ' && afterSpace then [s[0]] else "") + WordStarts(s[1..], s[0] == ' ')
  }

  /** Taking the first character of every space-separated piece is the scan. */
  lemma {:induction false} FirstCharsAreWordStarts(s: string)
    ensures FirstChars(Split(s, ' ')) == WordStarts(s, true)
    ensures FirstChars(Split(s, ' ')[1..]) == WordStarts(s, false)
  {
    if s != [] {
      var rest := Split(s[1..], ' ');
      FirstCharsAreWordStarts(s[1..]);
      if s[0] == ' ' {
        assert Split(s, ' ') == [""] + rest;
        assert ([""] + rest)[1..] == rest;
      } else {
        var parts := [[s[0]] + rest[0]] + rest[1..];
        assert Split(s, ' ') == parts;
        assert parts[1..] == rest[1..];
      }
    }
  }

  /** ASCII `toUpperCase` of one character; other characters are left as they are. */
  function UpperChar(c: char): (u: char)
    ensures !('a' <= u <= 'z')
    ensures 'a' <= c <= 'z' ==> u as int == c as int - 32
    ensures !('a' <= c <= 'z') ==> u == c
  {
    if 'a' <= c <= 'z' then (c as int - 32) as char else c
  }

  function Upper(s: string): (r: string)
    ensures |r| == |s| && forall i :: 0 <= i < |s| ==> r[i] == UpperChar(s[i])
  {
    if s == [] then "" else [UpperChar(s[0])] + Upper(s[1..])
  }

  /** `.substring(0, 2)`. */
  function Take2(s: string): (r: string)
    ensures |r| <= 2 && r <= s
    ensures |s| >= 2 ==> |r| == 2
  {
    if |s| <= 2 then s else s[..2]
  }

  /** `getInitials`: "A" for a missing or empty name, else the upper-cased first two word initials. */
  function GetInitials(name: Option<string>): (r: string)
    ensures !Truthy(name) ==> r == "A"
    ensures |r| <= 2
    ensures forall i :: 0 <= i < |r| ==> !('a' <= r[i] <= 'z')
  {
    if !Truthy(name) then "A" else Upper(Take2(FirstChars(Split(name.value, ' '))))
  }

  /** For a non-empty name the initials are the first two word starts, upper-cased. */
  lemma InitialsAreWordStarts(name: string)
    requires name != ""
    ensures GetInitials(Some(name)) == Upper(Take2(WordStarts(name, true)))
  {
    FirstCharsAreWordStarts(name);
  }

  /** What the menu button shows: the avatar fallback and the name beside it (absent renders nothing). */
  datatype ProfileView = ProfileView(initials: string, shownName: Option<string>)

  /** Anonymous users are shown as "Anonymous"; others by their display name. */
  function Profile(isAnonymous: bool, displayName: Option<string>): (v: ProfileView)
    ensures isAnonymous ==> v == ProfileView("A", Some("Anonymous User"))
    ensures !isAnonymous ==> v.shownName == displayName
    ensures !isAnonymous ==> v.initials == GetInitials(displayName)
    ensures !isAnonymous && !Truthy(displayName) ==> v.initials == "A"
  {
    SplitWithoutSeparator("Anonymous", ' ');
    var initials := GetInitials(if isAnonymous then Some("Anonymous") else displayName);
    ProfileView(initials, if isAnonymous then Some("Anonymous User") else displayName)
  }
}
