/**
 * The round avatar used across the client: the photo when there is one,
 * else up to two initials, with an optional online dot and a size that is
 * either a pixel count or one of the named classes.
 */
module Avatar {
  import opened Common
  import opened Text

  /** The `size` prop: a pixel count or a named size ('sm', 'md', 'lg', ...). */
  datatype Size = Pixels(px: nat) | Named(name: string)

  /** What one avatar renders. */
  datatype AvatarView = AvatarView(sizeClass: string, image: Option<string>, initials: Option<string>, onlineDot: bool)

  const ServerOrigin: string := "http://localhost:5000"
  const NoName: string := "?"
  /** The default size, which carries no class of its own. */
  const DefaultSize: string := "md"

  /** The first character of every non-empty piece (`n[0]` of an empty piece joins as nothing). */
  function Heads(pieces: seq<string>): (r: string)
    ensures |r| <= |pieces|
  {
    if pieces == [] then []
    else (if pieces[0] != [] then [pieces[0][0]] else []) + Heads(pieces[1..])
  }

  /**
   * An independent reading of the same characters: each non-space
   * character that starts a word, that is, comes first or after a space.
   * `atStart` says whether the previous character was a space (or there
   * was none).
   */
  function WordStarts(s: string, atStart: bool): (r: string)
    ensures |r| <= |s|
  {
    if s == [] then []
    else if s[0] == ' ' then WordStarts(s[1..], true)
    else (if atStart then [s[0]] else []) + WordStarts(s[1..], false)
  }

  /** Taking first characters of the space-separated pieces picks exactly the word starts. */
  lemma {:induction false} HeadsOfSplit(s: string)
    ensures Heads(Split(s, ' ')) == WordStarts(s, true)
    ensures Heads(Split(s, ' ')[1..]) == WordStarts(s, false)
    decreases |s|
  {
    if s == [] {
      assert Split(s, ' ') == [[]];
    } else if s[0] == ' ' {
      HeadsOfSplit(s[1..]);
      var rest := Split(s[1..], ' ');
      assert Split(s, ' ') == [[]] + rest;
      assert ([[]] + rest)[1..] == rest;
    } else {
      HeadsOfSplit(s[1..]);
      var rest := Split(s[1..], ' ');
      var pieces := [[s[0]] + rest[0]] + rest[1..];
      assert Split(s, ' ') == pieces;
      assert pieces[1..] == rest[1..];
    }
  }

  /** With no character before it, a string has no word start exactly when it is all spaces. */
  lemma {:induction false} NoWordStartsIffSpaces(s: string)
    ensures WordStarts(s, true) == [] <==> forall i :: 0 <= i < |s| ==> s[i] == ' '
    decreases |s|
  {
    if s != [] && s[0] == ' ' {
      NoWordStartsIffSpaces(s[1..]);
      assert forall i :: 1 <= i < |s| ==> s[i] == s[1..][i - 1];
    }
  }

  /** A word without spaces followed by anything adds no word start of its own after its first character. */
  lemma {:induction false} InsideWord(w: string, rest: string)
    requires ' ' !in w
    ensures WordStarts(w + rest, false) == WordStarts(rest, false)
    decreases |w|
  {
    if w != [] {
      assert (w + rest)[0] == w[0] && w[0] != ' ';
      assert (w + rest)[1..] == w[1..] + rest;
      assert ' ' !in w[1..] by {
        forall i | 0 <= i < |w[1..]| ensures w[1..][i] != ' ' {
          assert w[1..][i] == w[i + 1];
        }
      }
      InsideWord(w[1..], rest);
      assert WordStarts(w + rest, false) == [] + WordStarts(w[1..] + rest, false);
    } else {
      assert w + rest == rest;
    }
  }

  /** `getInitials`: '?' for no name; otherwise the first two word starts, upper-cased. */
  function Initials(name: Option<string>): (r: string)
    ensures name.None? || name.value == "" ==> r == NoName
    ensures |r| <= 2
    ensures name.Some? && name.value != "" ==> r == Upper(Take2(Heads(Split(name.value, ' '))))
  {
    if name.None? || name.value == "" then NoName
    else Upper(Take2(Heads(Split(name.value, ' '))))
  }

  /** `s.substring(0, 2)`. */
  function Take2(s: string): (r: string)
    ensures |r| == if |s| < 2 then |s| else 2
    ensures r == s[..|r|]
  {
    if |s| < 2 then s else s[..2]
  }

  /** A word without spaces, followed by anything, starts a word with its first character and no other. */
  lemma WordThenRest(w: string, rest: string)
    requires w != "" && ' ' !in w
    ensures WordStarts(w + rest, true) == [w[0]] + WordStarts(rest, false)
  {
    assert (w + rest)[0] == w[0] && (w + rest)[1..] == w[1..] + rest;
    assert ' ' !in w[1..] by {
      forall i | 0 <= i < |w[1..]| ensures w[1..][i] != ' ' {
        assert w[1..][i] == w[i + 1];
      }
    }
    InsideWord(w[1..], rest);
  }

  /** Two words separated by one space start words at their first characters only. */
  lemma TwoWordStarts(first: string, last: string)
    requires first != "" && last != "" && ' ' !in first && ' ' !in last
    ensures WordStarts(first + " " + last, true) == [first[0], last[0]]
  {
    assert first + " " + last == first + (" " + last);
    WordThenRest(first, " " + last);
    assert (" " + last)[0] == ' ' && (" " + last)[1..] == last;
    WordThenRest(last, []);
    assert last + [] == last;
  }

  /** A two-word name gives the two words' first letters. */
  lemma TwoWordInitials(first: string, last: string)
    requires first != "" && last != "" && ' ' !in first && ' ' !in last
    ensures Initials(Some(first + " " + last)) == [UpperChar(first[0]), UpperChar(last[0])]
  {
    HeadsOfSplit(first + " " + last);
    TwoWordStarts(first, last);
  }

  /** The initials are empty exactly when a non-empty name is nothing but spaces. */
  lemma BlankNameHasNoInitials(name: string)
    requires name != ""
    ensures Initials(Some(name)) == "" <==> forall i :: 0 <= i < |name| ==> name[i] == ' '
  {
    HeadsOfSplit(name);
    NoWordStartsIffSpaces(name);
  }

  /** The size class: none for a pixel size or the default size, `avatar--<size>` otherwise. */
  function SizeClass(size: Size): (r: string)
    ensures size.Pixels? || size.name == DefaultSize ==> r == ""
    ensures size.Named? && size.name != DefaultSize ==> r == "avatar--" + size.name
  {
    if size.Pixels? || size.name == DefaultSize then "" else "avatar--" + size.name
  }

  /** A size class names its size: two sizes with the same non-empty class are the same size. */
  lemma SizeClassDeterminesSize(a: Size, b: Size)
    requires SizeClass(a) != "" && SizeClass(a) == SizeClass(b)
    ensures a == b
  {
    assert a.name == SizeClass(a)[8..];
    assert b.name == SizeClass(b)[8..];
  }

  /** The image source: a full URL as it is, a server path behind the server's origin. */
  function Src(avatar: string): (r: string)
    ensures StartsWith(avatar, "http") ==> r == avatar
    ensures !StartsWith(avatar, "http") ==> r == ServerOrigin + avatar
    ensures StartsWith(r, "http")
  {
    if StartsWith(avatar, "http") then avatar else ServerOrigin + avatar
  }

  /** Resolving a source twice is resolving it once. */
  lemma SrcIdempotent(avatar: string)
    ensures Src(Src(avatar)) == Src(avatar)
  {
  }

  /** The placeholder's font size for a pixel size: 40% of it, at least 12. */
  function FontSize(px: nat): (r: real)
    ensures r >= 12.0 && r >= px as real * 0.4
    ensures r == 12.0 || r == px as real * 0.4
  {
    if px as real * 0.4 > 12.0 then px as real * 0.4 else 12.0
  }

  /** The avatar: the photo when there is one, else the initials, and the dot exactly when online. */
  function Render(name: Option<string>, avatar: Option<string>, isOnline: bool, size: Size): (r: AvatarView)
    ensures r.sizeClass == SizeClass(size) && r.onlineDot == isOnline
    ensures r.image.Some? <==> avatar.Some? && avatar.value != ""
    ensures r.image.Some? ==> r.image.value == Src(avatar.value) && r.initials.None?
    ensures r.image.None? ==> r.initials == Some(Initials(name))
  {
    if avatar.Some? && avatar.value != "" then AvatarView(SizeClass(size), Some(Src(avatar.value)), None, isOnline)
    else AvatarView(SizeClass(size), None, Some(Initials(name)), isOnline)
  }
}
