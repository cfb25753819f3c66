/**
 * What an avatar shows when it has no image (src/components/common/CustomAvatar.tsx):
 * the caller's fallback if it is truthy, otherwise initials computed from the
 * alt text, which defaults to "User Avatar".
 */
module Avatar {
  import opened Wrappers

  const DefaultAlt: string := "User Avatar"

  /** What the avatar's fallback slot renders. */
  datatype FallbackContent = UserIcon | TextContent(text: string) | NodeContent

  /** The `fallback` property: a string or some other (non-null) rendered node. */
  datatype FallbackProp = FallbackText(text: string) | FallbackNode

  /** Upper-casing of one character, for ASCII letters. */
  function UpperChar(c: char): char {
    if 'a' <= c <= 'z' then (c as int - 'a' as int + 'A' as int) as char else c
  }

  /** `w.charAt(0).toUpperCase()`: empty for an empty word. */
  function FirstCharUpper(w: string): (r: string)
    ensures w == [] <==> r == []
    ensures w != [] ==> r == [UpperChar(w[0])]
  {
    if w == [] then [] else [UpperChar(w[0])]
  }

  /** `parts.join(' ')` */
  function Join(parts: seq<string>): string
    requires |parts| >= 1
  {
    if |parts| == 1 then parts[0] else parts[0] + " " + Join(parts[1..])
  }

  predicate NoSpace(w: string) {
    forall i :: 0 <= i < |w| ==> w[i] != ' '
  }

  /**
   * `s.split(' ')`: the pieces between single spaces, empty pieces included
   * ("John " gives "John" and "").
   */
  function Split(s: string): (parts: seq<string>)
    ensures |parts| >= 1
    ensures forall k :: 0 <= k < |parts| ==> NoSpace(parts[k])
    ensures Join(parts) == s
  {
    if s == [] then [""]
    else
      var rest := Split(s[1..]);
      if s[0] == ' ' then
        assert s == " " + Join(rest);
        [""] + rest
      else
        var parts := [[s[0]] + rest[0]] + rest[1..];
        assert parts[1..] == rest[1..];
        assert s == [s[0]] + s[1..];
        parts
  }

  /** A word without spaces followed by a space starts a new piece. */
  lemma {:induction false} SplitAfterWord(w: string, rest: string)
    requires NoSpace(w)
    ensures Split(w + " " + rest) == [w] + Split(rest)
    decreases |w|
  {
    if w == [] {
      assert w + " " + rest == " " + rest;
      assert (" " + rest)[1..] == rest;
    } else {
      var s := w + " " + rest;
      assert s[1..] == w[1..] + " " + rest;
      SplitAfterWord(w[1..], rest);
      assert [w[0]] + w[1..] == w;
    }
  }

  /** A word without spaces is one piece. */
  lemma {:induction false} SplitOneWord(w: string)
    requires NoSpace(w)
    ensures Split(w) == [w]
    decreases |w|
  {
    if w != [] {
      SplitOneWord(w[1..]);
      assert [w[0]] + w[1..] == w;
    }
  }

  /** Split undoes Join: a text determines its space-free pieces. */
  lemma {:induction false} SplitJoin(parts: seq<string>)
    requires |parts| >= 1
    requires forall k :: 0 <= k < |parts| ==> NoSpace(parts[k])
    ensures Split(Join(parts)) == parts
    decreases |parts|
  {
    if |parts| == 1 {
      SplitOneWord(parts[0]);
    } else {
      SplitJoin(parts[1..]);
      SplitAfterWord(parts[0], Join(parts[1..]));
      assert parts == [parts[0]] + parts[1..];
    }
  }

  /** `getInitials(name)` */
  function Initials(name: Option<string>): (r: FallbackContent)
    ensures r.UserIcon? <==> name.None? || name.value == ""
    ensures r != NodeContent
    ensures r.TextContent? ==> |r.text| <= 2
    ensures r.TextContent? && NoSpace(name.value) ==> r.text == [UpperChar(name.value[0])]
  {
    if name.None? || name.value == "" then UserIcon
    else
      var names := Split(name.value);
      SplitOneWordIfNoSpace(name.value);
      if |names| == 1 then
        TextContent(FirstCharUpper(names[0]))
      else TextContent(FirstCharUpper(names[0]) + FirstCharUpper(names[|names| - 1]))
  }

  lemma SplitOneWordIfNoSpace(s: string)
    ensures NoSpace(s) ==> Split(s) == [s]
  {
    if NoSpace(s) {
      SplitOneWord(s);
    }
  }

  /**
   * Words separated by single spaces give the upper-cased first letter of the
   * first word and of the last word.
   */
  lemma InitialsOfWords(words: seq<string>)
    requires |words| >= 2
    requires forall k :: 0 <= k < |words| ==> NoSpace(words[k])
    ensures Initials(Some(Join(words))) ==
              TextContent(FirstCharUpper(words[0]) + FirstCharUpper(words[|words| - 1]))
  {
    SplitJoin(words);
    assert Join(words) != "" by {
      assert Join(words) == words[0] + " " + Join(words[1..]);
    }
  }

  /** Two lists of words with the same first and the same last word give the same initials. */
  lemma SameEndsSameInitials(long: seq<string>, short: seq<string>)
    requires |long| >= 2 && |short| >= 2
    requires forall k :: 0 <= k < |long| ==> NoSpace(long[k])
    requires forall k :: 0 <= k < |short| ==> NoSpace(short[k])
    requires long[0] == short[0] && long[|long| - 1] == short[|short| - 1]
    ensures Initials(Some(Join(long))) == Initials(Some(Join(short)))
  {
    InitialsOfWords(long);
    InitialsOfWords(short);
  }

  /** Only the first and last words count: inserting middle words changes nothing. */
  lemma InitialsIgnoreMiddleWords(first: string, middle: seq<string>, last: string)
    requires NoSpace(first) && NoSpace(last)
    requires forall k :: 0 <= k < |middle| ==> NoSpace(middle[k])
    ensures Initials(Some(Join([first] + middle + [last]))) == Initials(Some(Join([first, last])))
  {
    var long := [first] + middle + [last];
    WordsAround(first, middle, last);
    SameEndsSameInitials(long, [first, last]);
  }

  /** The words of `[first] + middle + [last]`: at least two, none with a space. */
  lemma WordsAround(first: string, middle: seq<string>, last: string)
    requires NoSpace(first) && NoSpace(last)
    requires forall k :: 0 <= k < |middle| ==> NoSpace(middle[k])
    ensures var words := [first] + middle + [last];
            |words| >= 2 && words[0] == first && words[|words| - 1] == last &&
            forall k :: 0 <= k < |words| ==> NoSpace(words[k])
  {
    var words := [first] + middle + [last];
    forall k | 0 <= k < |words| ensures NoSpace(words[k]) {
      if 0 < k < |words| - 1 {
        assert words[k] == middle[k - 1];
      }
    }
  }

  /** A trailing space leaves an empty last word, which adds nothing: "John " gives "J", as "John" does. */
  lemma TrailingSpaceAddsNothing(w: string)
    requires w != "" && NoSpace(w)
    ensures Initials(Some(w + " ")) == Initials(Some(w))
  {
    var words := [w, ""];
    assert NoSpace(words[1]);
    InitialsOfWords(words);
    assert Join(words) == w + " " by {
      assert Join(words) == words[0] + " " + Join(words[1..]);
    }
  }

  /** Two words give the upper-cased first letter of each. */
  lemma InitialsOfTwoWords(first: string, last: string)
    requires first != "" && last != "" && NoSpace(first) && NoSpace(last)
    ensures Initials(Some(first + " " + last)) == TextContent([UpperChar(first[0]), UpperChar(last[0])])
  {
    var words := [first, last];
    InitialsOfWords(words);
    assert Join(words) == first + " " + last by {
      assert Join(words) == words[0] + " " + Join(words[1..]);
    }
  }

  /** The default alt text "User Avatar" gives "UA". */
  lemma DefaultAltInitials()
    ensures Initials(Some(DefaultAlt)) == TextContent("UA")
  {
    var first, last := "User", "Avatar";
    assert NoSpace(first) && NoSpace(last);
    InitialsOfTwoWords(first, last);
    assert first + " " + last == DefaultAlt;
  }

  /** `fallback || getInitials(alt)`, with `alt` defaulting to "User Avatar". */
  function AvatarFallback(fallback: Option<FallbackProp>, alt: Option<string>): (r: FallbackContent)
    ensures fallback == Some(FallbackNode) ==> r == NodeContent
    ensures fallback.Some? && fallback.value.FallbackText? && fallback.value.text != "" ==>
              r == TextContent(fallback.value.text)
    ensures (fallback.None? || fallback == Some(FallbackText(""))) && alt.None? ==> r == TextContent("UA")
    ensures (fallback.None? || fallback == Some(FallbackText(""))) && alt.Some? ==> r == Initials(alt)
  {
    if fallback == Some(FallbackNode) then NodeContent
    else if fallback.Some? && fallback.value.text != "" then TextContent(fallback.value.text)
    else
      var name := alt.GetOr(DefaultAlt);
      if alt.None? then
        DefaultAltInitials();
        Initials(Some(name))
      else Initials(Some(name))
  }
}
