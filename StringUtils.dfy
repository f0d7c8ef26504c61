/**
 * `capitalize` and `capitalizeWords` of libs/utils/src/stringUtils.ts, with
 * `split(' ')` and `join(' ')` written out.
 */
module StringUtils {
  import opened Ascii

  /** `word.charAt(0).toUpperCase() + word.slice(1)`, and `''` for the empty word. */
  function Capitalize(word: string): (r: string)
    ensures |r| == |word|
    ensures word == "" ==> r == ""
    ensures word != "" ==> r[0] == UpperChar(word[0]) && r[1..] == word[1..]
  {
    if word == "" then "" else [UpperChar(word[0])] + word[1..]
  }

  /** Capitalising twice is capitalising once. */
  lemma CapitalizeIdempotent(word: string)
    ensures Capitalize(Capitalize(word)) == Capitalize(word)
  {
  }

  /** `s.split(' ')`: the pieces between spaces, empty ones included; always at least one. */
  function Split(s: string): (parts: seq<string>)
    ensures |parts| >= 1
    ensures forall k, i :: 0 <= k < |parts| && 0 <= i < |parts[k]| ==> parts[k][i] != ' '
    decreases |s|
  {
    if s == [] then [""]
    else if s[0] == ' ' then [""] + Split(s[1..])
    else
      var rest := Split(s[1..]);
      [[s[0]] + rest[0]] + rest[1..]
  }

  /** The summed lengths of the pieces. */
  function TotalLength(parts: seq<string>): nat
  {
    if parts == [] then 0 else |parts[0]| + TotalLength(parts[1..])
  }

  /** `parts.join(' ')`: the pieces with one space between each two. */
  function Join(parts: seq<string>): (r: string)
    requires |parts| >= 1
    ensures |r| == TotalLength(parts) + |parts| - 1
    decreases |parts|
  {
    if |parts| == 1 then parts[0] else parts[0] + " " + Join(parts[1..])
  }

  /** Joining what was split gives the string back. */
  lemma {:induction false} JoinSplit(s: string)
    ensures Join(Split(s)) == s
    decreases |s|
  {
    if s == [] {
    } else if s[0] == ' ' {
      JoinSplit(s[1..]);
      assert ([""] + Split(s[1..]))[1..] == Split(s[1..]);
    } else {
      var rest := Split(s[1..]);
      JoinSplit(s[1..]);
      JoinConsFirst(s[0], rest);
    }
  }

  /** Prefixing the first piece with a character prefixes the joined string with it. */
  lemma {:induction false} JoinConsFirst(c: char, parts: seq<string>)
    requires |parts| >= 1
    ensures Join([[c] + parts[0]] + parts[1..]) == [c] + Join(parts)
  {
    var q := [[c] + parts[0]] + parts[1..];
    assert q[1..] == parts[1..];
  }

  /** `word => capitalize(word)` over all pieces. */
  function MapCapitalize(parts: seq<string>): (r: seq<string>)
    ensures |r| == |parts|
    ensures forall k :: 0 <= k < |parts| ==> r[k] == Capitalize(parts[k])
  {
    seq(|parts|, k requires 0 <= k < |parts| => Capitalize(parts[k]))
  }

  /** `sentence.split(' ').map(word => capitalize(word)).join(' ')`, and `''` for the empty sentence. */
  function CapitalizeWords(sentence: string): (r: string)
    ensures |r| == |sentence|
  {
    if sentence == "" then ""
    else
      var parts := Split(sentence);
      JoinCapitalizedSplit(sentence, true);
      assert [Capitalize(parts[0])] + MapCapitalize(parts[1..]) == MapCapitalize(parts);
      Join(MapCapitalize(parts))
  }

  /**
   * The reference reading of `capitalizeWords`: walk the string and upper-case
   * each character that starts a segment (the first one, and each one right
   * after a space). `atStart` says whether the next character starts one.
   */
  function CapitalizeFrom(s: string, atStart: bool): (r: string)
    ensures |r| == |s|
    decreases |s|
  {
    if s == [] then []
    else [if atStart then UpperChar(s[0]) else s[0]] + CapitalizeFrom(s[1..], s[0] == ' ')
  }

  /** The pieces joined after capitalising all but (when `!capFirst`) the first. */
  function JoinCapitalized(parts: seq<string>, capFirst: bool): string
    requires |parts| >= 1
  {
    Join([if capFirst then Capitalize(parts[0]) else parts[0]] + MapCapitalize(parts[1..]))
  }

  lemma {:induction false} JoinCapitalizedSplit(s: string, capFirst: bool)
    ensures JoinCapitalized(Split(s), capFirst) == CapitalizeFrom(s, capFirst)
    decreases |s|
  {
    if s == [] {
    } else if s[0] == ' ' {
      var rest := Split(s[1..]);
      var parts := [""] + rest;
      assert Split(s) == parts;
      assert parts[1..] == rest;
      var tail := MapCapitalize(rest);
      assert MapCapitalize(parts[1..]) == tail;
      assert [Capitalize(rest[0])] + MapCapitalize(rest[1..]) == tail;
      var q := [""] + tail;
      assert q[1..] == tail;
      assert JoinCapitalized(parts, capFirst) == " " + Join(tail);
      JoinCapitalizedSplit(s[1..], true);
    } else {
      var rest := Split(s[1..]);
      var first := [s[0]] + rest[0];
      assert Split(s) == [first] + rest[1..];
      var c := if capFirst then UpperChar(s[0]) else s[0];
      assert (if capFirst then Capitalize(first) else first) == [c] + rest[0];
      var tail := MapCapitalize(rest[1..]);
      assert ([first] + rest[1..])[1..] == rest[1..];
      assert JoinCapitalized(Split(s), capFirst) == Join([[c] + rest[0]] + tail);
      JoinConsFirst(c, [rest[0]] + tail);
      assert ([rest[0]] + tail)[1..] == tail;
      assert JoinCapitalized(rest, false) == Join([rest[0]] + tail);
      JoinCapitalizedSplit(s[1..], false);
    }
  }

  /** `capitalizeWords` is the reference walk started at the beginning of a segment. */
  lemma CapitalizeWordsIsCapitalizeFrom(s: string)
    ensures CapitalizeWords(s) == CapitalizeFrom(s, true)
  {
    if s != "" {
      JoinCapitalizedSplit(s, true);
      var parts := Split(s);
      assert [Capitalize(parts[0])] + MapCapitalize(parts[1..]) == MapCapitalize(parts);
    }
  }

  /** The walk upper-cases exactly the characters that start a segment and copies the rest. */
  lemma {:induction false} CapitalizeFromAt(s: string, atStart: bool, i: nat)
    requires i < |s|
    ensures CapitalizeFrom(s, atStart)[i] ==
      if (if i == 0 then atStart else s[i - 1] == ' ') then UpperChar(s[i]) else s[i]
    decreases |s|
  {
    if i > 0 {
      CapitalizeFromAt(s[1..], s[0] == ' ', i - 1);
    }
  }

  /**
   * `capitalizeWords` keeps the length and every space, upper-cases the first
   * character of every space-separated segment and leaves all others alone.
   */
  lemma CapitalizeWordsAt(s: string)
    ensures |CapitalizeWords(s)| == |s|
    ensures forall i :: 0 <= i < |s| ==>
      CapitalizeWords(s)[i] == if i == 0 || s[i - 1] == ' ' then UpperChar(s[i]) else s[i]
    ensures forall i :: 0 <= i < |s| ==> (CapitalizeWords(s)[i] == ' ' <==> s[i] == ' ')
  {
    CapitalizeWordsIsCapitalizeFrom(s);
    forall i | 0 <= i < |s|
      ensures CapitalizeWords(s)[i] == if i == 0 || s[i - 1] == ' ' then UpperChar(s[i]) else s[i]
      ensures CapitalizeWords(s)[i] == ' ' <==> s[i] == ' '
    {
      CapitalizeFromAt(s, true, i);
      assert UpperChar(s[i]) == ' ' <==> s[i] == ' ';
    }
  }

  /** Without spaces the sentence is one word, and `capitalizeWords` is `capitalize`. */
  lemma CapitalizeWordsOneWord(s: string)
    requires forall i :: 0 <= i < |s| ==> s[i] != ' '
    ensures CapitalizeWords(s) == Capitalize(s)
  {
    CapitalizeWordsAt(s);
    if s != "" {
      forall i | 1 <= i < |s|
        ensures CapitalizeWords(s)[i] == s[i]
      {
        assert s[i - 1] != ' ';
      }
      assert CapitalizeWords(s)[1..] == s[1..];
    }
  }
}
