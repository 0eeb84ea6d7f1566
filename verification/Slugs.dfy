/** The two slug functions, which must agree. */
module Slugs {
  import opened Text

  predicate IsSlugChar(c: char) {
    'a' <= c <= 'z' || '0' <= c <= '9'
  }

  predicate IsOther(c: char) {
    !IsSlugChar(c)
  }

  predicate IsDash(c: char) {
    c == '-'
  }

  /** How many characters at the start belong to the class. */
  function RunLength(s: string, cls: char -> bool): (n: nat)
    ensures n <= |s| && (forall i | 0 <= i < n :: cls(s[i])) && (n < |s| ==> !cls(s[n]))
  {
    if s != [] && cls(s[0]) then 1 + RunLength(s[1..], cls) else 0
  }

  /** Replacing every match of a class repeated once or more by one dash. */
  function ReplaceRuns(s: string, cls: char -> bool): string
    decreases |s|
  {
    if s == [] then []
    else if cls(s[0]) then "-" + ReplaceRuns(s[RunLength(s, cls)..], cls)
    else [s[0]] + ReplaceRuns(s[1..], cls)
  }

  function OrDefault(s: string): string {
    if s == "" then "org" else s
  }

  /** The form used at registration: replace, collapse, trim. */
  function Slugify(name: string, lower: char -> char): string {
    var s := ToLower(TrimSpace(name), lower);
    var replaced := ReplaceRuns(s, IsOther);
    var collapsed := ReplaceRuns(replaced, IsDash);
    OrDefault(Trim(collapsed, IsDash))
  }

  /** What the loop below still writes, given whether it has just written a dash. */
  function Emit(s: string, prevDash: bool): string {
    if s == [] then []
    else if IsSlugChar(s[0]) then [s[0]] + Emit(s[1..], false)
    else if prevDash then Emit(s[1..], true)
    else "-" + Emit(s[1..], true)
  }

  /** One pass over the characters, with a flag that keeps dashes apart. */
  method Dashed(s: string) returns (b: string)
    ensures b == Emit(s, false)
  {
    b := "";
    var prevDash := false;
    for i := 0 to |s|
      invariant b + Emit(s[i..], prevDash) == Emit(s, false)
    {
      var r := s[i];
      EmitStep(b, s, i, prevDash);
      if IsSlugChar(r) {
        b := b + [r];
        prevDash := false;
      } else if !prevDash {
        b := b + "-";
        prevDash := true;
      }
    }
  }

  lemma EmitStep(b: string, s: string, i: nat, prevDash: bool)
    requires i < |s|
    ensures b + Emit(s[i..], prevDash)
         == (if IsSlugChar(s[i]) then b + [s[i]] else if prevDash then b else b + "-") + Emit(s[i + 1..], !IsSlugChar(s[i]))
  {
    assert s[i..][0] == s[i] && s[i..][1..] == s[i + 1..];
  }

  /** The form used for organizations gives the same slug for every name. */
  method SlugifyOrganization(name: string, lower: char -> char) returns (slug: string)
    ensures slug == Slugify(name, lower)
  {
    var s := ToLower(TrimSpace(name), lower);
    var b := Dashed(s);
    FormsAgree(s);
    slug := OrDefault(Trim(b, IsDash));
  }

  // ---- The forms agree ----

  lemma {:induction false} EmitReplaces(s: string)
    ensures Emit(s, false) == ReplaceRuns(s, IsOther)
    ensures Emit(s, true) == ReplaceRuns(s[RunLength(s, IsOther)..], IsOther)
  {
    if s != [] {
      EmitReplaces(s[1..]);
      if IsOther(s[0]) {
        assert s[RunLength(s, IsOther)..] == s[1..][RunLength(s[1..], IsOther)..];
      } else {
        assert s[RunLength(s, IsOther)..] == s;
      }
    }
  }

  predicate NoDoubleDash(s: string) {
    forall i, j | 0 <= i < |s| && 0 <= j < |s| && j == i + 1 :: s[i] != '-' || s[j] != '-'
  }

  lemma {:induction false} EmitHasNoDoubleDash(s: string, prevDash: bool)
    ensures NoDoubleDash(Emit(s, prevDash))
    ensures prevDash && Emit(s, prevDash) != [] ==> Emit(s, prevDash)[0] != '-'
    ensures forall c | c in Emit(s, prevDash) :: IsSlugChar(c) || c == '-'
  {
    if s != [] {
      EmitHasNoDoubleDash(s[1..], prevDash := false);
      EmitHasNoDoubleDash(s[1..], prevDash := true);
    }
  }

  /** Where the only characters of the class are lone dashes, replacing changes nothing. */
  lemma {:induction false} ReplaceNothing(s: string, cls: char -> bool)
    requires NoDoubleDash(s) && (forall c | c in s :: cls(c) <==> c == '-')
    ensures ReplaceRuns(s, cls) == s
  {
    if s != [] {
      assert NoDoubleDash(s[1..]);
      ReplaceNothing(s[1..], cls);
      if cls(s[0]) {
        assert s[0] == '-';
        assert RunLength(s, cls) == 1 by {
          assert |s| > 1 ==> s[1] != '-';
        }
      }
    }
  }

  lemma FormsAgree(s: string)
    ensures Emit(s, false) == ReplaceRuns(ReplaceRuns(s, IsOther), IsDash)
  {
    EmitReplaces(s);
    EmitHasNoDoubleDash(s, false);
    ReplaceNothing(Emit(s, false), IsDash);
  }

  // ---- What a slug is ----

  /** The maximal runs of letters and digits. */
  function Words(s: string): seq<string>
    decreases |s|
  {
    if s == [] then []
    else if IsOther(s[0]) then Words(s[1..])
    else
      var n := RunLength(s, IsSlugChar);
      [s[..n]] + Words(s[n..])
  }

  function Join(words: seq<string>): string {
    if words == [] then ""
    else if |words| == 1 then words[0]
    else words[0] + "-" + Join(words[1..])
  }

  lemma {:induction false} WordsAreWords(s: string)
    ensures forall w | w in Words(s) :: w != "" && forall c | c in w :: IsSlugChar(c)
    decreases |s|
  {
    if s != [] {
      if IsOther(s[0]) {
        WordsAreWords(s[1..]);
      } else {
        WordsAreWords(s[RunLength(s, IsSlugChar)..]);
      }
    }
  }

  lemma {:induction false} EmitWord(s: string, prevDash: bool, n: nat)
    requires n <= |s| && (forall i | 0 <= i < n :: IsSlugChar(s[i]))
    ensures Emit(s, prevDash) == s[..n] + Emit(s[n..], if n == 0 then prevDash else false)
  {
    if n > 0 {
      EmitWord(s[1..], false, n - 1);
      assert s[..n] == [s[0]] + s[1..][..n - 1];
      assert s[n..] == s[1..][n - 1..];
    }
  }

  lemma {:induction false} TrimRightAppend(a: string, b: string)
    ensures TrimRight(a + b, IsDash) == if TrimRight(b, IsDash) == "" then TrimRight(a, IsDash) else a + TrimRight(b, IsDash)
  {
    if b == [] {
      assert a + b == a;
    } else {
      var last := |b| - 1;
      if IsDash(b[last]) {
        assert (a + b)[..|a + b| - 1] == a + b[..last];
        TrimRightAppend(a, b[..last]);
      } else {
        assert (a + b)[|a + b| - 1] == b[last];
      }
    }
  }

  /** Once a dash is behind, what is written and then trimmed is the words joined by dashes. */
  lemma {:induction false} EmitJoinsWords(s: string)
    ensures TrimRight(Emit(s, true), IsDash) == Join(Words(s))
    decreases |s|
  {
    if s != [] {
      if IsOther(s[0]) {
        EmitJoinsWords(s[1..]);
      } else {
        var n := RunLength(s, IsSlugChar);
        var word, rest := s[..n], s[n..];
        EmitWord(s, true, n);
        JoinMore(word, rest);
        assert Emit(s, true) == word + Emit(rest, false);
      }
    }
  }

  lemma {:induction false} JoinMore(word: string, rest: string)
    requires word != "" && (forall c | c in word :: IsSlugChar(c)) && (rest == [] || IsOther(rest[0]))
    ensures TrimRight(word + Emit(rest, false), IsDash) == Join([word] + Words(rest))
    decreases |rest|
  {
    assert word[|word| - 1] in word;
    assert TrimRight(word, IsDash) == word;
    if rest == [] {
      assert word + Emit(rest, false) == word;
    } else {
      var tail := Emit(rest[1..], true);
      EmitJoinsWords(rest[1..]);
      assert word + Emit(rest, false) == word + "-" + tail;
      TrimRightAppend(word + "-", tail);
      TrimRightAppend(word, "-");
      WordsAreWords(rest[1..]);
      JoinEmptyIff(Words(rest[1..]));
      assert ([word] + Words(rest))[1..] == Words(rest);
    }
  }

  lemma JoinEmptyIff(words: seq<string>)
    requires forall w | w in words :: w != ""
    ensures Join(words) == "" <==> words == []
  {
    if words != [] {
      assert words[0] in words;
    }
  }

  /**
   For every name, both forms give the words of the lower-case name joined by single dashes, or "org"
   when there are none.
   */
  lemma SlugJoinsWords(name: string, lower: char -> char)
    ensures var words := Words(ToLower(TrimSpace(name), lower)); Slugify(name, lower) == if words == [] then "org" else Join(words)
  {
    var s := ToLower(TrimSpace(name), lower);
    FormsAgree(s);
    EmitHasNoDoubleDash(s, true);
    assert TrimLeft(Emit(s, false), IsDash) == Emit(s, true);
    EmitJoinsWords(s);
    WordsAreWords(s);
    JoinEmptyIff(Words(s));
  }

  /** Nonempty, over letters, digits and dashes, with no leading, trailing or doubled dash. */
  predicate WellFormed(slug: string) {
    && slug != "" && slug[0] != '-' && slug[|slug| - 1] != '-' && NoDoubleDash(slug)
    && (forall c | c in slug :: 'a' <= c <= 'z' || '0' <= c <= '9' || c == '-')
  }

  /** `part` has no double dash and no character that `text` does not have. */
  ghost predicate KeepsShape(text: string, part: string) {
    (NoDoubleDash(text) ==> NoDoubleDash(part)) && forall c | c in part :: c in text
  }

  lemma {:induction false} TrimLeftKeepsShape(text: string)
    ensures KeepsShape(text, TrimLeft(text, IsDash))
  {
    if text != [] && IsDash(text[0]) {
      assert KeepsShape(text, text[1..]);
      TrimLeftKeepsShape(text[1..]);
    }
  }

  lemma {:induction false} TrimRightKeepsShape(text: string)
    ensures KeepsShape(text, TrimRight(text, IsDash))
  {
    if text != [] && IsDash(text[|text| - 1]) {
      assert KeepsShape(text, text[..|text| - 1]);
      TrimRightKeepsShape(text[..|text| - 1]);
    }
  }

  lemma TrimKeepsShape(text: string)
    ensures KeepsShape(text, Trim(text, IsDash))
  {
    TrimLeftKeepsShape(text);
    TrimRightKeepsShape(TrimLeft(text, IsDash));
  }

  lemma SlugIsWellFormed(name: string, lower: char -> char)
    ensures WellFormed(Slugify(name, lower))
  {
    var s := ToLower(TrimSpace(name), lower);
    FormsAgree(s);
    EmitHasNoDoubleDash(s, false);
    TrimKeepsShape(Emit(s, false));
    DefaultIsWellFormed(Trim(Emit(s, false), IsDash));
  }

  lemma DefaultIsWellFormed(s: string)
    requires s != "" ==> WellFormed(s)
    ensures WellFormed(OrDefault(s))
  {
  }

  /** The well-formed slugs are exactly the names that are their own slug, so slugging twice adds nothing. */
  lemma SlugIsFixedIff(name: string, lower: char -> char)
    requires LowerTable(lower)
    ensures Slugify(name, lower) == name <==> WellFormed(name)
  {
    if WellFormed(name) {
      LowerKeepsSlug(name, lower);
      ReplaceNothing(name, IsOther);
      ReplaceNothing(name, IsDash);
      TrimNothing(name, IsDash);
    } else {
      SlugIsWellFormed(name, lower);
    }
  }

  lemma LowerKeepsSlug(slug: string, lower: char -> char)
    requires LowerTable(lower) && WellFormed(slug)
    ensures ToLower(TrimSpace(slug), lower) == slug
  {
    assert slug[0] in slug && slug[|slug| - 1] in slug;
    TrimNothing(slug, IsSpace);
    forall i | 0 <= i < |slug| ensures lower(slug[i]) == slug[i] {
      assert slug[i] in slug;
    }
  }

  lemma SlugIsIdempotent(name: string, lower: char -> char)
    requires LowerTable(lower)
    ensures Slugify(Slugify(name, lower), lower) == Slugify(name, lower)
  {
    SlugIsWellFormed(name, lower);
    SlugIsFixedIff(Slugify(name, lower), lower);
  }
}
