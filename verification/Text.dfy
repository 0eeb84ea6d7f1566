/** Case folding and trimming of text, as far as slugs and email addresses depend on them. */
module Text {

  predicate IsSpace(c: char) {
    || c == ' ' || '\U{9}' <= c <= '\U{D}' || c == '\U{85}' || c == '\U{A0}' || c == '\U{1680}'
    || '\U{2000}' <= c <= '\U{200A}' || c == '\U{2028}' || c == '\U{2029}' || c == '\U{202F}' || c == '\U{205F}' || c == '\U{3000}'
  }

  /**
   A table of lower-case letters, as `unicode.ToLower` is one: ASCII as usual, nothing left to lower
   in a lower-case letter, and no letter turned into a space. Nothing else is asked of the letters
   beyond ASCII.
   */
  ghost predicate LowerTable(lower: char -> char) {
    && (forall c | 'A' <= c <= 'Z' :: lower(c) == c - 'A' + 'a')
    && (forall c | c < '\U{80}' && !('A' <= c <= 'Z') :: lower(c) == c)
    && (forall c :: lower(lower(c)) == lower(c))
    && (forall c :: IsSpace(lower(c)) ==> IsSpace(c))
  }

  function ToLower(s: string, lower: char -> char): string {
    seq(|s|, i requires 0 <= i < |s| => lower(s[i]))
  }

  function TrimLeft(s: string, drop: char -> bool): (r: string)
    ensures r == [] || !drop(r[0])
  {
    if s != [] && drop(s[0]) then TrimLeft(s[1..], drop) else s
  }

  function TrimRight(s: string, drop: char -> bool): (r: string)
    ensures r == [] || !drop(r[|r| - 1])
    ensures r <= s
  {
    if s != [] && drop(s[|s| - 1]) then TrimRight(s[..|s| - 1], drop) else s
  }

  function Trim(s: string, drop: char -> bool): (r: string)
    ensures r == [] || (!drop(r[0]) && !drop(r[|r| - 1]))
  {
    var left := TrimLeft(s, drop);
    var r := TrimRight(left, drop);
    assert r != [] ==> r[0] == left[0];
    r
  }

  function TrimSpace(s: string): string {
    Trim(s, IsSpace)
  }

  /** The form under which addresses are stored and compared. */
  function NormalizeEmail(email: string, lower: char -> char): string {
    ToLower(TrimSpace(email), lower)
  }

  lemma TrimNothing(s: string, drop: char -> bool)
    requires s == [] || (!drop(s[0]) && !drop(s[|s| - 1]))
    ensures Trim(s, drop) == s
  {
  }

  /** Capital letters come out small, and the rest of ASCII as it was. */
  lemma LowerIsLower(s: string, lower: char -> char)
    requires LowerTable(lower)
    ensures |ToLower(s, lower)| == |s|
    ensures forall i | 0 <= i < |s| && s[i] < '\U{80}' ::
              ToLower(s, lower)[i] == if 'A' <= s[i] <= 'Z' then (s[i] as int + 32) as char else s[i]
  {
  }

  lemma AsciiSpaces(c: char)
    requires c < '\U{80}'
    ensures IsSpace(c) <==> c == ' ' || c == '\t' || c == '\n' || c == '\r' || c == '\U{B}' || c == '\U{C}'
  {
  }

  lemma {:induction false} TrimLeftSplits(s: string, drop: char -> bool) returns (left: string)
    ensures s == left + TrimLeft(s, drop) && forall c | c in left :: drop(c)
  {
    left := [];
    if s != [] && drop(s[0]) {
      var rest := TrimLeftSplits(s[1..], drop);
      left := [s[0]] + rest;
      assert s == [s[0]] + s[1..];
    }
  }

  lemma {:induction false} TrimRightSplits(s: string, drop: char -> bool) returns (right: string)
    ensures s == TrimRight(s, drop) + right && forall c | c in right :: drop(c)
  {
    right := [];
    if s != [] && drop(s[|s| - 1]) {
      var rest := TrimRightSplits(s[..|s| - 1], drop);
      right := rest + [s[|s| - 1]];
      assert s == s[..|s| - 1] + [s[|s| - 1]];
    }
  }

  /** Trimming takes spaces off both ends and nothing else. */
  lemma TrimSplits(s: string, drop: char -> bool) returns (left: string, right: string)
    ensures s == left + Trim(s, drop) + right
    ensures (forall c | c in left :: drop(c)) && (forall c | c in right :: drop(c))
  {
    left := TrimLeftSplits(s, drop);
    right := TrimRightSplits(TrimLeft(s, drop), drop);
  }

  /** A normalised address is the address without the spaces around it, in small letters. */
  lemma NormalizeStrips(email: string, lower: char -> char) returns (left: string, middle: string, right: string)
    requires LowerTable(lower)
    ensures email == left + middle + right && (forall c | c in left :: IsSpace(c)) && (forall c | c in right :: IsSpace(c))
    ensures middle != [] ==> !IsSpace(middle[0]) && !IsSpace(middle[|middle| - 1])
    ensures NormalizeEmail(email, lower) == ToLower(middle, lower)
  {
    left, right := TrimSplits(email, IsSpace);
    middle := TrimSpace(email);
  }

  lemma LowerTwice(s: string, lower: char -> char)
    requires LowerTable(lower)
    ensures ToLower(ToLower(s, lower), lower) == ToLower(s, lower)
  {
  }

  lemma LowerKeepsTrimmed(s: string, lower: char -> char)
    requires LowerTable(lower) && (s == [] || (!IsSpace(s[0]) && !IsSpace(s[|s| - 1])))
    ensures TrimSpace(ToLower(s, lower)) == ToLower(s, lower)
  {
    var folded := ToLower(s, lower);
    assert s != [] ==> folded[0] == lower(s[0]) && folded[|s| - 1] == lower(s[|s| - 1]);
    TrimNothing(folded, IsSpace);
  }

  lemma NormalizeIdempotent(email: string, lower: char -> char)
    requires LowerTable(lower)
    ensures NormalizeEmail(NormalizeEmail(email, lower), lower) == NormalizeEmail(email, lower)
    ensures ToLower(NormalizeEmail(email, lower), lower) == NormalizeEmail(email, lower)
  {
    LowerTwice(TrimSpace(email), lower);
    LowerKeepsTrimmed(TrimSpace(email), lower);
  }

  /**
   An email address together with the two forms it is compared in: `folded` ignores case, as a
   CITEXT column does, and `canonical` is the normalised address.
   */
  datatype Email = Email(raw: string, folded: string, canonical: string)

  function Address(raw: string, lower: char -> char): Email {
    Email(raw, ToLower(raw, lower), NormalizeEmail(raw, lower))
  }

  function Normalized(e: Email): Email {
    Email(e.canonical, e.canonical, e.canonical)
  }

  /** Normalising the text of an address and normalising the address are the same. */
  lemma NormalizedIsAddress(raw: string, lower: char -> char)
    requires LowerTable(lower)
    ensures Address(NormalizeEmail(raw, lower), lower) == Normalized(Address(raw, lower))
  {
    NormalizeIdempotent(raw, lower);
  }
}
